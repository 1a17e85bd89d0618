/** The HTTP half of `parser.rs`: the request line and the `Host:` header
    (sections 3.2 and 5.2 of RFC 9112). */
module Http {
  import opened Basics
  import opened Hostnames
  import opened Prelude

  const LF: byte := 10
  const CR: byte := 13
  const SP: byte := 32
  const TAB: byte := 9
  const COLON: byte := 58
  const MAX_HEADER_LINES: nat := 128
  const MAX_HEADER_LINE: nat := 1024
  const MAX_METHOD: nat := 16
  /** `host` */
  const HOST: seq<byte> := [104, 111, 115, 116]
  /** `HTTP/1.` */
  const VERSION: seq<byte> := [72, 84, 84, 80, 47, 49, 46]

  predicate IsUpper(b: byte) { 65 <= b <= 90 }
  predicate IsDigit(b: byte) { 48 <= b <= 57 }
  predicate IsOws(b: byte) { b == SP || b == TAB }

  // ---- lines -------------------------------------------------------------------------

  function StripCr(line: seq<byte>): seq<byte> {
    if |line| > 0 && line[|line| - 1] == CR then line[..|line| - 1] else line
  }

  /** The terminated lines, without their terminators. */
  function CompleteLines(rest: seq<byte>): seq<seq<byte>>
    decreases |rest|
  {
    var i := Find(rest, LF);
    if i == |rest| then [] else [StripCr(rest[..i])] + CompleteLines(rest[i + 1..])
  }

  lemma {:induction false} FirstLine(rest: seq<byte>)
    ensures CompleteLines(rest) ==
      var i := Find(rest, LF);
      if i == |rest| then [] else [StripCr(rest[..i])] + CompleteLines(rest[i + 1..])
  {
  }

  class Lines {
    var rest: seq<byte>

    constructor (stream: seq<byte>)
      ensures rest == stream
    {
      rest := stream;
    }

    /** Nothing, when what remains is an unterminated line. */
    method Next() returns (line: Option<seq<byte>>)
      modifies this
      ensures line.None? ==> CompleteLines(old(rest)) == [] && rest == old(rest)
      ensures line.Some? ==> CompleteLines(old(rest)) == [line.value] + CompleteLines(rest)
      ensures line.Some? ==> |rest| < |old(rest)|
    {
      hide CompleteLines, StripCr;
      FirstLine(rest);
      var newline := Find(rest, LF);
      if newline == |rest| {
        return None;
      }
      line := Some(StripCr(rest[..newline]));
      rest := rest[newline + 1..];
    }
  }

  // ---- pieces ------------------------------------------------------------------------

  /** How many leading bytes are ASCII uppercase. */
  function UpperRun(s: seq<byte>): (k: nat)
    ensures k <= |s|
    ensures forall i :: 0 <= i < k ==> IsUpper(s[i])
    ensures k < |s| ==> !IsUpper(s[k])
  {
    if s == [] || !IsUpper(s[0]) then 0 else 1 + UpperRun(s[1..])
  }

  /** Could these bytes still begin with a method token and a space? */
  predicate Plausible(stream: seq<byte>) {
    var k := UpperRun(stream);
    k <= MAX_METHOD && (k == |stream| || (k > 0 && stream[k] == SP))
  }

  method PlausibleMethodPrefix(stream: seq<byte>) returns (r: bool)
    ensures r == Plausible(stream)
  {
    var offset := 0;
    while offset < |stream| && offset < MAX_METHOD + 1
      invariant 0 <= offset <= |stream| && offset <= MAX_METHOD + 1
      invariant forall i :: 0 <= i < offset ==> IsUpper(stream[i])
    {
      if stream[offset] == SP {
        return offset > 0;
      }
      if !IsUpper(stream[offset]) {
        return false;
      }
      offset := offset + 1;
    }
    r := |stream| <= MAX_METHOD;
  }

  predicate IsRequestLine(line: seq<byte>) {
    var space := Find(line, SP);
    && space < |line|
    && 1 <= space <= MAX_METHOD
    && (forall b :: b in line[..space] ==> IsUpper(b))
    && |line| >= 8
    && line[|line| - 8..|line| - 1] == VERSION
    && IsDigit(line[|line| - 1])
  }

  function HeaderValue(line: seq<byte>, name: seq<byte>): Option<seq<byte>> {
    if |line| > |name| && Lowered(line[..|name|]) == name && line[|name|] == COLON
    then Some(line[|name| + 1..])
    else None
  }

  function TrimLeft(v: seq<byte>): seq<byte> {
    if v != [] && IsOws(v[0]) then TrimLeft(v[1..]) else v
  }

  function TrimRight(v: seq<byte>): seq<byte> {
    if v != [] && IsOws(v[|v| - 1]) then TrimRight(v[..|v| - 1]) else v
  }

  method TrimOws(raw: seq<byte>) returns (value: seq<byte>)
    ensures value == TrimRight(TrimLeft(raw))
  {
    value := raw;
    while value != [] && IsOws(value[0])
      invariant TrimLeft(raw) == TrimLeft(value)
      decreases |value|
    {
      value := value[1..];
    }
    ghost var left := value;
    while value != [] && IsOws(value[|value| - 1])
      invariant TrimRight(left) == TrimRight(value)
      decreases |value|
    {
      value := value[..|value| - 1];
    }
  }

  predicate AllOws(s: seq<byte>) { forall b :: b in s ==> IsOws(b) }

  lemma {:induction false} TrimLeftSplits(v: seq<byte>) returns (lead: seq<byte>)
    ensures AllOws(lead) && v == lead + TrimLeft(v)
    ensures TrimLeft(v) != [] ==> !IsOws(TrimLeft(v)[0])
    decreases |v|
  {
    if v != [] && IsOws(v[0]) {
      lead := TrimLeftSplits(v[1..]);
      lead := v[..1] + lead;
    } else {
      lead := [];
    }
  }

  lemma {:induction false} TrimRightSplits(v: seq<byte>) returns (trail: seq<byte>)
    ensures AllOws(trail) && v == TrimRight(v) + trail
    ensures TrimRight(v) != [] ==> !IsOws(TrimRight(v)[|TrimRight(v)| - 1])
    decreases |v|
  {
    if v != [] && IsOws(v[|v| - 1]) {
      trail := TrimRightSplits(v[..|v| - 1]);
      trail := trail + v[|v| - 1..];
    } else {
      trail := [];
    }
  }

  /** Only optional white space is removed, and all of it at both ends. */
  lemma TrimOwsSplits(v: seq<byte>) returns (lead: seq<byte>, trail: seq<byte>)
    ensures var core := TrimRight(TrimLeft(v));
            && AllOws(lead) && AllOws(trail) && v == lead + core + trail
            && (core != [] ==> !IsOws(core[0]) && !IsOws(core[|core| - 1]))
  {
    lead := TrimLeftSplits(v);
    trail := TrimRightSplits(TrimLeft(v));
    Assoc(lead, TrimRight(TrimLeft(v)), trail);
  }

  /** Position of the last colon, -1 when there is none. */
  function LastColon(v: seq<byte>): (i: int)
    ensures -1 <= i < |v|
    ensures i >= 0 ==> v[i] == COLON
    ensures forall k :: i < k < |v| ==> v[k] != COLON
  {
    if v == [] then -1 else if v[|v| - 1] == COLON then |v| - 1 else LastColon(v[..|v| - 1])
  }

  predicate IsPort(p: seq<byte>) { 1 <= |p| <= 5 && forall b :: b in p ==> IsDigit(b) }

  /** Only a plausible port is dropped; any other colon stays, for the host name
      validator to reject. */
  function StripPort(v: seq<byte>): seq<byte> {
    var colon := LastColon(v);
    if colon < 0 || !IsPort(v[colon + 1..]) then v else v[..colon]
  }

  lemma StripPortExact(host: seq<byte>, port: seq<byte>)
    requires IsPort(port)
    ensures StripPort(host + [COLON] + port) == host
  {
    var v := host + [COLON] + port;
    assert v[|host|] == COLON;
    forall k | |host| < k < |v| ensures v[k] != COLON {
      assert v[k] == port[k - |host| - 1] && port[k - |host| - 1] in port;
    }
    assert v[|host| + 1..] == port && v[..|host|] == host;
  }

  lemma StripPortOnly(v: seq<byte>)
    ensures StripPort(v) != v ==> exists port :: IsPort(port) && v == StripPort(v) + [COLON] + port
  {
    var colon := LastColon(v);
    if colon >= 0 && IsPort(v[colon + 1..]) {
      assert v == v[..colon] + [COLON] + v[colon + 1..];
    }
  }

  // ---- the request head ---------------------------------------------------------------

  function HostOf(value: seq<byte>): Option<Hostname> { ParsedName(StripPort(TrimRight(TrimLeft(value)))) }

  function Concluded(host: Option<Hostname>, count: nat): Peek {
    if count != 1 || host.None? then NoHostname else HostFound(host.value)
  }

  function HeaderWalk(streamLength: nat, lines: seq<seq<byte>>, host: Option<Hostname>, count: nat, fuel: nat): Peek
    decreases |lines|
  {
    if fuel == 0 then NoHostname
    else if lines == [] then Incomplete(streamLength)
    else if lines[0] == [] then Concluded(host, count)
    else if |lines[0]| > MAX_HEADER_LINE then NoHostname
    else if IsOws(lines[0][0]) then NoHostname
    else
      match HeaderValue(lines[0], HOST)
      case Some(v) => HeaderWalk(streamLength, lines[1..], HostOf(v), count + 1, fuel - 1)
      case None => HeaderWalk(streamLength, lines[1..], host, count, fuel - 1)
  }

  function HttpVerdict(stream: seq<byte>): Peek {
    var lines := CompleteLines(stream);
    if !Plausible(stream) then NoHostname
    else if lines == [] then Incomplete(|stream|)
    else if !IsRequestLine(lines[0]) then NoHostname
    else HeaderWalk(|stream|, lines[1..], None, 0, MAX_HEADER_LINES)
  }

  method PeekHttpHost(stream: seq<byte>) returns (r: Peek)
    ensures r == HttpVerdict(stream)
  {
    hide Plausible, IsRequestLine, HeaderValue, ParsedName, CompleteLines, StripPort, TrimLeft, TrimRight;
    var plausible := PlausibleMethodPrefix(stream);
    if !plausible {
      return NoHostname;
    }
    var lines := new Lines(stream);
    var requestLine := lines.Next();
    if requestLine.None? {
      return Incomplete(|stream|);
    }
    if !IsRequestLine(requestLine.value) {
      return NoHostname;
    }
    assert CompleteLines(stream)[1..] == CompleteLines(lines.rest);
    var host: Option<Hostname> := None;
    var hostHeaders := 0;
    var fuel := MAX_HEADER_LINES;
    while true
      invariant HttpVerdict(stream) == HeaderWalk(|stream|, CompleteLines(lines.rest), host, hostHeaders, fuel)
      decreases |lines.rest|
    {
      if fuel == 0 {
        return NoHostname;
      }
      fuel := fuel - 1;
      ghost var before := CompleteLines(lines.rest);
      var line := lines.Next();
      if line.None? {
        return Incomplete(|stream|);
      }
      assert before[1..] == CompleteLines(lines.rest);
      if line.value == [] {
        break;
      }
      if |line.value| > MAX_HEADER_LINE {
        return NoHostname;
      }
      // Leading white space means a folded continuation.
      if IsOws(line.value[0]) {
        return NoHostname;
      }
      var value := HeaderValue(line.value, HOST);
      if value.Some? {
        hostHeaders := hostHeaders + 1;
        var trimmed := TrimOws(value.value);
        host := Parse(StripPort(trimmed));
      }
    }
    if hostHeaders != 1 {
      return NoHostname;
    }
    return match host case Some(found) => HostFound(found) case None => NoHostname;
  }
}
