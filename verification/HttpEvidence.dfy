/** What `peek_http_host` answers, said of the bytes alone: a host name is found
    exactly when the stream begins with a request that names it once, and more is
    waited for exactly while it could be the beginning of one. The grammar here is
    that of sections 2.2, 3 and 5 of RFC 9112 and section 7.2 of RFC 9110, written
    apart from the parser. */
module HttpEvidence {
  import opened Basics
  import opened Hostnames
  import opened Prelude
  import opened Http
  import opened HttpTheorems

  // ---- lines -----------------------------------------------------------------------------

  /** A line and how it ends: CR LF, or LF alone. */
  datatype Line = Line(text: seq<byte>, crlf: bool)

  predicate LineOk(l: Line) {
    10 !in l.text && (!l.crlf && l.text != [] ==> l.text[|l.text| - 1] != 13)
  }

  function LineBytes(l: Line): seq<byte> { l.text + if l.crlf then [13, 10] else [10] }

  function LinesBytes(ls: seq<Line>): seq<byte> { if ls == [] then [] else LineBytes(ls[0]) + LinesBytes(ls[1..]) }

  function Texts(ls: seq<Line>): (r: seq<seq<byte>>)
    ensures |r| == |ls| && forall i :: 0 <= i < |ls| ==> r[i] == ls[i].text
  {
    seq(|ls|, i requires 0 <= i < |ls| => ls[i].text)
  }

  lemma {:induction false} ReadsLine(l: Line, rest: seq<byte>)
    requires LineOk(l)
    ensures CompleteLines(LineBytes(l) + rest) == [l.text] + CompleteLines(rest)
  {
    hide CompleteLines;
    var s := LineBytes(l) + rest;
    var n := |LineBytes(l)| - 1;
    assert s[..n] == if l.crlf then l.text + [13] else l.text;
    assert s[n + 1..] == rest;
    FindIs(s, LF, n);
    FirstLine(s);
    assert StripCr(s[..n]) == l.text by {
      assert l.crlf ==> (l.text + [13])[..|l.text|] == l.text;
    }
  }

  lemma {:induction false} ReadsLines(ls: seq<Line>, rest: seq<byte>)
    requires forall l :: l in ls ==> LineOk(l)
    ensures CompleteLines(LinesBytes(ls) + rest) == Texts(ls) + CompleteLines(rest)
    decreases |ls|
  {
    hide CompleteLines, LineBytes, LineOk;
    if ls == [] {
      assert [] + rest == rest;
      assert Texts(ls) + CompleteLines(rest) == CompleteLines(rest);
    } else {
      Assoc(LineBytes(ls[0]), LinesBytes(ls[1..]), rest);
      ReadsLine(ls[0], LinesBytes(ls[1..]) + rest);
      ReadsLines(ls[1..], rest);
      assert Texts(ls) == [ls[0].text] + Texts(ls[1..]);
      Assoc([ls[0].text], Texts(ls[1..]), CompleteLines(rest));
    }
  }

  lemma {:induction false} LineEvidence(s: seq<byte>) returns (l: Line, rest: seq<byte>)
    requires CompleteLines(s) != []
    ensures LineOk(l) && s == LineBytes(l) + rest
    ensures CompleteLines(s) == [l.text] + CompleteLines(rest)
  {
    FirstLine(s);
    hide CompleteLines;
    var i := Find(s, LF);
    var raw := s[..i];
    rest := s[i + 1..];
    var crlf := raw != [] && raw[|raw| - 1] == CR;
    l := Line(StripCr(raw), crlf);
    assert LineBytes(l) == raw + [10];
    assert s == raw + [10] + rest;
    assert forall b :: b in l.text ==> b in raw;
    if !crlf {
      assert l.text == raw;
    }
  }

  lemma {:induction false} LinesEvidence(s: seq<byte>, n: nat) returns (ls: seq<Line>, rest: seq<byte>)
    requires n <= |CompleteLines(s)|
    ensures |ls| == n && (forall l :: l in ls ==> LineOk(l)) && s == LinesBytes(ls) + rest
    ensures Texts(ls) == CompleteLines(s)[..n]
    decreases n
  {
    hide *;
    if n == 0 {
      ls, rest := [], s;
      NoLines();
      assert s == [] + s && CompleteLines(s)[..0] == [];
    } else {
      var l, tail := LineEvidence(s);
      var later;
      later, rest := LinesEvidence(tail, n - 1);
      ls := [l] + later;
      LinesCons(l, later);
      Assoc(LineBytes(l), LinesBytes(later), rest);
      assert CompleteLines(s)[..n] == [l.text] + CompleteLines(tail)[..n - 1];
    }
  }

  lemma NoLines()
    ensures Texts([]) == [] && LinesBytes([]) == []
  {
  }

  lemma LinesCons(l: Line, later: seq<Line>)
    ensures LinesBytes([l] + later) == LineBytes(l) + LinesBytes(later) && Texts([l] + later) == [l.text] + Texts(later)
  {
    assert ([l] + later)[1..] == later;
  }

  // ---- the request line ---------------------------------------------------------------------

  predicate Upper(s: seq<byte>) { forall b :: b in s ==> 65 <= b <= 90 }

  /** `METHOD SP target HTTP/1.d`, where the target ends as it will. */
  function RequestText(verb: seq<byte>, target: seq<byte>, minor: byte): seq<byte> {
    verb + [32] + target + [72, 84, 84, 80, 47, 49, 46] + [minor]
  }

  ghost predicate IsRequest(line: seq<byte>) {
    exists verb, target, minor :: FirstOk(verb, minor) && line == RequestText(verb, target, minor)
  }

  predicate FirstOk(verb: seq<byte>, minor: byte) { 1 <= |verb| <= 16 && Upper(verb) && 48 <= minor <= 57 }

  lemma {:induction false} RequestLineIff(line: seq<byte>)
    ensures IsRequestLine(line) <==> IsRequest(line)
  {
    if IsRequestLine(line) {
      var verb, target, minor := RequestLineEvidence(line);
    }
    if verb, target, minor :| FirstOk(verb, minor) && line == RequestText(verb, target, minor) {
      ReadsRequestLine(verb, target, minor);
    }
  }

  lemma {:induction false} RequestLineEvidence(line: seq<byte>)
      returns (verb: seq<byte>, target: seq<byte>, minor: byte)
    requires IsRequestLine(line)
    ensures FirstOk(verb, minor) && line == RequestText(verb, target, minor)
  {
    var space, n := Find(line, SP), |line|;
    verb, minor := line[..space], line[n - 1];
    assert forall k :: n - 8 <= k < n - 1 ==> line[k] == VERSION[k - (n - 8)];
    assert space < n - 8;
    target := line[space + 1..n - 8];
    assert line == verb + [line[space]] + target + line[n - 8..n - 1] + [minor];
  }

  lemma {:induction false} ReadsRequestLine(verb: seq<byte>, target: seq<byte>, minor: byte)
    requires FirstOk(verb, minor)
    ensures IsRequestLine(RequestText(verb, target, minor))
  {
    var line := RequestText(verb, target, minor);
    assert line[..|verb|] == verb && line[|verb|] == 32;
    FindIs(line, SP, |verb|);
    assert line[|line| - 8..|line| - 1] == [72, 84, 84, 80, 47, 49, 46];
  }

  // ---- the host line ---------------------------------------------------------------------------

  /** `Host: name` or `Host: name:port`, in any case and with any white space around. */
  datatype HostLine = HostLine(
    key: seq<byte>, lead: seq<byte>, name: seq<byte>, port: Option<seq<byte>>, trail: seq<byte>)

  predicate White(s: seq<byte>) { forall b :: b in s ==> b == 32 || b == 9 }

  predicate IsHostKey(key: seq<byte>) {
    && |key| == 4
    && (key[0] == 72 || key[0] == 104) && (key[1] == 79 || key[1] == 111)
    && (key[2] == 83 || key[2] == 115) && (key[3] == 84 || key[3] == 116)
  }

  predicate HostLineOk(h: HostLine) {
    && IsHostKey(h.key) && White(h.lead) && White(h.trail)
    && (h.port.Some? ==> 1 <= |h.port.value| <= 5 && forall b :: b in h.port.value ==> 48 <= b <= 57)
  }

  function Core(h: HostLine): seq<byte> { h.name + if h.port.Some? then [58] + h.port.value else [] }

  function HostText(h: HostLine): seq<byte> { h.key + [58] + (h.lead + Core(h) + h.trail) }

  /** Is this a host line, whatever its value? */
  predicate NamesHost(text: seq<byte>) { |text| > 4 && IsHostKey(text[..4]) && text[4] == 58 }

  lemma {:induction false} HostKeyIff(key: seq<byte>)
    ensures |key| == 4 && Lowered(key) == HOST <==> IsHostKey(key)
  {
  }

  lemma {:induction false} HostValueIff(text: seq<byte>)
    ensures HeaderValue(text, HOST) == if NamesHost(text) then Some(text[5..]) else None
  {
    if |text| > 4 {
      HostKeyIff(text[..4]);
    }
  }

  /** A valid name is made of letters, digits, hyphens and dots. */
  lemma {:induction false} NameIsPlain(name: seq<byte>)
    requires ParsedName(name).Some?
    ensures name != [] && forall b :: b in name ==> b != 58 && b != 32 && b != 9 && b != 10 && b != 13
  {
    var s := StripDot(name);
    hide Split, Join;
    JoinSplit(s, DOT);
    forall l | l in Split(s, DOT) ensures forall b :: b in l ==> IsLdh(b) {
    }
    JoinIsPlain(Split(s, DOT));
    if s == [] {
      EmptyIsNoName();
    }
    assert forall b :: b in name ==> b in s || b == DOT;
  }

  lemma {:induction false} JoinIsPlain(parts: seq<seq<byte>>)
    requires parts != [] && forall l :: l in parts ==> forall b :: b in l ==> IsLdh(b)
    ensures forall b :: b in Join(parts, DOT) ==> IsLdh(b) || b == DOT
    decreases |parts|
  {
    assert parts[0] in parts;
    if |parts| > 1 {
      assert forall l :: l in parts[1..] ==> l in parts;
      JoinIsPlain(parts[1..]);
    }
  }

  lemma {:induction false} LeadGoes(lead: seq<byte>, v: seq<byte>)
    requires White(lead) && v != [] && v[0] != 32 && v[0] != 9
    ensures TrimLeft(lead + v) == v
    decreases |lead|
  {
    if lead == [] {
      assert lead + v == v;
    } else {
      assert lead[0] in lead;
      assert (lead + v)[1..] == lead[1..] + v;
      assert forall b :: b in lead[1..] ==> b in lead;
      LeadGoes(lead[1..], v);
    }
  }

  lemma {:induction false} TrailGoes(v: seq<byte>, trail: seq<byte>)
    requires White(trail) && v != [] && v[|v| - 1] != 32 && v[|v| - 1] != 9
    ensures TrimRight(v + trail) == v
    decreases |trail|
  {
    if trail == [] {
      assert v + trail == v;
    } else {
      var n := |trail| - 1;
      assert trail[n] in trail;
      assert (v + trail)[..|v| + n] == v + trail[..n];
      assert forall b :: b in trail[..n] ==> b in trail;
      TrailGoes(v, trail[..n]);
    }
  }

  lemma {:induction false} NoColon(v: seq<byte>)
    requires 58 !in v
    ensures LastColon(v) == -1
    decreases |v|
  {
    if v != [] {
      NoColon(v[..|v| - 1]);
    }
  }

  /** The name in a host line is found behind white space and before a port. */
  lemma {:induction false} ReadsHost(h: HostLine)
    requires HostLineOk(h) && ParsedName(h.name).Some?
    ensures NamesHost(HostText(h)) && HostText(h)[5..] == h.lead + Core(h) + h.trail
    ensures HostOf(h.lead + Core(h) + h.trail) == ParsedName(h.name)
    ensures LineOk(Line(HostText(h), true)) && LineOk(Line(HostText(h), false))
  {
    NameIsPlain(h.name);
    hide ParsedName, HostText, LineOk, White, IsHostKey, Core;
    HostTextParts(h);
    CoreIsTrimmed(h);
    HostTextPlain(h);
    CoreIsRead(h);
    ValueIsTrimmed(h.lead, Core(h), h.trail);
  }

  lemma HostTextParts(h: HostLine)
    requires HostLineOk(h)
    ensures NamesHost(HostText(h)) && HostText(h)[5..] == h.lead + Core(h) + h.trail
  {
    hide Core, White;
    var text := HostText(h);
    assert text[..4] == h.key && text[4] == 58;
  }

  lemma ValueIsTrimmed(lead: seq<byte>, core: seq<byte>, trail: seq<byte>)
    requires White(lead) && White(trail) && core != []
    requires core[0] != 32 && core[0] != 9 && core[|core| - 1] != 32 && core[|core| - 1] != 9
    ensures TrimRight(TrimLeft(lead + core + trail)) == core
  {
    hide White, TrimLeft, TrimRight;
    Assoc(lead, core, trail);
    assert (core + trail)[0] == core[0];
    LeadGoes(lead, core + trail);
    TrailGoes(core, trail);
  }

  lemma CoreIsRead(h: HostLine)
    requires HostLineOk(h) && 58 !in h.name
    ensures StripPort(Core(h)) == h.name
  {
    hide StripPort, White, IsHostKey;
    if h.port.Some? {
      assert IsPort(h.port.value);
      StripPortExact(h.name, h.port.value);
      assert Core(h) == h.name + [COLON] + h.port.value;
    } else {
      assert Core(h) == h.name;
      NoPort(h.name);
    }
  }

  lemma {:induction false} NoPort(name: seq<byte>)
    requires 58 !in name
    ensures StripPort(name) == name
  {
    NoColon(name);
  }

  lemma {:induction false} CoreIsTrimmed(h: HostLine)
    requires HostLineOk(h) && h.name != [] && forall b :: b in h.name ==> b != 32 && b != 9
    ensures var core := Core(h);
      core != [] && core[0] != 32 && core[0] != 9 && core[|core| - 1] != 32 && core[|core| - 1] != 9
  {
    var core := Core(h);
    assert core[0] == h.name[0] && h.name[0] in h.name;
    if h.port.Some? {
      assert core[|core| - 1] == h.port.value[|h.port.value| - 1] && h.port.value[|h.port.value| - 1] in h.port.value;
    } else {
      assert core == h.name && h.name[|h.name| - 1] in h.name;
    }
  }

  lemma {:induction false} HostTextPlain(h: HostLine)
    requires HostLineOk(h) && forall b :: b in h.name ==> b != 10 && b != 13
    ensures 10 !in HostText(h) && 13 !in HostText(h)
    ensures LineOk(Line(HostText(h), true)) && LineOk(Line(HostText(h), false))
  {
    var text := HostText(h);
    assert forall b :: b in text ==>
      b in h.key || b == 58 || b in h.lead || b in h.name || (h.port.Some? && b in h.port.value) || b in h.trail;
    assert text[|text| - 1] in text;
  }

  lemma {:induction false} PortEvidence(core: seq<byte>) returns (port: Option<seq<byte>>)
    ensures port.Some? ==> 1 <= |port.value| <= 5 && forall b :: b in port.value ==> 48 <= b <= 57
    ensures core == StripPort(core) + if port.Some? then [58] + port.value else []
  {
    StripPortOnly(core);
    var name := StripPort(core);
    hide StripPort;
    port := None;
    if name != core {
      var p :| IsPort(p) && core == name + [COLON] + p;
      port := Some(p);
      assert core == name + ([58] + p);
    }
  }

  lemma {:induction false} HostEvidence(text: seq<byte>) returns (h: HostLine)
    requires NamesHost(text) && HostOf(text[5..]).Some?
    ensures HostLineOk(h) && text == HostText(h) && ParsedName(h.name) == HostOf(text[5..])
  {
    var v := text[5..];
    var lead, trail := TrimOwsSplits(v);
    var core := TrimRight(TrimLeft(v));
    hide TrimLeft, TrimRight, ParsedName, StripPort;
    var port := PortEvidence(core);
    h := HostLine(text[..4], lead, StripPort(core), port, trail);
    WhiteIsOws(lead);
    WhiteIsOws(trail);
    hide IsHostKey, White, AllOws;
    assert Core(h) == core && v == lead + Core(h) + trail;
    hide Core;
    assert text == text[..4] + [58] + v;
  }

  lemma WhiteIsOws(s: seq<byte>)
    ensures White(s) <==> AllOws(s)
  {
  }

  // ---- the request ---------------------------------------------------------------------------------

  datatype Request = Request(
    verb: seq<byte>, target: seq<byte>, minor: byte, firstCrlf: bool,
    before: seq<Line>, host: HostLine, hostCrlf: bool, after: seq<Line>, blankCrlf: bool)

  /** A header line that is no host line, neither too long nor folded. */
  predicate OtherOk(l: Line) {
    LineOk(l) && 1 <= |l.text| <= 1024 && l.text[0] != 32 && l.text[0] != 9 && !NamesHost(l.text)
  }

  predicate RequestOk(r: Request) {
    && FirstOk(r.verb, r.minor) && 10 !in r.target
    && (forall l :: l in r.before ==> OtherOk(l)) && (forall l :: l in r.after ==> OtherOk(l))
    && HostLineOk(r.host) && |HostText(r.host)| <= 1024
    && |r.before| + 1 + |r.after| < 128
  }

  function RequestLines(r: Request): seq<Line> {
    [Line(RequestText(r.verb, r.target, r.minor), r.firstCrlf)]
    + (r.before + [Line(HostText(r.host), r.hostCrlf)] + r.after)
    + [Line([], r.blankCrlf)]
  }

  lemma {:induction false} RequestTextOk(verb: seq<byte>, target: seq<byte>, minor: byte, crlf: bool)
    requires FirstOk(verb, minor) && 10 !in target
    ensures LineOk(Line(RequestText(verb, target, minor), crlf))
  {
    var text := RequestText(verb, target, minor);
    assert forall b :: b in text ==>
      b in verb || b == 32 || b in target || b in [72, 84, 84, 80, 47, 49, 46] || b == minor;
    assert text[|text| - 1] == minor;
  }

  lemma {:induction false} ValuesOf(lines: seq<seq<byte>>, more: seq<seq<byte>>)
    requires forall l :: l in lines ==> !NamesHost(l)
    ensures HostValues(lines + more) == HostValues(more)
    decreases |lines|
  {
    hide NamesHost, HeaderValue;
    if lines == [] {
      assert lines + more == more;
    } else {
      assert lines[0] in lines;
      HostValueIff(lines[0]);
      assert (lines + more)[1..] == lines[1..] + more;
      ValuesOf(lines[1..], more);
    }
  }

  lemma {:induction false} OneValue(before: seq<seq<byte>>, text: seq<byte>, after: seq<seq<byte>>)
    requires (forall l :: l in before ==> !NamesHost(l)) && (forall l :: l in after ==> !NamesHost(l))
    requires NamesHost(text)
    ensures HostValues(before + [text] + after) == [text[5..]]
  {
    hide NamesHost, HeaderValue;
    assert before + [text] + after == before + ([text] + after);
    ValuesOf(before, [text] + after);
    HostValueIff(text);
    assert ([text] + after)[1..] == after;
    ValuesOf(after, []);
    assert after + [] == after;
  }

  /** The header lines end at the first empty one. */
  lemma {:induction false} HeadersEnd(headers: seq<seq<byte>>, more: seq<seq<byte>>)
    requires [] !in headers
    ensures Headers(headers + [[]] + more) == headers && [] in headers + [[]] + more
  {
    var lines := headers + [[]] + more;
    assert lines[..|headers|] == headers && lines[|headers|] == [];
    FindIs(lines, [], |headers|);
  }

  lemma {:induction false} RequestIsRead(r: Request, rest: seq<byte>)
    requires RequestOk(r) && ParsedName(r.host.name).Some?
    ensures HttpVerdict(LinesBytes(RequestLines(r)) + rest) == HostFound(ParsedName(r.host.name).value)
  {
    hide ParsedName, HttpVerdict, CompleteLines, IsRequestLine, HostValues, HostOf, NamesHost, HostText, RequestText;
    ReadsHost(r.host);
    var ls, stream := RequestLines(r), LinesBytes(RequestLines(r)) + rest;
    var first, headers := ls[0], r.before + [Line(HostText(r.host), r.hostCrlf)] + r.after;
    assert LineOk(first) && IsRequestLine(first.text) by {
      RequestTextOk(r.verb, r.target, r.minor, r.firstCrlf);
      ReadsRequestLine(r.verb, r.target, r.minor);
    }
    assert forall l :: l in ls ==> LineOk(l);
    ReadsLines(ls, rest);
    var lines, texts := CompleteLines(stream), Texts(headers);
    assert Texts(ls) == [first.text] + texts + [[]];
    assert lines[1..] == texts + [[]] + CompleteLines(rest);
    HeaderTexts(r, texts);
    HeadersEnd(texts, CompleteLines(rest));
    HostFoundIff(stream, ParsedName(r.host.name).value);
  }

  lemma {:induction false} HeaderTexts(r: Request, texts: seq<seq<byte>>)
    requires RequestOk(r) && NamesHost(HostText(r.host))
    requires texts == Texts(r.before + [Line(HostText(r.host), r.hostCrlf)] + r.after)
    ensures (forall t :: t in texts ==> Tolerable(t)) && [] !in texts
    ensures HostValues(texts) == [HostText(r.host)[5..]]
  {
    var before, text, after := Texts(r.before), HostText(r.host), Texts(r.after);
    assert texts == before + [text] + after;
    forall t | t in before ensures Tolerable(t) && !NamesHost(t) {
      var k :| 0 <= k < |before| && before[k] == t;
      assert r.before[k] in r.before;
    }
    forall t | t in after ensures Tolerable(t) && !NamesHost(t) {
      var k :| 0 <= k < |after| && after[k] == t;
      assert r.after[k] in r.after;
    }
    assert Tolerable(text) by {
      assert text[..4][0] == text[0];
    }
    hide NamesHost, Tolerable, HostText;
    OneValue(before, text, after);
    assert forall t :: t in texts ==> t in before || t == text || t in after;
    assert !Tolerable([]) by {
      EmptyIsNoHeader();
    }
  }

  lemma EmptyIsNoHeader()
    ensures !Tolerable([])
  {
  }

  /** Where the one host line is. */
  lemma {:induction false} FindHost(lines: seq<seq<byte>>) returns (k: nat)
    requires |HostValues(lines)| == 1
    ensures k < |lines| && NamesHost(lines[k]) && HostValues(lines) == [lines[k][5..]]
    ensures forall j :: 0 <= j < |lines| && j != k ==> !NamesHost(lines[j])
    decreases |lines|
  {
    hide NamesHost, HeaderValue;
    HostValueIff(lines[0]);
    if NamesHost(lines[0]) {
      k := 0;
      NoHosts(lines[1..]);
    } else {
      k := FindHost(lines[1..]);
      k := k + 1;
    }
  }

  lemma {:induction false} NoHosts(lines: seq<seq<byte>>)
    requires HostValues(lines) == []
    ensures forall j :: 0 <= j < |lines| ==> !NamesHost(lines[j])
    decreases |lines|
  {
    hide NamesHost, HeaderValue;
    if lines != [] {
      HostValueIff(lines[0]);
      NoHosts(lines[1..]);
    }
  }

  lemma {:induction false} RequestEvidence(stream: seq<byte>, host: Hostname) returns (r: Request, rest: seq<byte>)
    requires HttpVerdict(stream) == HostFound(host)
    ensures RequestOk(r) && ParsedName(r.host.name) == Some(host) && stream == LinesBytes(RequestLines(r)) + rest
  {
    hide ParsedName, HttpVerdict, CompleteLines, IsRequestLine, HostValues, HostOf, NamesHost, HostText, RequestText,
         LinesBytes, LineOk, RequestLines, RequestOk, Tolerable;
    HostFoundIff(stream, host);
    var lines := CompleteLines(stream);
    var headers := Headers(lines[1..]);
    var ls;
    ls, rest := LinesEvidence(stream, |headers| + 2);
    assert Texts(ls) == [lines[0]] + headers + [[]];
    r := RequestFrom(ls, lines[0], headers);
  }

  lemma {:induction false} RequestFrom(ls: seq<Line>, first: seq<byte>, headers: seq<seq<byte>>) returns (r: Request)
    requires (forall l :: l in ls ==> LineOk(l)) && Texts(ls) == [first] + headers + [[]]
    requires IsRequestLine(first) && |headers| < 128 && (forall t :: t in headers ==> Tolerable(t))
    requires |HostValues(headers)| == 1 && HostOf(HostValues(headers)[0]).Some?
    ensures RequestOk(r) && RequestLines(r) == ls
    ensures ParsedName(r.host.name) == HostOf(HostValues(headers)[0])
  {
    hide *;
    TextsAt(ls, first, headers);
    var n := |headers|;
    var k := FindHost(headers);
    var verb, target, minor := RequestLineEvidence(first);
    var h := HostEvidence(headers[k]);
    r := Request(verb, target, minor, ls[0].crlf, ls[1..k + 1], h, ls[k + 1].crlf, ls[k + 2..n + 1], ls[n + 1].crlf);
    Reassembled(ls, r, k);
    TargetHasNoFeed(ls[0], verb, target, minor);
    OthersOk(ls, headers, k);
    HostIsTolerable(headers, k);
    RequestFits(r);
  }

  lemma TextsAt(ls: seq<Line>, first: seq<byte>, headers: seq<seq<byte>>)
    requires Texts(ls) == [first] + headers + [[]]
    ensures |ls| == |headers| + 2 && ls[0].text == first && ls[|headers| + 1].text == []
    ensures forall j :: 0 <= j < |headers| ==> headers[j] == ls[j + 1].text
    ensures (forall l :: l in ls ==> LineOk(l)) ==> LineOk(ls[0])
  {
    hide LineOk;
    assert Texts(ls)[0] == first && Texts(ls)[|headers| + 1] == [];
    forall j | 0 <= j < |headers| ensures headers[j] == ls[j + 1].text {
      assert Texts(ls)[j + 1] == headers[j];
    }
    assert ls[0] in ls;
  }

  lemma HostIsTolerable(headers: seq<seq<byte>>, k: nat)
    requires k < |headers| && forall t :: t in headers ==> Tolerable(t)
    ensures |headers[k]| <= 1024
  {
    assert headers[k] in headers;
  }

  lemma RequestFits(r: Request)
    requires FirstOk(r.verb, r.minor) && 10 !in r.target
    requires (forall l :: l in r.before ==> OtherOk(l)) && (forall l :: l in r.after ==> OtherOk(l))
    requires HostLineOk(r.host) && |HostText(r.host)| <= 1024 && |r.before| + 1 + |r.after| < 128
    ensures RequestOk(r)
  {
    hide FirstOk, OtherOk, HostLineOk, HostText;
  }

  lemma {:induction false} Reassembled(ls: seq<Line>, r: Request, k: nat)
    requires k + 2 < |ls|
    requires ls[0] == Line(RequestText(r.verb, r.target, r.minor), r.firstCrlf) && r.before == ls[1..k + 1]
    requires ls[k + 1] == Line(HostText(r.host), r.hostCrlf) && r.after == ls[k + 2..|ls| - 1]
    requires ls[|ls| - 1] == Line([], r.blankCrlf)
    ensures RequestLines(r) == ls
  {
    hide RequestText, HostText;
  }

  lemma {:induction false} OthersOk(ls: seq<Line>, headers: seq<seq<byte>>, k: nat)
    requires (forall l :: l in ls ==> LineOk(l)) && (forall t :: t in headers ==> Tolerable(t))
    requires k < |headers| && |ls| == |headers| + 2
    requires forall j :: 0 <= j < |headers| ==> headers[j] == ls[j + 1].text
    requires forall j :: 0 <= j < |headers| && j != k ==> !NamesHost(headers[j])
    ensures forall l :: l in ls[1..k + 1] ==> OtherOk(l)
    ensures forall l :: l in ls[k + 2..|headers| + 1] ==> OtherOk(l)
  {
    hide LineOk, NamesHost;
    forall i | 1 <= i <= |headers| && i != k + 1 ensures OtherOk(ls[i]) {
      assert headers[i - 1] == ls[i].text && headers[i - 1] in headers && ls[i] in ls;
    }
  }

  lemma {:induction false} TargetHasNoFeed(l: Line, verb: seq<byte>, target: seq<byte>, minor: byte)
    requires LineOk(l) && l.text == RequestText(verb, target, minor)
    ensures 10 !in target
  {
    forall k | 0 <= k < |target| ensures target[k] != 10 {
      assert l.text[|verb| + 1 + k] == target[k];
      assert l.text[|verb| + 1 + k] in l.text;
    }
  }

  /** The stream is a request that names one host, and what follows it. */
  predicate Carries(stream: seq<byte>, r: Request, rest: seq<byte>) {
    RequestOk(r) && stream == LinesBytes(RequestLines(r)) + rest
  }

  /** A host is found exactly when the stream begins with a whole request that has
      one host line, which names it; and then it is that host. */
  lemma {:induction false} HostFoundIffRequested(stream: seq<byte>, host: Hostname)
    ensures HttpVerdict(stream) == HostFound(host) <==>
      exists r, rest :: Carries(stream, r, rest) && ParsedName(r.host.name) == Some(host)
  {
    hide ParsedName, HttpVerdict, RequestOk, RequestLines, LinesBytes;
    if HttpVerdict(stream) == HostFound(host) {
      var r, rest := RequestEvidence(stream, host);
      assert Carries(stream, r, rest);
    }
    if r, rest :| Carries(stream, r, rest) && ParsedName(r.host.name) == Some(host) {
      RequestIsRead(r, rest);
    }
  }

  // ---- when more is waited for ------------------------------------------------------------------------

  lemma {:induction false} WalkWaits(s: nat, lines: seq<seq<byte>>, host: Option<Hostname>, count: nat, fuel: nat)
    ensures HeaderWalk(s, lines, host, count, fuel) == NeedMore <==>
      s < MAX_PEEK && |lines| < fuel && forall l :: l in lines ==> Tolerable(l)
    decreases |lines|
  {
    hide HeaderValue, HostOf;
    if lines != [] && fuel > 0 {
      assert lines[0] in lines;
      assert forall l :: l in lines <==> l == lines[0] || l in lines[1..];
      match HeaderValue(lines[0], HOST)
      case Some(v) => WalkWaits(s, lines[1..], HostOf(v), count + 1, fuel - 1);
      case None => WalkWaits(s, lines[1..], host, count, fuel - 1);
    }
  }

  /** Bytes that may begin with a method: capitals only, or at most 16 and a space. */
  ghost predicate MayBegin(s: seq<byte>) {
    (|s| <= 16 && Upper(s)) || exists k :: 1 <= k <= 16 && k < |s| && Upper(s[..k]) && s[k] == 32
  }

  lemma {:induction false} PlausibleIff(s: seq<byte>)
    ensures Plausible(s) <==> MayBegin(s)
  {
    var n := UpperRun(s);
    if Plausible(s) && n < |s| {
      assert Upper(s[..n]) && s[n] == 32;
    }
    if k :| 1 <= k <= 16 && k < |s| && Upper(s[..k]) && s[k] == 32 {
      assert forall j :: 0 <= j < k ==> s[..k][j] in s[..k];
      assert n == k;
    }
    if |s| <= 16 && Upper(s) {
      assert forall j :: 0 <= j < |s| ==> s[j] in s;
      assert n == |s|;
    }
  }

  /** The beginning of a request: of a method, or a request line and at most 127
      header lines, none of them empty, too long or folded. */
  ghost predicate MayBeRequest(stream: seq<byte>) {
    var lines := CompleteLines(stream);
    if lines == [] then MayBegin(stream)
    else
      && IsRequest(lines[0]) && |lines| <= 128
      && forall l :: l in lines[1..] ==> 1 <= |l| <= 1024 && l[0] != 32 && l[0] != 9
  }

  /** More is waited for exactly below the peek limit, while what has come may be the
      beginning of a request. Anything else is concluded at once. */
  lemma {:induction false} WaitsIff(stream: seq<byte>)
    ensures HttpVerdict(stream) == NeedMore <==> |stream| < 8192 && MayBeRequest(stream)
  {
    hide CompleteLines, Plausible, IsRequestLine, IsRequest, HeaderWalk, MayBegin;
    var lines := CompleteLines(stream);
    PlausibleIff(stream);
    if lines != [] {
      RequestLineIff(lines[0]);
      if IsRequestLine(lines[0]) {
        RequestLineIsPlausible(stream);
      }
      WalkWaits(|stream|, lines[1..], None, 0, MAX_HEADER_LINES);
    }
  }
}
