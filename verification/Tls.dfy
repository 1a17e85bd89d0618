/** The TLS half of `parser.rs`: handshake records (section 5.1 of RFC 8446), the
    ClientHello body (section 4.1.2 of RFC 8446) and the server_name extension
    (section 3 of RFC 6066). Each parsing method is proved equal to a function of
    the bytes it is given. */
module Tls {
  import opened Basics
  import opened Hostnames
  import opened Prelude

  const HANDSHAKE: byte := 0x16
  const CLIENT_HELLO: byte := 0x01
  const SERVER_NAME: nat := 0
  const HOST_NAME: byte := 0
  const MAX_RECORD: nat := 16384

  // ---- as functions of the bytes ----------------------------------------------------

  datatype HandshakeLen = Known(total: nat) | Short | NotClientHello

  function HandshakeLength(acc: seq<byte>): HandshakeLen {
    if |acc| == 0 then Short
    else if acc[0] != CLIENT_HELLO then NotClientHello
    else if |acc| < 4 then Short
    else
      var total := U24(acc[1], acc[2], acc[3]) + 4;
      if total > MAX_PEEK then NotClientHello else Known(total)
  }

  /** Entries of a server name list, `fuel` of them at most. */
  function FindHostName(rest: seq<byte>, fuel: nat): Peek
    decreases |rest|
  {
    if rest == [] || fuel == 0 || |rest| < 3 then NoHostname
    else
      var n := U16(rest[1], rest[2]);
      if |rest| < 3 + n then NoHostname
      else if rest[0] == HOST_NAME then Verdict(rest[3..3 + n])
      else FindHostName(rest[3 + n..], fuel - 1)
  }

  function NameList(data: seq<byte>): Peek {
    if |data| < 2 then NoHostname
    else
      var n := U16(data[0], data[1]);
      if |data| < 2 + n then NoHostname else FindHostName(data[2..2 + n], FUEL)
  }

  /** Extensions, `fuel` of them at most. */
  function FindServerName(rest: seq<byte>, fuel: nat): Peek
    decreases |rest|
  {
    if rest == [] || fuel == 0 || |rest| < 4 then NoHostname
    else
      var n := U16(rest[2], rest[3]);
      if |rest| < 4 + n then NoHostname
      else if U16(rest[0], rest[1]) == SERVER_NAME then NameList(rest[4..4 + n])
      else FindServerName(rest[4 + n..], fuel - 1)
  }

  function AfterSession(b: seq<byte>): Option<seq<byte>> {
    if |b| < 35 || b[34] > 32 || |b| < 35 + b[34] as int then None else Some(b[35 + b[34] as int..])
  }

  function AfterCiphers(b: seq<byte>): Option<seq<byte>> {
    if |b| < 2 then None
    else
      var n := U16(b[0], b[1]);
      if n == 0 || n % 2 == 1 || |b| < 2 + n then None else Some(b[2 + n..])
  }

  function AfterCompression(b: seq<byte>): Option<seq<byte>> {
    if |b| < 1 || b[0] == 0 || |b| < 1 + b[0] as int then None else Some(b[1 + b[0] as int..])
  }

  function ExtensionBlock(b: seq<byte>): Option<seq<byte>> {
    if |b| < 2 then None
    else
      var n := U16(b[0], b[1]);
      if |b| < 2 + n then None else Some(b[2..2 + n])
  }

  /** What follows the version, random, session id and cipher suites. */
  function AfterSuites(body: seq<byte>): Option<seq<byte>> {
    var a := AfterSession(body);
    if a.None? then None else AfterCiphers(a.value)
  }

  function Extensions(body: seq<byte>): Option<seq<byte>> {
    var b := AfterSuites(body);
    if b.None? then None
    else
      var c := AfterCompression(b.value);
      if c.None? then None else ExtensionBlock(c.value)
  }

  function BodyVerdict(body: seq<byte>): Peek {
    match Extensions(body)
    case Some(e) => FindServerName(e, FUEL)
    case None => NoHostname
  }

  /** Records from `rest` on, with `acc` reassembled so far. */
  function Walk(streamLength: nat, rest: seq<byte>, acc: seq<byte>, total: Option<nat>, fuel: nat): Peek
    decreases |rest|, 0
  {
    if total.Some? && |acc| >= total.value then
      if total.value < 4 then NoHostname else BodyVerdict(acc[4..total.value])
    else if fuel == 0 then NoHostname
    else if |rest| > 0 && rest[0] != HANDSHAKE then NoHostname
    else if |rest| > 1 && rest[1] != 3 then NoHostname
    else if |rest| < 5 then Incomplete(streamLength)
    else
      var n := U16(rest[3], rest[4]);
      if n == 0 || n > MAX_RECORD then NoHostname
      else if |rest| < 5 + n then Incomplete(streamLength)
      else Absorbed(streamLength, rest[5 + n..], acc + rest[5..5 + n], total, fuel - 1)
  }

  function Absorbed(streamLength: nat, rest: seq<byte>, acc: seq<byte>, total: Option<nat>, fuel: nat): Peek
    decreases |rest|, 1
  {
    if |acc| > MAX_PEEK then NoHostname
    else if total.Some? then Walk(streamLength, rest, acc, total, fuel)
    else
      match HandshakeLength(acc)
      case Known(t) => Walk(streamLength, rest, acc, Some(t), fuel)
      case Short => Walk(streamLength, rest, acc, None, fuel)
      case NotClientHello => NoHostname
  }

  function TlsVerdict(stream: seq<byte>): Peek { Walk(|stream|, stream, [], None, FUEL) }

  // ---- one step, by position --------------------------------------------------------------

  lemma Sliced(s: seq<byte>, p: nat, i: nat, j: nat)
    requires p + i <= p + j <= |s|
    ensures s[p..][i..j] == s[p + i..p + j]
    ensures s[p..][i..] == s[p + i..]
  {
  }

  lemma NameStep(list: seq<byte>, p: nat, fuel: nat)
    requires p < |list|
    ensures FindHostName(list[p..], fuel) ==
      if fuel == 0 || p + 3 > |list| then NoHostname
      else
        var n := U16(list[p + 1], list[p + 2]);
        if p + 3 + n > |list| then NoHostname
        else if list[p] == HOST_NAME then Verdict(list[p + 3..p + 3 + n])
        else FindHostName(list[p + 3 + n..], fuel - 1)
  {
    hide Verdict;
    if fuel > 0 && p + 3 <= |list| {
      var n := U16(list[p + 1], list[p + 2]);
      if p + 3 + n <= |list| {
        Sliced(list, p, 3, 3 + n);
        Sliced(list, p, 3 + n, 3 + n);
      }
    }
  }

  lemma ExtensionStep(exts: seq<byte>, p: nat, fuel: nat)
    requires p < |exts|
    ensures FindServerName(exts[p..], fuel) ==
      if fuel == 0 || p + 4 > |exts| then NoHostname
      else
        var n := U16(exts[p + 2], exts[p + 3]);
        if p + 4 + n > |exts| then NoHostname
        else if U16(exts[p], exts[p + 1]) == SERVER_NAME then NameList(exts[p + 4..p + 4 + n])
        else FindServerName(exts[p + 4 + n..], fuel - 1)
  {
    hide NameList;
    if fuel > 0 && p + 4 <= |exts| {
      var n := U16(exts[p + 2], exts[p + 3]);
      if p + 4 + n <= |exts| {
        Sliced(exts, p, 4, 4 + n);
        Sliced(exts, p, 4 + n, 4 + n);
      }
    }
  }

  lemma RecordStep(stream: seq<byte>, p: nat, acc: seq<byte>, total: Option<nat>, fuel: nat)
    requires p <= |stream| && (total.Some? ==> |acc| < total.value)
    ensures Walk(|stream|, stream[p..], acc, total, fuel) ==
      if fuel == 0 then NoHostname
      else if p < |stream| && stream[p] != HANDSHAKE then NoHostname
      else if p + 1 < |stream| && stream[p + 1] != 3 then NoHostname
      else if p + 5 > |stream| then Incomplete(|stream|)
      else
        var n := U16(stream[p + 3], stream[p + 4]);
        if n == 0 || n > MAX_RECORD then NoHostname
        else if p + 5 + n > |stream| then Incomplete(|stream|)
        else Absorbed(|stream|, stream[p + 5 + n..], acc + stream[p + 5..p + 5 + n], total, fuel - 1)
  {
    hide Absorbed;
    if fuel > 0 && p + 5 <= |stream| {
      var n := U16(stream[p + 3], stream[p + 4]);
      if p + 5 + n <= |stream| {
        Sliced(stream, p, 5, 5 + n);
        Sliced(stream, p, 5 + n, 5 + n);
      }
    }
  }

  // ---- as the source reads them -------------------------------------------------------------

  method ReadHandshakeLength(acc: seq<byte>) returns (r: HandshakeLen)
    ensures r == HandshakeLength(acc)
  {
    var reader := new Reader(acc);
    var kind := reader.TakeU8();
    if kind.None? {
      return Short;
    }
    if kind.value != CLIENT_HELLO {
      return NotClientHello;
    }
    var length := reader.TakeU24();
    if length.None? {
      return Short;
    }
    var total := length.value + 4;
    if total > MAX_PEEK {
      return NotClientHello;
    }
    r := Known(total);
  }

  method ParseServerNameList(data: seq<byte>) returns (r: Peek)
    ensures r == NameList(data)
  {
    hide FindHostName, ParsedName;
    var reader := new Reader(data);
    var listLen := reader.TakeU16();
    if listLen.None? {
      return NoHostname;
    }
    var list := reader.Take(listLen.value);
    if list.None? {
      return NoHostname;
    }
    var entries := new Reader(list.value);
    var fuel := FUEL;
    assert list.value[0..] == list.value;
    while entries.pos < |entries.buf|
      invariant entries.Valid()
      invariant FindHostName(list.value, FUEL) == FindHostName(list.value[entries.pos..], fuel)
      decreases fuel, |entries.buf| - entries.pos
    {
      NameStep(list.value, entries.pos, fuel);
      if fuel == 0 {
        return NoHostname;
      }
      fuel := fuel - 1;
      var nameType := entries.TakeU8();
      if nameType.None? {
        return NoHostname;
      }
      var nameLen := entries.TakeU16();
      if nameLen.None? {
        return NoHostname;
      }
      var name := entries.Take(nameLen.value);
      if name.None? {
        return NoHostname;
      }
      if nameType.value == HOST_NAME {
        var parsed := Parse(name.value);
        return match parsed case Some(h) => HostFound(h) case None => NoHostname;
      }
    }
    assert list.value[entries.pos..] == [];
    NoMore(fuel);
    r := NoHostname;
  }

  lemma NoMore(fuel: nat)
    ensures FindHostName([], fuel) == NoHostname && FindServerName([], fuel) == NoHostname
  {
  }

  method WalkExtensions(extensions: seq<byte>) returns (r: Peek)
    ensures r == FindServerName(extensions, FUEL)
  {
    hide FindServerName, NameList;
    var reader := new Reader(extensions);
    var fuel := FUEL;
    assert extensions[0..] == extensions;
    while reader.pos < |reader.buf|
      invariant reader.Valid()
      invariant FindServerName(extensions, FUEL) == FindServerName(extensions[reader.pos..], fuel)
      decreases fuel, |reader.buf| - reader.pos
    {
      ExtensionStep(extensions, reader.pos, fuel);
      if fuel == 0 {
        return NoHostname;
      }
      fuel := fuel - 1;
      var extType := reader.TakeU16();
      if extType.None? {
        return NoHostname;
      }
      var extLen := reader.TakeU16();
      if extLen.None? {
        return NoHostname;
      }
      var extData := reader.Take(extLen.value);
      if extData.None? {
        return NoHostname;
      }
      if extType.value == SERVER_NAME {
        r := ParseServerNameList(extData.value);
        return;
      }
    }
    assert extensions[reader.pos..] == [];
    NoMore(fuel);
    r := NoHostname;
  }

  lemma CiphersAt(b: seq<byte>, p: nat)
    requires p <= |b|
    ensures AfterCiphers(b[p..]) ==
      if p + 2 > |b| then None
      else
        var n := U16(b[p], b[p + 1]);
        if n == 0 || n % 2 == 1 || p + 2 + n > |b| then None else Some(b[p + 2 + n..])
  {
  }

  lemma CompressionAt(b: seq<byte>, p: nat)
    requires p <= |b|
    ensures AfterCompression(b[p..]) ==
      if p + 1 > |b| || b[p] == 0 || p + 1 + b[p] as int > |b| then None else Some(b[p + 1 + b[p] as int..])
  {
  }

  lemma ExtensionsAt(b: seq<byte>, p: nat)
    requires p <= |b|
    ensures ExtensionBlock(b[p..]) ==
      if p + 2 > |b| then None
      else
        var n := U16(b[p], b[p + 1]);
        if p + 2 + n > |b| then None else Some(b[p + 2..p + 2 + n])
  {
    if p + 2 <= |b| {
      var n := U16(b[p], b[p + 1]);
      if p + 2 + n <= |b| {
        Sliced(b, p, 2, 2 + n);
      }
    }
  }

  method SkipSuites(reader: Reader) returns (ok: bool)
    requires reader.pos == 0
    modifies reader
    ensures reader.Valid()
    ensures ok <==> AfterSuites(reader.buf).Some?
    ensures ok ==> AfterSuites(reader.buf).value == reader.buf[reader.pos..]
  {
    hide AfterCiphers, U16;
    var version := reader.Take(2);
    if version.None? {
      return false;
    }
    var random := reader.Take(32);
    if random.None? {
      return false;
    }
    var sessionLen := reader.TakeU8();
    if sessionLen.None? || sessionLen.value > 32 {
      return false;
    }
    var session := reader.Take(sessionLen.value);
    if session.None? {
      return false;
    }
    CiphersAt(reader.buf, reader.pos);
    var cipherLen := reader.TakeU16();
    if cipherLen.None? || cipherLen.value == 0 || cipherLen.value % 2 == 1 {
      return false;
    }
    var ciphers := reader.Take(cipherLen.value);
    ok := ciphers.Some?;
  }

  method ParseClientHelloBody(body: seq<byte>) returns (r: Peek)
    ensures r == BodyVerdict(body)
  {
    hide FindServerName, AfterSuites, AfterCompression, ExtensionBlock, U16;
    var reader := new Reader(body);
    var skipped := SkipSuites(reader);
    if !skipped {
      return NoHostname;
    }
    CompressionAt(body, reader.pos);
    var compressionLen := reader.TakeU8();
    if compressionLen.None? || compressionLen.value == 0 {
      return NoHostname;
    }
    var compression := reader.Take(compressionLen.value);
    if compression.None? {
      return NoHostname;
    }
    ExtensionsAt(body, reader.pos);
    if reader.pos == |reader.buf| {
      return NoHostname;
    }
    var extensionsLen := reader.TakeU16();
    if extensionsLen.None? {
      return NoHostname;
    }
    var extensions := reader.Take(extensionsLen.value);
    if extensions.None? {
      return NoHostname;
    }
    r := WalkExtensions(extensions.value);
  }

  /** Reassembly leaves at least the four header bytes before a length is known. */
  lemma KnownTotal(acc: seq<byte>)
    ensures HandshakeLength(acc).Known? ==> 4 <= HandshakeLength(acc).total <= MAX_PEEK
  {
  }

  method CopyInto(acc: array<byte>, at: nat, payload: seq<byte>)
    requires at + |payload| <= acc.Length
    modifies acc
    ensures acc[..at + |payload|] == old(acc[..at]) + payload
  {
    forall k | 0 <= k < |payload| {
      acc[at + k] := payload[k];
    }
  }

  method PeekTls(stream: seq<byte>) returns (r: Peek)
    ensures r == TlsVerdict(stream)
  {
    hide Walk, BodyVerdict, HandshakeLength;
    var acc := new byte[MAX_PEEK](_ => 0);
    var accLen: nat := 0;
    var records := new Reader(stream);
    var fuel := FUEL;
    var total: Option<nat> := None;
    assert acc[..0] == [] && stream[0..] == stream;
    while total.None? || accLen < total.value
      invariant records.Valid() && accLen <= MAX_PEEK
      invariant total.Some? ==> 4 <= total.value
      invariant TlsVerdict(stream) == Walk(|stream|, stream[records.pos..], acc[..accLen], total, fuel)
      decreases fuel
    {
      RecordStep(stream, records.pos, acc[..accLen], total, fuel);
      if fuel == 0 {
        return NoHostname;
      }
      fuel := fuel - 1;
      // Judged from whatever bytes have arrived.
      if records.pos < |stream| && stream[records.pos] != HANDSHAKE {
        return NoHostname;
      }
      if records.pos + 1 < |stream| && stream[records.pos + 1] != 3 {
        return NoHostname;
      }
      var header := records.Take(5);
      if header.None? {
        return Incomplete(|stream|);
      }
      var length := U16(header.value[3], header.value[4]);
      if length == 0 || length > MAX_RECORD {
        return NoHostname;
      }
      var payload := records.Take(length);
      if payload.None? {
        return Incomplete(|stream|);
      }
      if accLen + length > MAX_PEEK {
        return NoHostname;
      }
      CopyInto(acc, accLen, payload.value);
      accLen := accLen + length;
      if total.None? {
        KnownTotal(acc[..accLen]);
        var known := ReadHandshakeLength(acc[..accLen]);
        match known
        case Known(t) => total := Some(t);
        case NotClientHello => return NoHostname;
        case Short =>
      }
    }
    WalkEnds(|stream|, stream[records.pos..], acc[..accLen], total, fuel);
    r := ParseClientHelloBody(acc[..accLen][4..total.value]);
  }

  lemma WalkEnds(streamLength: nat, rest: seq<byte>, acc: seq<byte>, total: Option<nat>, fuel: nat)
    requires total.Some? && 4 <= total.value <= |acc|
    ensures Walk(streamLength, rest, acc, total, fuel) == BodyVerdict(acc[4..total.value])
  {
  }
}
