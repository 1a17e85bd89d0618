/** The converse of the round trip: whenever a host name is returned, the bytes
    really are a ClientHello carrying it, and the parts that the parser did not
    look at are exactly the ones named here as trailing bytes. */
module TlsEvidence {
  import opened Basics
  import opened Hostnames
  import opened Prelude
  import opened Tls
  import opened TlsTheorems

  // How each level carries a name: what comes before it that the parser skips,
  // the next level in, and whatever trails.

  datatype InList = InList(skipped: seq<Item>, name: seq<byte>, after: seq<byte>)
  datatype InData = InData(list: InList, after: seq<byte>)
  datatype InExts = InExts(skipped: seq<Item>, data: InData, after: seq<byte>)
  datatype InBody = InBody(head: Head, exts: InExts, after: seq<byte>)
  datatype InStream = InStream(recs: seq<Rec>, body: InBody, afterMessage: seq<byte>, after: seq<byte>)

  ghost predicate ListCarries(list: seq<byte>, e: InList) {
    && (forall i :: i in e.skipped ==> NameOk(i) && i.kind != NAME_HOST)
    && |e.skipped| < 1024
    && |e.name| < 0x1_0000
    && list == NamesBytes(e.skipped) + (NameBytes(Item(NAME_HOST, e.name)) + e.after)
  }

  ghost predicate DataCarries(data: seq<byte>, e: InData) {
    exists list :: |list| < 0x1_0000 && data == Block(list) + e.after && ListCarries(list, e.list)
  }

  ghost predicate ExtsCarry(exts: seq<byte>, e: InExts) {
    && (forall i :: i in e.skipped ==> ExtOk(i) && i.kind != EXT_SERVER_NAME)
    && |e.skipped| < 1024
    && exists data ::
         && |data| < 0x1_0000 && DataCarries(data, e.data)
         && exts == ExtsBytes(e.skipped) + (ExtBytes(Item(EXT_SERVER_NAME, data)) + e.after)
  }

  ghost predicate BodyCarries(body: seq<byte>, e: InBody) {
    && HeadOk(e.head)
    && exists exts ::
         |exts| < 0x1_0000 && body == HeadBytes(e.head) + (Block(exts) + e.after) && ExtsCarry(exts, e.exts)
  }

  ghost predicate Carries(stream: seq<byte>, e: InStream) {
    && (forall r :: r in e.recs ==> RecOk(r))
    && |e.recs| <= 1024
    && stream == RecsBytes(e.recs) + e.after
    && |Payloads(e.recs)| <= 8192
    && exists body :: |body| + 4 <= 8192 && Payloads(e.recs) == Handshake(body) + e.afterMessage
                      && BodyCarries(body, e.body)
  }

  function NameIn(e: InStream): seq<byte> { e.body.exts.data.list.name }

  // ---- evidence gives the verdict ------------------------------------------------------------

  lemma ListGives(list: seq<byte>, e: InList)
    requires ListCarries(list, e)
    ensures FindHostName(list, FUEL) == Verdict(e.name)
  {
    hide FindHostName, NameBytes, Verdict;
    SkipsNames(e.skipped, NameBytes(Item(NAME_HOST, e.name)) + e.after, FUEL);
    ReadsName(Item(NAME_HOST, e.name), e.after, FUEL - |e.skipped|);
  }

  lemma DataGives(data: seq<byte>, e: InData)
    requires DataCarries(data, e)
    ensures NameList(data) == Verdict(e.list.name)
  {
    hide NameList, FindHostName, ListCarries, Verdict, Block;
    var list :| |list| < 0x1_0000 && data == Block(list) + e.after && ListCarries(list, e.list);
    ReadsBlock(list, e.after);
    ListGives(list, e.list);
  }

  lemma ExtsGive(exts: seq<byte>, e: InExts)
    requires ExtsCarry(exts, e)
    ensures FindServerName(exts, FUEL) == Verdict(e.data.list.name)
  {
    hide FindServerName, ExtBytes, Verdict, NameList, DataCarries;
    var data :| |data| < 0x1_0000 && exts == ExtsBytes(e.skipped) + (ExtBytes(Item(EXT_SERVER_NAME, data)) + e.after)
                && DataCarries(data, e.data);
    SkipsExts(e.skipped, ExtBytes(Item(EXT_SERVER_NAME, data)) + e.after, FUEL);
    ReadsExt(Item(EXT_SERVER_NAME, data), e.after, FUEL - |e.skipped|);
    DataGives(data, e.data);
  }

  lemma BodyGives(body: seq<byte>, e: InBody)
    requires BodyCarries(body, e)
    ensures BodyVerdict(body) == Verdict(e.exts.data.list.name)
  {
    hide Extensions, FindServerName, ExtsCarry, HeadBytes, Block, Verdict;
    var exts :| |exts| < 0x1_0000 && body == HeadBytes(e.head) + (Block(exts) + e.after) && ExtsCarry(exts, e.exts);
    ReadsHead(e.head, Block(exts) + e.after);
    ReadsBlock(exts, e.after);
    ExtsGive(exts, e.exts);
  }

  lemma EvidenceGives(stream: seq<byte>, e: InStream)
    requires Carries(stream, e)
    ensures TlsVerdict(stream) == Verdict(NameIn(e))
  {
    hide Walk, BodyVerdict, BodyCarries, Verdict, Handshake, Payloads, RecsBytes;
    var body :| |body| + 4 <= MAX_PEEK && Payloads(e.recs) == Handshake(body) + e.afterMessage
      && BodyCarries(body, e.body);
    assert [] + Payloads(e.recs) == Payloads(e.recs);
    assert TotalOf([]) == None;
    FragmentsWalk(|stream|, e.recs, e.after, [], FUEL, body, e.afterMessage);
    BodyGives(body, e.body);
  }

  // ---- the verdict gives evidence ---------------------------------------------------------------

  lemma Be16Inverse(hi: byte, lo: byte)
    ensures Be16(U16(hi, lo)) == [hi, lo]
  {
  }

  lemma {:induction false} ListEvidence(list: seq<byte>, fuel: nat) returns (e: InList)
    requires FindHostName(list, fuel).HostFound?
    ensures (forall i :: i in e.skipped ==> NameOk(i) && i.kind != NAME_HOST)
    ensures |e.skipped| < fuel && |e.name| < 0x1_0000
    ensures list == NamesBytes(e.skipped) + (NameBytes(Item(NAME_HOST, e.name)) + e.after)
    ensures FindHostName(list, fuel) == Verdict(e.name)
    decreases |list|
  {
    hide Verdict, ParsedName;
    var n := U16(list[1], list[2]);
    var item := Item(list[0] as int, list[3..3 + n]);
    var rest := list[3 + n..];
    Be16Inverse(list[1], list[2]);
    assert list == NameBytes(item) + rest;
    if list[0] == 0 {
      e := InList([], item.data, rest);
      assert list == [] + list;
    } else {
      var later := ListEvidence(rest, fuel - 1);
      Assoc(NameBytes(item), NamesBytes(later.skipped), NameBytes(Item(NAME_HOST, later.name)) + later.after);
      e := later.(skipped := [item] + later.skipped);
    }
  }

  lemma DataEvidence(data: seq<byte>) returns (e: InData)
    requires NameList(data).HostFound?
    ensures DataCarries(data, e)
    ensures NameList(data) == Verdict(e.list.name)
  {
    hide FindHostName, Verdict, NamesBytes, NameBytes, Block, ParsedName;
    var n := U16(data[0], data[1]);
    var list := data[2..2 + n];
    BlockInverse(data);
    var inner := ListEvidence(list, FUEL);
    e := InData(inner, data[2 + n..]);
    assert ListCarries(list, inner);
  }

  lemma BlockInverse(data: seq<byte>)
    requires |data| >= 2 && |data| >= 2 + U16(data[0], data[1])
    ensures data == Block(data[2..2 + U16(data[0], data[1])]) + data[2 + U16(data[0], data[1])..]
  {
    Be16Inverse(data[0], data[1]);
  }

  lemma {:induction false} ExtsEvidence(exts: seq<byte>, fuel: nat)
      returns (items: seq<Item>, data: seq<byte>, after: seq<byte>)
    requires FindServerName(exts, fuel).HostFound?
    ensures (forall i :: i in items ==> ExtOk(i) && i.kind != EXT_SERVER_NAME)
    ensures |items| < fuel && |data| < 0x1_0000
    ensures exts == ExtsBytes(items) + (ExtBytes(Item(EXT_SERVER_NAME, data)) + after)
    ensures FindServerName(exts, fuel) == NameList(data)
    decreases |exts|
  {
    hide NameList;
    var n := U16(exts[2], exts[3]);
    var item := Item(U16(exts[0], exts[1]), exts[4..4 + n]);
    var rest := exts[4 + n..];
    Be16Inverse(exts[0], exts[1]);
    Be16Inverse(exts[2], exts[3]);
    assert exts == ExtBytes(item) + rest;
    if item.kind == EXT_SERVER_NAME {
      items, data, after := [], item.data, rest;
      assert exts == [] + exts;
    } else {
      items, data, after := ExtsEvidence(rest, fuel - 1);
      Assoc(ExtBytes(item), ExtsBytes(items), ExtBytes(Item(EXT_SERVER_NAME, data)) + after);
      items := [item] + items;
    }
  }

  lemma HeadEvidence(body: seq<byte>) returns (head: Head, rest: seq<byte>)
    requires Extensions(body).Some?
    ensures HeadOk(head) && body == HeadBytes(head) + rest && ExtensionBlock(rest) == Extensions(body)
  {
    hide ExtensionBlock;
    var b := AfterSession(body).value;
    var c := AfterCiphers(b).value;
    var session := body[35..35 + body[34] as int];
    var suites := b[2..2 + U16(b[0], b[1])];
    var compression := c[1..1 + c[0] as int];
    rest := AfterCompression(c).value;
    head := Head(body[..2], body[2..34], session, suites, compression);
    Be16Inverse(b[0], b[1]);
    assert b == Be16(|suites|) + suites + c;
    assert c == [|compression|] + compression + rest;
    assert body == head.version + head.random + [|session|] + session + b;
    Regroup(head, c, rest);
  }

  lemma Regroup(head: Head, c: seq<byte>, rest: seq<byte>)
    requires HeadOk(head) && c == CompressionBytes(head) + rest
    ensures head.version + head.random + [|head.session|] + head.session + (Be16(|head.suites|) + head.suites + c)
         == HeadBytes(head) + rest
  {
    Assoc(head.version + head.random + [|head.session|] + head.session, Be16(|head.suites|) + head.suites, c);
    Assoc(SuitesBytes(head), CompressionBytes(head), rest);
  }

  lemma BodyEvidence(body: seq<byte>) returns (e: InBody)
    requires BodyVerdict(body).HostFound?
    ensures BodyCarries(body, e)
    ensures BodyVerdict(body) == Verdict(e.exts.data.list.name)
  {
    hide FindServerName, Extensions, HeadBytes, NameList, DataCarries, Verdict, Block, ExtsBytes, ExtBytes;
    var head, rest := HeadEvidence(body);
    var n := U16(rest[0], rest[1]);
    var exts := rest[2..2 + n];
    BlockInverse(rest);
    var items, data, after := ExtsEvidence(exts, FUEL);
    var inner := DataEvidence(data);
    e := InBody(head, InExts(items, inner, after), rest[2 + n..]);
    assert ExtsCarry(exts, e.exts);
  }

  lemma {:induction false} RecordsEvidence(s: nat, rest: seq<byte>, acc: seq<byte>, fuel: nat)
      returns (recs: seq<Rec>, after: seq<byte>)
    requires Walk(s, rest, acc, TotalOf(acc), fuel).HostFound? && |acc| <= MAX_PEEK
    ensures forall r :: r in recs ==> RecOk(r)
    ensures |recs| <= fuel && rest == RecsBytes(recs) + after
    ensures |acc + Payloads(recs)| <= MAX_PEEK
    ensures TotalOf(acc + Payloads(recs)).Some?
    ensures 4 <= TotalOf(acc + Payloads(recs)).value <= |acc + Payloads(recs)|
    ensures Walk(s, rest, acc, TotalOf(acc), fuel)
         == BodyVerdict((acc + Payloads(recs))[4..TotalOf(acc + Payloads(recs)).value])
    decreases |rest|
  {
    hide BodyVerdict, HandshakeLength;
    KnownTotal(acc);
    if TotalOf(acc).Some? && |acc| >= TotalOf(acc).value {
      recs, after := [], rest;
      assert acc + [] == acc && rest == [] + rest;
    } else {
      var n := U16(rest[3], rest[4]);
      var r := Rec(rest[2], rest[5..5 + n]);
      var later, grown := rest[5 + n..], acc + r.payload;
      Be16Inverse(rest[3], rest[4]);
      assert rest == RecBytes(r) + later;
      TotalStays(acc, r.payload);
      recs, after := RecordsEvidence(s, later, grown, fuel - 1);
      Assoc(RecBytes(r), RecsBytes(recs), after);
      Assoc(acc, r.payload, Payloads(recs));
      recs := [r] + recs;
    }
  }

  /** Once the length is known, more bytes do not change it. */
  lemma TotalStays(acc: seq<byte>, more: seq<byte>)
    ensures HandshakeLength(acc).Known? ==> HandshakeLength(acc + more) == HandshakeLength(acc)
  {
  }

  lemma HandshakeOf(m: seq<byte>, t: nat)
    requires HandshakeLength(m) == Known(t) && 4 <= t <= |m|
    ensures t - 4 == |m[4..t]| && t <= MAX_PEEK && m == Handshake(m[4..t]) + m[t..]
  {
    assert Be24(t - 4) == [m[1], m[2], m[3]];
  }

  lemma VerdictGivesEvidence(stream: seq<byte>) returns (e: InStream)
    requires TlsVerdict(stream).HostFound?
    ensures Carries(stream, e) && TlsVerdict(stream) == Verdict(NameIn(e))
  {
    hide Walk, BodyVerdict, BodyCarries, Handshake, Verdict, HandshakeLength;
    EmptyIsShort();
    var recs, after := RecordsEvidence(|stream|, stream, [], FUEL);
    var m := Payloads(recs);
    assert [] + m == m;
    var t := TotalOf(m).value;
    HandshakeOf(m, t);
    var inner := BodyEvidence(m[4..t]);
    e := InStream(recs, inner, m[t..], after);
  }

  lemma EmptyIsShort()
    ensures HandshakeLength([]) == Short
  {
  }

  /** A host name is found exactly when the stream carries one that validates. */
  lemma HostFoundIffCarried(stream: seq<byte>, host: Hostname)
    ensures TlsVerdict(stream) == HostFound(host)
      <==> exists e :: Carries(stream, e) && ParsedName(NameIn(e)) == Some(host)
  {
    hide Carries, TlsVerdict, ParsedName;
    if TlsVerdict(stream) == HostFound(host) {
      var e := VerdictGivesEvidence(stream);
      assert Carries(stream, e) && ParsedName(NameIn(e)) == Some(host);
    }
    if e :| Carries(stream, e) && ParsedName(NameIn(e)) == Some(host) {
      EvidenceGives(stream, e);
    }
  }

  // ---- when more is waited for ------------------------------------------------------------------

  /** The beginning of a handshake record, as far as it has come. */
  predicate MayContinue(part: seq<byte>) {
    && (|part| > 0 ==> part[0] == 22) && (|part| > 1 ==> part[1] == 3)
    && (|part| >= 5 ==> var n: int := part[3] as int * 256 + part[4] as int; 1 <= n <= 16384 && |part| < 5 + n)
  }

  /** The beginning of a ClientHello that can end within the first 8192 bytes. */
  predicate Unfinished(m: seq<byte>) {
    m != [] ==>
      && m[0] == 1
      && (|m| >= 4 ==>
            var n: int := (m[1] as int * 256 + m[2] as int) * 256 + m[3] as int; n + 4 <= 8192 && |m| < n + 4)
  }

  lemma UnfinishedIs(m: seq<byte>)
    ensures Unfinished(m) <==>
      && !HandshakeLength(m).NotClientHello? && |m| <= MAX_PEEK
      && (TotalOf(m).Some? ==> |m| < TotalOf(m).value)
  {
  }

  lemma UnfinishedBefore(acc: seq<byte>, more: seq<byte>)
    requires Unfinished(acc + more)
    ensures Unfinished(acc)
  {
    assert forall i :: 0 <= i < |acc| ==> (acc + more)[i] == acc[i];
  }

  /** A whole record leaves as much to wait for as before. */
  lemma {:induction false} WaitsBehind(s: nat, rest: seq<byte>, acc: seq<byte>, fuel: nat)
      returns (r: Rec, later: seq<byte>)
    requires Walk(s, rest, acc, TotalOf(acc), fuel) == NeedMore && Unfinished(acc)
    requires |rest| >= 5 && |rest| >= 5 + U16(rest[3], rest[4])
    ensures RecOk(r) && rest == RecBytes(r) + later && fuel > 0 && |later| < |rest|
    ensures |acc + r.payload| <= MAX_PEEK && !HandshakeLength(acc + r.payload).NotClientHello?
    ensures Walk(s, later, acc + r.payload, TotalOf(acc + r.payload), fuel - 1) == NeedMore
  {
    hide BodyVerdict, HandshakeLength, Unfinished;
    UnfinishedIs(acc);
    var n := U16(rest[3], rest[4]);
    r, later := Rec(rest[2], rest[5..5 + n]), rest[5 + n..];
    Be16Inverse(rest[3], rest[4]);
    assert rest == RecBytes(r) + later;
    TotalStays(acc, r.payload);
  }

  lemma {:induction false} WaitsLast(s: nat, rest: seq<byte>, acc: seq<byte>, fuel: nat)
    requires Walk(s, rest, acc, TotalOf(acc), fuel) == NeedMore
    requires |acc| <= MAX_PEEK && !HandshakeLength(acc).NotClientHello?
    ensures Unfinished(acc) && fuel > 0
    ensures |rest| < 5 || |rest| < 5 + U16(rest[3], rest[4]) ==> s < MAX_PEEK && MayContinue(rest)
  {
    hide BodyVerdict, HandshakeLength, Unfinished, Absorbed;
    UnfinishedIs(acc);
    KnownTotal(acc);
    if TotalOf(acc).Some? && |acc| >= TotalOf(acc).value {
      BodyIsConclusive(acc[4..TotalOf(acc).value]);
    }
  }

  lemma {:induction false} WaitEvidence(s: nat, rest: seq<byte>, acc: seq<byte>, fuel: nat)
      returns (recs: seq<Rec>, part: seq<byte>)
    requires Walk(s, rest, acc, TotalOf(acc), fuel) == NeedMore
    requires |acc| <= MAX_PEEK && !HandshakeLength(acc).NotClientHello?
    ensures s < MAX_PEEK && (forall r :: r in recs ==> RecOk(r)) && |recs| < fuel
    ensures rest == RecsBytes(recs) + part && Unfinished(acc + Payloads(recs)) && MayContinue(part)
    decreases |rest|
  {
    hide Walk, HandshakeLength, Unfinished, RecBytes, MayContinue, U16;
    WaitsLast(s, rest, acc, fuel);
    if |rest| < 5 || |rest| < 5 + U16(rest[3], rest[4]) {
      recs, part := [], rest;
      assert acc + [] == acc && rest == [] + rest;
    } else {
      var r, later := WaitsBehind(s, rest, acc, fuel);
      recs, part := WaitEvidence(s, later, acc + r.payload, fuel - 1);
      Assoc(RecBytes(r), RecsBytes(recs), part);
      Assoc(acc, r.payload, Payloads(recs));
      recs := [r] + recs;
    }
  }

  lemma {:induction false} WaitsWalk(s: nat, recs: seq<Rec>, part: seq<byte>, acc: seq<byte>, fuel: nat)
    requires s < MAX_PEEK && (forall r :: r in recs ==> RecOk(r)) && |recs| < fuel
    requires Unfinished(acc + Payloads(recs)) && MayContinue(part)
    ensures Walk(s, RecsBytes(recs) + part, acc, TotalOf(acc), fuel) == NeedMore
    decreases |recs|
  {
    hide BodyVerdict, HandshakeLength, Unfinished, RecBytes, Absorbed;
    UnfinishedBefore(acc, Payloads(recs));
    UnfinishedIs(acc);
    if recs == [] {
      assert [] + part == part;
    } else {
      hide Walk;
      var r, later := recs[0], recs[1..];
      var grown := acc + r.payload;
      Assoc(RecBytes(r), RecsBytes(later), part);
      Assoc(acc, r.payload, Payloads(later));
      ReadsRecord(s, r, RecsBytes(later) + part, acc, TotalOf(acc), fuel);
      UnfinishedBefore(grown, Payloads(later));
      UnfinishedIs(grown);
      TotalStays(acc, r.payload);
      AbsorbedIsWalk(s, RecsBytes(later) + part, grown, TotalOf(acc), fuel - 1);
      WaitsWalk(s, later, part, grown, fuel - 1);
    }
  }

  /** What has come so far: whole records and the beginning of the next. */
  ghost predicate Begins(stream: seq<byte>, recs: seq<Rec>, part: seq<byte>) {
    && (forall r :: r in recs ==> RecOk(r)) && |recs| < 1024
    && stream == RecsBytes(recs) + part && Unfinished(Payloads(recs)) && MayContinue(part)
  }

  /** More is waited for exactly below the peek limit, while what has come begins a
      ClientHello in handshake records that has not ended yet. Anything else is
      concluded at once. */
  lemma {:induction false} WaitsIff(stream: seq<byte>)
    ensures TlsVerdict(stream) == NeedMore <==> |stream| < 8192 && exists recs, part :: Begins(stream, recs, part)
  {
    hide Walk, Unfinished, MayContinue, RecsBytes, Payloads;
    EmptyIsShort();
    if TlsVerdict(stream) == NeedMore {
      var recs, part := WaitEvidence(|stream|, stream, [], FUEL);
      assert [] + Payloads(recs) == Payloads(recs);
      assert Begins(stream, recs, part);
    }
    if |stream| < 8192 && exists recs, part :: Begins(stream, recs, part) {
      var recs, part :| Begins(stream, recs, part);
      assert [] + Payloads(recs) == Payloads(recs);
      WaitsWalk(|stream|, recs, part, [], FUEL);
    }
  }
}
