/** What `peek_tls` answers: its verdict does not depend on how TCP or the record
    layer cut the bytes, and a host name is found exactly when the bytes are a
    ClientHello that carries it. The serialiser here is written from the RFCs,
    not from the parser. */
module TlsTheorems {
  import opened Basics
  import opened Prelude
  import opened Tls

  // ---- TCP segmentation ------------------------------------------------------------------

  /** A conclusive verdict survives any later bytes within the peek limit. */
  lemma {:induction false} WalkStable(
      s: nat, rest: seq<byte>, acc: seq<byte>, total: Option<nat>, fuel: nat, more: seq<byte>)
    requires s + |more| <= MAX_PEEK
    requires Walk(s, rest, acc, total, fuel) != NeedMore
    ensures Walk(s + |more|, rest + more, acc, total, fuel) == Walk(s, rest, acc, total, fuel)
    decreases |rest|, 0
  {
    hide BodyVerdict, Absorbed;
    if more == [] {
      assert rest + more == rest;
    } else if !(total.Some? && |acc| >= total.value) && fuel > 0 && 5 <= |rest| {
      var n := U16(rest[3], rest[4]);
      if 0 < n <= MAX_RECORD && 5 + n <= |rest| && rest[0] == HANDSHAKE && rest[1] == 3 {
        assert (rest + more)[5 + n..] == rest[5 + n..] + more;
        assert (rest + more)[5..5 + n] == rest[5..5 + n];
        AbsorbedStable(s, rest[5 + n..], acc + rest[5..5 + n], total, fuel - 1, more);
      }
    }
  }

  lemma {:induction false} AbsorbedStable(
      s: nat, rest: seq<byte>, acc: seq<byte>, total: Option<nat>, fuel: nat, more: seq<byte>)
    requires s + |more| <= MAX_PEEK
    requires Absorbed(s, rest, acc, total, fuel) != NeedMore
    ensures Absorbed(s + |more|, rest + more, acc, total, fuel) == Absorbed(s, rest, acc, total, fuel)
    decreases |rest|, 1
  {
    hide Walk, HandshakeLength;
    if |acc| <= MAX_PEEK {
      if total.Some? {
        WalkStable(s, rest, acc, total, fuel, more);
      } else {
        match HandshakeLength(acc)
        case Known(t) => WalkStable(s, rest, acc, Some(t), fuel, more);
        case Short => WalkStable(s, rest, acc, None, fuel, more);
        case NotClientHello =>
      }
    }
  }

  lemma TlsVerdictStable(stream: seq<byte>, more: seq<byte>)
    requires |stream + more| <= MAX_PEEK
    requires TlsVerdict(stream) != NeedMore
    ensures TlsVerdict(stream + more) == TlsVerdict(stream)
  {
    WalkStable(|stream|, stream, [], None, FUEL, more);
  }

  lemma BodyIsConclusive(body: seq<byte>)
    ensures BodyVerdict(body) != NeedMore
  {
    if Extensions(body).Some? {
      ExtensionsConclusive(Extensions(body).value, FUEL);
    }
  }

  lemma {:induction false} ExtensionsConclusive(rest: seq<byte>, fuel: nat)
    ensures FindServerName(rest, fuel) != NeedMore
    decreases |rest|
  {
    if |rest| >= 4 && fuel > 0 && |rest| >= 4 + U16(rest[2], rest[3]) {
      var n := U16(rest[2], rest[3]);
      ExtensionsConclusive(rest[4 + n..], fuel - 1);
      var data := rest[4..4 + n];
      if |data| >= 2 && |data| >= 2 + U16(data[0], data[1]) {
        NamesConclusive(data[2..2 + U16(data[0], data[1])], FUEL);
      }
    }
  }

  lemma {:induction false} NamesConclusive(rest: seq<byte>, fuel: nat)
    ensures FindHostName(rest, fuel) != NeedMore
    decreases |rest|
  {
    if |rest| >= 3 && fuel > 0 && |rest| >= 3 + U16(rest[1], rest[2]) {
      NamesConclusive(rest[3 + U16(rest[1], rest[2])..], fuel - 1);
    }
  }

  /** At the peek limit the answer is never "more". */
  lemma {:induction false} WalkAtLimit(s: nat, rest: seq<byte>, acc: seq<byte>, total: Option<nat>, fuel: nat)
    requires s >= MAX_PEEK
    ensures Walk(s, rest, acc, total, fuel) != NeedMore
    decreases |rest|
  {
    hide BodyVerdict, HandshakeLength;
    if total.Some? && |acc| >= total.value >= 4 {
      BodyIsConclusive(acc[4..total.value]);
    } else if |rest| >= 5 && |rest| >= 5 + U16(rest[3], rest[4]) && fuel > 0 {
      var n := U16(rest[3], rest[4]);
      var grown := acc + rest[5..5 + n];
      WalkAtLimit(s, rest[5 + n..], grown, total, fuel - 1);
      if HandshakeLength(grown).Known? {
        WalkAtLimit(s, rest[5 + n..], grown, Some(HandshakeLength(grown).total), fuel - 1);
      }
    }
  }

  // ---- serialised messages ------------------------------------------------------------------

  function Be16(n: nat): (r: seq<byte>)
    requires n < 0x1_0000
    ensures |r| == 2 && U16(r[0], r[1]) == n
  {
    [n / 256, n % 256]
  }

  function Be24(n: nat): (r: seq<byte>)
    requires n < 0x100_0000
    ensures |r| == 3 && U24(r[0], r[1], r[2]) == n
  {
    [n / 65536, n / 256 % 256, n % 256]
  }

  /** The numbers of the server_name extension and of its host_name entries
      (sections 3 and 6 of RFC 6066). */
  const EXT_SERVER_NAME: nat := 0
  const NAME_HOST: nat := 0

  /** A server name list entry, or an extension: a type and its bytes. */
  datatype Item = Item(kind: nat, data: seq<byte>)

  predicate NameOk(i: Item) { i.kind < 256 && |i.data| < 0x1_0000 }
  predicate ExtOk(i: Item) { i.kind < 0x1_0000 && |i.data| < 0x1_0000 }

  function NameBytes(i: Item): seq<byte>
    requires NameOk(i)
  {
    [i.kind] + Be16(|i.data|) + i.data
  }

  function ExtBytes(i: Item): seq<byte>
    requires ExtOk(i)
  {
    Be16(i.kind) + Be16(|i.data|) + i.data
  }

  function NamesBytes(items: seq<Item>): seq<byte>
    requires forall i :: i in items ==> NameOk(i)
  {
    if items == [] then [] else NameBytes(items[0]) + NamesBytes(items[1..])
  }

  function ExtsBytes(items: seq<Item>): seq<byte>
    requires forall i :: i in items ==> ExtOk(i)
  {
    if items == [] then [] else ExtBytes(items[0]) + ExtsBytes(items[1..])
  }

  /** Everything of a ClientHello body before the extensions. */
  datatype Head = Head(
    version: seq<byte>, random: seq<byte>, session: seq<byte>, suites: seq<byte>, compression: seq<byte>)

  predicate HeadOk(h: Head) {
    && |h.version| == 2 && |h.random| == 32 && |h.session| <= 32
    && 2 <= |h.suites| < 0x1_0000 && |h.suites| % 2 == 0
    && 1 <= |h.compression| < 256
  }

  function SuitesBytes(h: Head): seq<byte>
    requires HeadOk(h)
  {
    h.version + h.random + [|h.session|] + h.session + (Be16(|h.suites|) + h.suites)
  }

  function CompressionBytes(h: Head): seq<byte>
    requires HeadOk(h)
  {
    [|h.compression|] + h.compression
  }

  function Block(bytes: seq<byte>): seq<byte>
    requires |bytes| < 0x1_0000
  {
    Be16(|bytes|) + bytes
  }

  function HeadBytes(h: Head): seq<byte>
    requires HeadOk(h)
  {
    SuitesBytes(h) + CompressionBytes(h)
  }

  // ---- reading them back -----------------------------------------------------------------------

  lemma ReadsName(i: Item, rest: seq<byte>, fuel: nat)
    requires NameOk(i) && fuel > 0
    ensures FindHostName(NameBytes(i) + rest, fuel)
         == if i.kind == NAME_HOST then Verdict(i.data) else FindHostName(rest, fuel - 1)
  {
    hide Verdict;
    var s, n := NameBytes(i) + rest, |i.data|;
    assert s[1] == Be16(n)[0] && s[2] == Be16(n)[1];
    assert s[3..3 + n] == i.data && s[3 + n..] == rest;
  }

  lemma ReadsExt(i: Item, rest: seq<byte>, fuel: nat)
    requires ExtOk(i) && fuel > 0
    ensures FindServerName(ExtBytes(i) + rest, fuel)
         == if i.kind == EXT_SERVER_NAME then NameList(i.data) else FindServerName(rest, fuel - 1)
  {
    hide NameList;
    var s, n := ExtBytes(i) + rest, |i.data|;
    assert s[0] == Be16(i.kind)[0] && s[1] == Be16(i.kind)[1];
    assert s[2] == Be16(n)[0] && s[3] == Be16(n)[1];
    assert s[4..4 + n] == i.data && s[4 + n..] == rest;
  }

  /** Entries of other types are skipped, one unit of fuel each. */
  lemma {:induction false} SkipsNames(items: seq<Item>, rest: seq<byte>, fuel: nat)
    requires forall i :: i in items ==> NameOk(i) && i.kind != NAME_HOST
    ensures FindHostName(NamesBytes(items) + rest, fuel)
         == if |items| <= fuel then FindHostName(rest, fuel - |items|) else NoHostname
    decreases |items|
  {
    hide FindHostName, NameBytes;
    if items == [] {
      assert [] + rest == rest;
    } else {
      Assoc(NameBytes(items[0]), NamesBytes(items[1..]), rest);
      if fuel == 0 {
        NoFuel(NamesBytes(items) + rest);
      } else {
        ReadsName(items[0], NamesBytes(items[1..]) + rest, fuel);
        SkipsNames(items[1..], rest, fuel - 1);
      }
    }
  }

  lemma NoFuel(s: seq<byte>)
    ensures FindHostName(s, 0) == NoHostname && FindServerName(s, 0) == NoHostname
  {
  }

  lemma {:induction false} SkipsExts(items: seq<Item>, rest: seq<byte>, fuel: nat)
    requires forall i :: i in items ==> ExtOk(i) && i.kind != EXT_SERVER_NAME
    ensures FindServerName(ExtsBytes(items) + rest, fuel)
         == if |items| <= fuel then FindServerName(rest, fuel - |items|) else NoHostname
    decreases |items|
  {
    hide FindServerName, ExtBytes;
    if items == [] {
      assert [] + rest == rest;
    } else {
      Assoc(ExtBytes(items[0]), ExtsBytes(items[1..]), rest);
      if fuel == 0 {
        NoFuel(ExtsBytes(items) + rest);
      } else {
        ReadsExt(items[0], ExtsBytes(items[1..]) + rest, fuel);
        SkipsExts(items[1..], rest, fuel - 1);
      }
    }
  }

  lemma ReadsSuites(h: Head, rest: seq<byte>)
    requires HeadOk(h)
    ensures AfterSuites(SuitesBytes(h) + rest) == Some(rest)
  {
    var b, n := SuitesBytes(h) + rest, |h.suites|;
    var tail := Be16(n) + h.suites + rest;
    assert b == h.version + h.random + [|h.session|] + h.session + tail;
    assert b[34] == |h.session|;
    assert b[35 + |h.session|..] == tail;
    assert tail[2 + n..] == rest;
  }

  lemma ReadsHead(h: Head, rest: seq<byte>)
    requires HeadOk(h)
    ensures Extensions(HeadBytes(h) + rest) == ExtensionBlock(rest)
  {
    hide AfterSuites;
    var c := CompressionBytes(h) + rest;
    Assoc(SuitesBytes(h), CompressionBytes(h), rest);
    ReadsSuites(h, c);
    assert c[1 + |h.compression|..] == rest;
  }

  lemma BlockBytes(bytes: seq<byte>, rest: seq<byte>)
    requires |bytes| < 0x1_0000
    ensures var s := Block(bytes) + rest;
            |s| >= 2 + |bytes| && U16(s[0], s[1]) == |bytes| && s[2..2 + |bytes|] == bytes
  {
    var s := Block(bytes) + rest;
    assert s[0] == Be16(|bytes|)[0] && s[1] == Be16(|bytes|)[1];
  }

  lemma ReadsBlock(bytes: seq<byte>, rest: seq<byte>)
    requires |bytes| < 0x1_0000
    ensures ExtensionBlock(Block(bytes) + rest) == Some(bytes)
    ensures NameList(Block(bytes) + rest) == FindHostName(bytes, FUEL)
  {
    hide Block, U16, FindHostName;
    BlockBytes(bytes, rest);
  }

  // ---- a whole ClientHello ---------------------------------------------------------------------

  datatype Extension = ServerName(names: seq<Item>) | Other(item: Item)

  datatype Hello = Hello(head: Head, extensions: Option<seq<Extension>>)

  predicate ExtensionOk(e: Extension) {
    match e
    case ServerName(names) => (forall n :: n in names ==> NameOk(n)) && |NamesBytes(names)| < 0x1_0000 - 2
    case Other(item) => ExtOk(item) && item.kind != EXT_SERVER_NAME
  }

  function AsItem(e: Extension): (i: Item)
    requires ExtensionOk(e)
    ensures ExtOk(i) && (i.kind == EXT_SERVER_NAME <==> e.ServerName?)
  {
    match e
    case ServerName(names) => Item(EXT_SERVER_NAME, Block(NamesBytes(names)))
    case Other(item) => item
  }

  function AsItems(es: seq<Extension>): (items: seq<Item>)
    requires forall e :: e in es ==> ExtensionOk(e)
    ensures |items| == |es|
    ensures forall k :: 0 <= k < |es| ==> items[k] == AsItem(es[k])
    ensures forall i :: i in items ==> ExtOk(i)
  {
    if es == [] then [] else [AsItem(es[0])] + AsItems(es[1..])
  }

  predicate HelloOk(h: Hello) {
    && HeadOk(h.head)
    && (h.extensions.Some? ==>
          (forall e :: e in h.extensions.value ==> ExtensionOk(e))
          && |ExtsBytes(AsItems(h.extensions.value))| < 0x1_0000)
  }

  function HelloBytes(h: Hello): seq<byte>
    requires HelloOk(h)
  {
    HeadBytes(h.head)
    + match h.extensions
      case None => []
      case Some(es) => Block(ExtsBytes(AsItems(es)))
  }

  function FirstServerName(es: seq<Extension>): (k: nat)
    ensures k <= |es|
    ensures forall i :: 0 <= i < k ==> !es[i].ServerName?
    ensures k < |es| ==> es[k].ServerName?
  {
    if es == [] || es[0].ServerName? then 0 else 1 + FirstServerName(es[1..])
  }

  function FirstHostName(names: seq<Item>): (k: nat)
    ensures k <= |names|
    ensures forall i :: 0 <= i < k ==> names[i].kind != NAME_HOST
    ensures k < |names| ==> names[k].kind == NAME_HOST
  {
    if names == [] || names[0].kind == NAME_HOST then 0 else 1 + FirstHostName(names[1..])
  }

  function NamesVerdict(names: seq<Item>): Peek {
    var k := FirstHostName(names);
    if k < |names| && k < 1024 then Verdict(names[k].data) else NoHostname
  }

  /** The normalised first host_name of the first server_name extension, both
      within the iteration budget. */
  function HelloVerdict(h: Hello): Peek {
    if h.extensions.None? then NoHostname
    else ExtsVerdict(h.extensions.value, 1024)
  }

  lemma {:induction false} NamesAppend(a: seq<Item>, b: seq<Item>)
    requires (forall i :: i in a ==> NameOk(i)) && (forall i :: i in b ==> NameOk(i))
    ensures NamesBytes(a + b) == NamesBytes(a) + NamesBytes(b)
    decreases |a|
  {
    hide NameBytes;
    if a == [] {
      assert a + b == b;
    } else {
      NamesAppend(a[1..], b);
      assert (a + b)[0] == a[0] && (a + b)[1..] == a[1..] + b;
      Assoc(NameBytes(a[0]), NamesBytes(a[1..]), NamesBytes(b));
    }
  }

  lemma ReadsNames(names: seq<Item>)
    requires forall n :: n in names ==> NameOk(n)
    ensures FindHostName(NamesBytes(names), FUEL) == NamesVerdict(names)
  {
    hide FindHostName, Verdict, NameBytes;
    var k := FirstHostName(names);
    var before, rest := names[..k], names[k..];
    assert names == before + rest;
    NamesAppend(before, rest);
    SkipsNames(before, NamesBytes(rest), FUEL);
    if k < |names| && k < FUEL {
      ReadsName(names[k], NamesBytes(rest[1..]), FUEL - k);
    } else if k == FUEL {
      NoFuel(NamesBytes(rest));
    } else if k < FUEL {
      NoMore(FUEL - k);
    }
  }

  lemma ReadsServerName(names: seq<Item>, rest: seq<byte>, fuel: nat)
    requires ExtensionOk(ServerName(names)) && fuel > 0
    ensures FindServerName(ExtBytes(AsItem(ServerName(names))) + rest, fuel) == NamesVerdict(names)
  {
    hide FindServerName, FindHostName, ExtBytes, NamesVerdict, NameList;
    var list := NamesBytes(names);
    assert Block(list) + [] == Block(list);
    ReadsExt(AsItem(ServerName(names)), rest, fuel);
    ReadsBlock(list, []);
    ReadsNames(names);
  }

  function ExtsVerdict(es: seq<Extension>, fuel: nat): Peek {
    var k := FirstServerName(es);
    if k < |es| && k < fuel then NamesVerdict(es[k].names) else NoHostname
  }

  lemma {:induction false} ExtsBytesCons(es: seq<Extension>)
    requires es != [] && forall e :: e in es ==> ExtensionOk(e)
    ensures forall e :: e in es[1..] ==> ExtensionOk(e)
    ensures ExtensionOk(es[0])
    ensures ExtsBytes(AsItems(es)) == ExtBytes(AsItem(es[0])) + ExtsBytes(AsItems(es[1..]))
  {
    hide ExtensionOk, AsItem, ExtBytes, ExtOk;
    assert AsItems(es)[1..] == AsItems(es[1..]);
  }

  lemma {:induction false} ExtsVerdictCons(es: seq<Extension>, fuel: nat)
    requires es != [] && fuel > 0
    ensures ExtsVerdict(es, fuel)
         == if es[0].ServerName? then NamesVerdict(es[0].names) else ExtsVerdict(es[1..], fuel - 1)
  {
    hide NamesVerdict;
  }

  lemma {:induction false} ReadsLast(es: seq<Extension>, fuel: nat)
    requires forall e :: e in es ==> ExtensionOk(e)
    requires es == [] || fuel == 0
    ensures FindServerName(ExtsBytes(AsItems(es)), fuel) == ExtsVerdict(es, fuel)
  {
    hide FindServerName, ExtensionOk, ExtBytes, AsItem, ExtOk, NamesVerdict;
    if es == [] {
      NoMore(fuel);
    } else {
      hide ExtsBytes, AsItems;
      NoFuel(ExtsBytes(AsItems(es)));
    }
  }

  lemma {:induction false} ReadsFirst(e: Extension, rest: seq<byte>, fuel: nat)
    requires ExtensionOk(e) && fuel > 0
    ensures FindServerName(ExtBytes(AsItem(e)) + rest, fuel)
         == if e.ServerName? then NamesVerdict(e.names) else FindServerName(rest, fuel - 1)
  {
    hide FindServerName, ExtBytes, ExtensionOk, NamesVerdict, AsItem, ExtOk, NameList;
    if e.ServerName? {
      assert e == ServerName(e.names);
      ReadsServerName(e.names, rest, fuel);
    } else {
      ReadsExt(AsItem(e), rest, fuel);
    }
  }

  lemma {:induction false} ReadsExts(es: seq<Extension>, fuel: nat)
    requires forall e :: e in es ==> ExtensionOk(e)
    ensures FindServerName(ExtsBytes(AsItems(es)), fuel) == ExtsVerdict(es, fuel)
    decreases |es|
  {
    hide FindServerName, ExtsBytes, AsItems, ExtBytes, ExtensionOk, NamesVerdict, AsItem, ExtsVerdict, ExtOk;
    if es == [] || fuel == 0 {
      ReadsLast(es, fuel);
    } else {
      ExtsBytesCons(es);
      ExtsVerdictCons(es, fuel);
      ReadsFirst(es[0], ExtsBytes(AsItems(es[1..])), fuel);
      ReadsExts(es[1..], fuel - 1);
    }
  }

  /** Serialise, then parse: the body of every well-formed ClientHello gives the
      host name its structure gives. */
  lemma ReadsHello(h: Hello)
    requires HelloOk(h)
    ensures BodyVerdict(HelloBytes(h)) == HelloVerdict(h)
  {
    hide Extensions, FindServerName, NamesVerdict, Block, HeadBytes;
    match h.extensions
    case None =>
      ReadsHead(h.head, []);
    case Some(es) =>
      var block := ExtsBytes(AsItems(es));
      ReadsHead(h.head, Block(block));
      assert Block(block) + [] == Block(block);
      ReadsBlock(block, []);
      ReadsExts(es, FUEL);
  }

  // ---- record fragmentation ---------------------------------------------------------------------

  datatype Rec = Rec(minor: byte, payload: seq<byte>)

  predicate RecOk(r: Rec) { 1 <= |r.payload| <= 16384 }

  function RecBytes(r: Rec): seq<byte>
    requires RecOk(r)
  {
    [22, 3, r.minor] + Be16(|r.payload|) + r.payload
  }

  function RecsBytes(recs: seq<Rec>): seq<byte>
    requires forall r :: r in recs ==> RecOk(r)
  {
    if recs == [] then [] else RecBytes(recs[0]) + RecsBytes(recs[1..])
  }

  function Payloads(recs: seq<Rec>): seq<byte> {
    if recs == [] then [] else recs[0].payload + Payloads(recs[1..])
  }

  function Handshake(body: seq<byte>): seq<byte>
    requires |body| + 4 <= MAX_PEEK
  {
    [1] + Be24(|body|) + body
  }

  lemma ReadsRecord(s: nat, r: Rec, rest: seq<byte>, acc: seq<byte>, total: Option<nat>, fuel: nat)
    requires RecOk(r) && (total.Some? ==> |acc| < total.value)
    ensures Walk(s, RecBytes(r) + rest, acc, total, fuel)
         == if fuel == 0 then NoHostname else Absorbed(s, rest, acc + r.payload, total, fuel - 1)
  {
    hide Absorbed;
    var b, n := RecBytes(r) + rest, |r.payload|;
    assert b[3] == Be16(n)[0] && b[4] == Be16(n)[1];
    assert b[5..5 + n] == r.payload && b[5 + n..] == rest;
  }

  /** What is known of the length while a handshake message is being reassembled. */
  function TotalOf(acc: seq<byte>): Option<nat> {
    match HandshakeLength(acc)
    case Known(t) => Some(t)
    case Short => None
    case NotClientHello => None
  }

  lemma PrefixLength(acc: seq<byte>, tail: seq<byte>, body: seq<byte>, extra: seq<byte>)
    requires |body| + 4 <= MAX_PEEK
    requires acc + tail == Handshake(body) + extra
    ensures HandshakeLength(acc) == if |acc| < 4 then Short else Known(|body| + 4)
    ensures |acc| >= |body| + 4 ==> acc[4..|body| + 4] == body
  {
    var m := Handshake(body) + extra;
    assert forall i :: 0 <= i < |acc| ==> acc[i] == m[i];
    assert m[0] == 1 && m[1] == Be24(|body|)[0] && m[2] == Be24(|body|)[1] && m[3] == Be24(|body|)[2];
    assert m[4..|body| + 4] == body;
  }

  lemma AbsorbedIsWalk(s: nat, rest: seq<byte>, acc: seq<byte>, total: Option<nat>, fuel: nat)
    requires |acc| <= MAX_PEEK && !HandshakeLength(acc).NotClientHello?
    requires total.Some? ==> total == TotalOf(acc)
    ensures Absorbed(s, rest, acc, total, fuel) == Walk(s, rest, acc, TotalOf(acc), fuel)
  {
    hide Walk, HandshakeLength;
  }

  /** Reassembling any cut into at most `fuel` records ends at the body. */
  lemma {:induction false} FragmentsWalk(
      s: nat, recs: seq<Rec>, rest: seq<byte>, acc: seq<byte>, fuel: nat, body: seq<byte>, extra: seq<byte>)
    requires forall r :: r in recs ==> RecOk(r)
    requires |body| + 4 <= MAX_PEEK && |Handshake(body) + extra| <= MAX_PEEK
    requires acc + Payloads(recs) == Handshake(body) + extra
    requires |recs| <= fuel
    ensures Walk(s, RecsBytes(recs) + rest, acc, TotalOf(acc), fuel) == BodyVerdict(body)
    decreases |recs|
  {
    hide Walk, BodyVerdict, HandshakeLength, RecBytes, Handshake, Absorbed;
    PrefixLength(acc, Payloads(recs), body, extra);
    var size := |body| + 4;
    assert |Handshake(body)| == size by { HandshakeSize(body); }
    if |acc| >= size {
      WalkEnds(s, RecsBytes(recs) + rest, acc, Some(size), fuel);
    } else {
      assert |acc + Payloads(recs)| >= size;
      var r, later := recs[0], recs[1..];
      Assoc(RecBytes(r), RecsBytes(later), rest);
      ReadsRecord(s, r, RecsBytes(later) + rest, acc, TotalOf(acc), fuel);
      var grown := acc + r.payload;
      Assoc(acc, r.payload, Payloads(later));
      PrefixLength(grown, Payloads(later), body, extra);
      assert |grown| <= |grown + Payloads(later)|;
      AbsorbedIsWalk(s, RecsBytes(later) + rest, grown, TotalOf(acc), fuel - 1);
      FragmentsWalk(s, later, rest, grown, fuel - 1, body, extra);
    }
  }

  lemma HandshakeSize(body: seq<byte>)
    requires |body| + 4 <= MAX_PEEK
    ensures |Handshake(body)| == |body| + 4
  {
  }

  /** A message that needs more records than the budget allows is given up. */
  lemma {:induction false} FragmentsStarve(
      s: nat, recs: seq<Rec>, rest: seq<byte>, acc: seq<byte>, fuel: nat, body: seq<byte>)
    requires forall r :: r in recs ==> RecOk(r)
    requires |body| + 4 <= MAX_PEEK
    requires acc + Payloads(recs) == Handshake(body)
    requires |recs| > fuel
    ensures Walk(s, RecsBytes(recs) + rest, acc, TotalOf(acc), fuel) == NoHostname
    decreases |recs|
  {
    hide Walk, BodyVerdict, HandshakeLength, RecBytes, Handshake, Absorbed;
    var r, later := recs[0], recs[1..];
    assert Handshake(body) + [] == Handshake(body);
    PrefixLength(acc, Payloads(recs), body, []);
    HandshakeSize(body);
    assert recs[0] in recs;
    assert |Payloads(recs)| >= |r.payload| > 0;
    Assoc(RecBytes(r), RecsBytes(later), rest);
    ReadsRecord(s, r, RecsBytes(later) + rest, acc, TotalOf(acc), fuel);
    if fuel > 0 {
      var grown := acc + r.payload;
      Assoc(acc, r.payload, Payloads(later));
      PrefixLength(grown, Payloads(later), body, []);
      AbsorbedIsWalk(s, RecsBytes(later) + rest, grown, TotalOf(acc), fuel - 1);
      FragmentsStarve(s, later, rest, grown, fuel - 1, body);
    }
  }

  /** However a handshake message is cut into records, and whatever follows it,
      the verdict is that of its body; only a cut into more than 1024 records
      loses it. */
  lemma FragmentationInvariance(recs: seq<Rec>, rest: seq<byte>, body: seq<byte>)
    requires forall r :: r in recs ==> RecOk(r)
    requires |body| + 4 <= MAX_PEEK && Payloads(recs) == Handshake(body)
    ensures TlsVerdict(RecsBytes(recs) + rest)
         == if |recs| <= 1024 then BodyVerdict(body) else NoHostname
  {
    hide Walk, BodyVerdict, Handshake, RecsBytes, Payloads;
    var s := |RecsBytes(recs) + rest|;
    assert [] + Payloads(recs) == Handshake(body);
    assert TotalOf([]) == None;
    if |recs| <= FUEL {
      assert Handshake(body) + [] == Handshake(body);
      HandshakeSize(body);
      FragmentsWalk(s, recs, rest, [], FUEL, body, []);
    } else {
      FragmentsStarve(s, recs, rest, [], FUEL, body);
    }
  }

  /** Serialise, fragment, parse. */
  lemma HelloRoundTrip(h: Hello, recs: seq<Rec>, rest: seq<byte>)
    requires HelloOk(h) && |HelloBytes(h)| + 4 <= MAX_PEEK
    requires forall r :: r in recs ==> RecOk(r)
    requires Payloads(recs) == Handshake(HelloBytes(h))
    ensures TlsVerdict(RecsBytes(recs) + rest) == if |recs| <= 1024 then HelloVerdict(h) else NoHostname
  {
    hide BodyVerdict, HelloVerdict, HelloBytes, TlsVerdict, RecsBytes, Payloads;
    FragmentationInvariance(recs, rest, HelloBytes(h));
    ReadsHello(h);
  }
}
