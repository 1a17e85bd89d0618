/** Per-host accounting (`stats.rs`): a 512-slot table keyed by (host, action),
    named pairs growing from the front and the fold row from the back. */
module Stats {
  import opened Basics
  import opened Hostnames
  import opened Rules

  const SERVICE_MAX: nat := 512
  const OVERFLOW_SLOTS: nat := 18
  const NAMED_MAX: nat := 511

  type Key = seq<byte>

  /** `other` */
  const OTHER_HOST: Key := [111, 116, 104, 101, 114]
  /** `-` */
  const UNKNOWN_HOST: Key := [45]

  /** At most 253 bytes fit in a key. */
  function Literal(text: seq<byte>): Key { text[..Min(|text|, MAX_HOSTNAME)] }

  function KeyOf(host: Option<Hostname>): Key {
    Literal(if host.Some? then host.value.bytes else UNKNOWN_HOST)
  }

  function Mixed(h: bv64, bytes: seq<byte>): bv64
    decreases |bytes|
  {
    if bytes == [] then h else Mixed((h ^ (bytes[0] as bv64)) * 0x0000_0100_0000_01b3, bytes[1..])
  }

  /** FNV-1a over the host followed by the action token. */
  function Hash(host: Key, token: Label): bv64 { Mixed(0xcbf2_9ce4_8422_2325, host + token) }

  datatype Entry = Entry(hash: bv64, host: Key, token: Label, slot: nat)

  datatype Table = Table(entries: seq<Entry>, named: nat, overflow: nat)

  datatype Slot = Slot(bytesIn: nat, bytesOut: nat, flows: nat)

  datatype Ledger = Ledger(table: Table, slots: seq<Slot>, active: nat, total: nat)

  // ---- the table as a value ------------------------------------------------------------

  /** Position of the entry for a pair; the hash only saves comparisons. */
  function Lookup(entries: seq<Entry>, host: Key, token: Label): (r: Option<nat>)
    ensures r.Some? ==> r.value < |entries| && entries[r.value].host == host && entries[r.value].token == token
    ensures r.None? ==> forall e :: e in entries ==> !(e.host == host && e.token == token)
  {
    if entries == [] then None
    else if entries[0].host == host && entries[0].token == token then Some(0)
    else
      match Lookup(entries[1..], host, token)
      case Some(k) => Some(k + 1)
      case None => None
  }

  datatype Placed = Placed(table: Table, slot: Option<nat>)

  function LookupOrInsert(t: Table, host: Key, token: Label, overflow: bool): Placed {
    var found := Lookup(t.entries, host, token);
    if found.Some? then Placed(t, Some(t.entries[found.value].slot))
    else if overflow then
      if t.overflow >= OVERFLOW_SLOTS || t.named + t.overflow >= SERVICE_MAX || t.overflow > SERVICE_MAX - 1
      then Placed(t, None)
      else
        var slot := SERVICE_MAX - 1 - t.overflow;
        Placed(Table(t.entries + [Entry(Hash(host, token), host, token, slot)], t.named, t.overflow + 1), Some(slot))
    else
      if t.named >= NAMED_MAX || t.named + t.overflow >= SERVICE_MAX then Placed(t, None)
      else Placed(Table(t.entries + [Entry(Hash(host, token), host, token, t.named)], t.named + 1, t.overflow),
        Some(t.named))
  }

  datatype Assigned = Assigned(table: Table, slot: nat)

  function SlotFor(t: Table, host: Key, token: Label): Assigned {
    var first := LookupOrInsert(t, host, token, false);
    if first.slot.Some? then Assigned(first.table, first.slot.value)
    else
      var folded := LookupOrInsert(first.table, Literal(OTHER_HOST), token, true);
      if folded.slot.Some? then Assigned(folded.table, folded.slot.value)
      else Assigned(folded.table, SERVICE_MAX - 1)
  }

  function Started(l: Ledger, slot: nat): Ledger {
    l.(slots := if slot < |l.slots| then l.slots[slot := l.slots[slot].(flows := l.slots[slot].flows + 1)] else l.slots,
       active := l.active + 1, total := l.total + 1)
  }

  function Ended(l: Ledger): Ledger { l.(active := Max(l.active - 1, 0)) }

  function AddedIn(l: Ledger, slot: nat, n: nat): Ledger {
    if slot < |l.slots| then l.(slots := l.slots[slot := l.slots[slot].(bytesIn := l.slots[slot].bytesIn + n)]) else l
  }

  function AddedOut(l: Ledger, slot: nat, n: nat): Ledger {
    if slot < |l.slots| then l.(slots := l.slots[slot := l.slots[slot].(bytesOut := l.slots[slot].bytesOut + n)]) else l
  }

  /** One SERVICE line. */
  datatype Row = Row(host: Key, token: Label, counters: Slot)

  function Rows(entries: seq<Entry>, slots: seq<Slot>): seq<Row> {
    if entries == [] then []
    else
      var before, e := Rows(entries[..|entries| - 1], slots), entries[|entries| - 1];
      if e.slot >= |slots| || slots[e.slot] == Slot(0, 0, 0) then before
      else before + [Row(e.host, e.token, slots[e.slot])]
  }

  const EMPTY_TABLE := Table([], 0, 0)

  function Fresh(): Ledger { Ledger(EMPTY_TABLE, seq(SERVICE_MAX, _ => Slot(0, 0, 0)), 0, 0) }

  // ---- the object --------------------------------------------------------------------------

  class StatsTable {
    var entries: seq<Entry>
    var named: nat
    var overflow: nat
    const slots: array<Slot>
    var active: nat
    var total: nat

    function State(): Ledger
      reads this, slots
    {
      Ledger(Table(entries, named, overflow), slots[..], active, total)
    }

    predicate Valid()
      reads this, slots
    {
      && slots.Length == SERVICE_MAX
      && forall i :: 0 <= i < |entries| ==> entries[i].hash == Hash(entries[i].host, entries[i].token)
    }

    constructor ()
      ensures Valid() && fresh(slots) && State() == Fresh()
    {
      entries, named, overflow, active, total := [], 0, 0, 0, 0;
      slots := new Slot[SERVICE_MAX](_ => Slot(0, 0, 0));
      new;
      assert slots[..] == Fresh().slots;
    }

    method FindEntry(host: Key, token: Label, hash: bv64) returns (found: Option<nat>)
      requires Valid() && hash == Hash(host, token)
      ensures found == match Lookup(entries, host, token) case Some(k) => Some(entries[k].slot) case None => None
    {
      hide Hash;
      var k := 0;
      assert entries[0..] == entries;
      while k < |entries|
        invariant 0 <= k <= |entries|
        invariant Lookup(entries, host, token)
               == match Lookup(entries[k..], host, token) case Some(j) => Some(j + k) case None => None
      {
        var entry := entries[k];
        assert entries[k..][0] == entry && entries[k..][1..] == entries[k + 1..];
        if entry.hash == hash && entry.host == host && entry.token == token {
          return Some(entry.slot);
        }
        k := k + 1;
      }
      return None;
    }

    method InsertOrFind(host: Key, token: Label, asOverflow: bool) returns (slot: Option<nat>)
      requires Valid()
      modifies this`entries, this`named, this`overflow
      ensures Valid()
      ensures var p := LookupOrInsert(old(State().table), host, token, asOverflow);
              slot == p.slot && State().table == p.table
    {
      var hash := Hash(host, token);
      hide Hash, Lookup;
      var found := FindEntry(host, token, hash);
      if found.Some? {
        return found;
      }
      var next: nat;
      if asOverflow {
        if overflow >= OVERFLOW_SLOTS || named + overflow >= SERVICE_MAX {
          return None;
        }
        next := SERVICE_MAX - 1 - overflow;
        overflow := overflow + 1;
      } else {
        if named >= NAMED_MAX || named + overflow >= SERVICE_MAX {
          return None;
        }
        next := named;
        named := named + 1;
      }
      entries := entries + [Entry(hash, host, token, next)];
      slot := Some(next);
    }

    method AssignSlot(host: Option<Hostname>, token: Label) returns (slot: nat)
      requires Valid()
      modifies this`entries, this`named, this`overflow
      ensures Valid()
      ensures Assigned(State().table, slot) == SlotFor(old(State().table), KeyOf(host), token)
    {
      hide LookupOrInsert, Literal;
      var found := InsertOrFind(KeyOf(host), token, false);
      if found.Some? {
        return found.value;
      }
      var folded := InsertOrFind(Literal(OTHER_HOST), token, true);
      if folded.Some? {
        return folded.value;
      }
      return SERVICE_MAX - 1;
    }

    method FlowStarted(slot: nat)
      requires Valid()
      modifies this`active, this`total, slots
      ensures Valid() && State() == Started(old(State()), slot)
    {
      if slot < slots.Length {
        slots[slot] := slots[slot].(flows := slots[slot].flows + 1);
      }
      active := active + 1;
      total := total + 1;
    }

    method FlowEnded()
      requires Valid()
      modifies this`active
      ensures Valid() && State() == Ended(old(State()))
    {
      active := Max(active - 1, 0);
    }

    method AddIn(slot: nat, bytes: nat)
      requires Valid()
      modifies slots
      ensures Valid() && State() == AddedIn(old(State()), slot, bytes)
    {
      if slot < slots.Length {
        slots[slot] := slots[slot].(bytesIn := slots[slot].bytesIn + bytes);
      }
    }

    method AddOut(slot: nat, bytes: nat)
      requires Valid()
      modifies slots
      ensures Valid() && State() == AddedOut(old(State()), slot, bytes)
    {
      if slot < slots.Length {
        slots[slot] := slots[slot].(bytesOut := slots[slot].bytesOut + bytes);
      }
    }

    method Render() returns (rows: seq<Row>)
      requires Valid()
      ensures rows == Rows(entries, slots[..])
    {
      rows := [];
      for k := 0 to |entries|
        invariant rows == Rows(entries[..k], slots[..])
      {
        assert entries[..k + 1][..k] == entries[..k];
        var e := entries[k];
        if e.slot < slots.Length {
          var counters := slots[e.slot];
          if counters.flows != 0 || counters.bytesIn != 0 || counters.bytesOut != 0 {
            rows := rows + [Row(e.host, e.token, counters)];
          }
        }
      }
      assert entries[..|entries|] == entries;
    }
  }

  // ---- what every history keeps ----------------------------------------------------------------

  /** Keys are distinct, entry i owns slot i, and the one fold row that can ever
      exist comes last, in slot 511, after 511 named rows. */
  ghost predicate TableOk(t: Table) {
    && |t.entries| == t.named + t.overflow
    && t.named <= NAMED_MAX
    && (t.overflow > 0 ==> t.overflow == 1 && t.named == NAMED_MAX)
    && (forall i :: 0 <= i < |t.entries| ==> t.entries[i].slot == i)
    && (forall i, j :: 0 <= i < j < |t.entries| ==>
          !(t.entries[i].host == t.entries[j].host && t.entries[i].token == t.entries[j].token))
    && (t.overflow == 1 ==> t.entries[NAMED_MAX].host == Literal(OTHER_HOST))
  }

  ghost predicate Grows(t: Table, u: Table) { t.entries <= u.entries }

  /** The row a pair is accounted under. */
  ghost predicate Owns(t: Table, slot: nat, host: Key, token: Label) {
    slot < |t.entries| && t.entries[slot].host == host && t.entries[slot].token == token
  }

  lemma {:induction false} LookupFirst(entries: seq<Entry>, host: Key, token: Label, k: nat)
    requires k < |entries| && entries[k].host == host && entries[k].token == token
    requires forall i, j :: 0 <= i < j < |entries| ==>
      !(entries[i].host == entries[j].host && entries[i].token == entries[j].token)
    ensures Lookup(entries, host, token) == Some(k)
  {
    hide Lookup;
    assert entries[k] in entries;
  }

  lemma {:induction false} InsertKeeps(t: Table, host: Key, token: Label, overflow: bool)
    requires TableOk(t)
    requires overflow ==> t.named == NAMED_MAX && host == Literal(OTHER_HOST)
    ensures var p := LookupOrInsert(t, host, token, overflow);
      && TableOk(p.table) && Grows(t, p.table)
      && (p.slot.Some? ==> Owns(p.table, p.slot.value, host, token))
      && (p.slot.None? ==> p.table == t && t.named == NAMED_MAX && (overflow ==> t.overflow == 1))
  {
    hide Lookup, Hash, Literal;
    assert forall i :: 0 <= i < |t.entries| ==> t.entries[i] in t.entries;
  }

  /** A pair is given its own row; or, once 511 pairs have rows, the fold row of
      its action; or, when the one fold row there can be carries another action,
      that fold row all the same. */
  lemma {:induction false} SlotForKeeps(t: Table, host: Key, token: Label)
    requires TableOk(t)
    ensures TableOk(SlotFor(t, host, token).table) && Grows(t, SlotFor(t, host, token).table)
    ensures SlotFor(t, host, token).slot < |SlotFor(t, host, token).table.entries| <= SERVICE_MAX
    ensures var a := SlotFor(t, host, token);
      || Owns(a.table, a.slot, host, token)
      || (t.named == NAMED_MAX && Owns(a.table, a.slot, Literal(OTHER_HOST), token))
      || (t.named == NAMED_MAX && a.slot == SERVICE_MAX - 1 && a.table == t && t.overflow == 1
          && t.entries[a.slot].host == Literal(OTHER_HOST))
  {
    hide LookupOrInsert, Literal;
    InsertKeeps(t, host, token, false);
    var first := LookupOrInsert(t, host, token, false);
    if first.slot.None? {
      InsertKeeps(t, Literal(OTHER_HOST), token, true);
    }
  }

  lemma {:induction false} FoundAgain(u: Table, slot: nat, host: Key, token: Label, overflow: bool)
    requires TableOk(u) && Owns(u, slot, host, token)
    ensures LookupOrInsert(u, host, token, overflow) == Placed(u, Some(slot))
  {
    LookupFirst(u.entries, host, token, slot);
  }

  /** A full table has no room for a pair it does not hold. */
  lemma {:induction false} NoRoom(u: Table, host: Key, token: Label, overflow: bool)
    requires TableOk(u) && u.named == NAMED_MAX && (overflow ==> u.overflow == 1)
    requires Lookup(u.entries, host, token).None?
    ensures LookupOrInsert(u, host, token, overflow) == Placed(u, None)
  {
    hide Lookup, Hash;
  }

  lemma {:induction false} StillAbsent(t: Table, u: Table, host: Key, token: Label)
    requires TableOk(t) && TableOk(u) && Grows(t, u) && t.named == NAMED_MAX
    requires Lookup(t.entries, host, token).None?
    requires host != Literal(OTHER_HOST) || u == t
    ensures Lookup(u.entries, host, token).None? && u.named == NAMED_MAX
  {
    hide Lookup, Literal;
    assert forall i :: 0 <= i < |t.entries| ==> u.entries[i] == t.entries[i] && t.entries[i] in t.entries;
  }

  /** Asking again, at any later time, gives the same slot and changes nothing. */
  lemma {:induction false} SlotIsStable(t: Table, u: Table, host: Key, token: Label)
    requires TableOk(t) && TableOk(u) && Grows(SlotFor(t, host, token).table, u)
    ensures SlotFor(u, host, token) == Assigned(u, SlotFor(t, host, token).slot)
  {
    hide LookupOrInsert, Literal, Lookup;
    SlotForKeeps(t, host, token);
    InsertKeeps(t, host, token, false);
    var a, other := SlotFor(t, host, token), Literal(OTHER_HOST);
    var first := LookupOrInsert(t, host, token, false);
    assert Owns(a.table, a.slot, host, token) ==> Owns(u, a.slot, host, token);
    if Owns(a.table, a.slot, host, token) {
      FoundAgain(u, a.slot, host, token, false);
    } else {
      InsertKeeps(t, other, token, true);
      FirstAbsent(t, host, token);
      assert Owns(a.table, a.slot, other, token) ==> host != other && Owns(u, a.slot, other, token);
      if Owns(a.table, a.slot, other, token) {
        StillAbsent(t, u, host, token);
        NoRoom(u, host, token, false);
        FoundAgain(u, a.slot, other, token, true);
      } else {
        assert u.entries == t.entries && u == t by { FullTable(t, u); }
        NoRoom(u, host, token, false);
        SecondAbsent(t, token);
        NoRoom(u, other, token, true);
      }
    }
  }

  lemma {:induction false} FirstAbsent(t: Table, host: Key, token: Label)
    requires TableOk(t) && LookupOrInsert(t, host, token, false).slot.None?
    ensures Lookup(t.entries, host, token).None?
  {
    hide Lookup, Hash;
  }

  lemma {:induction false} SecondAbsent(t: Table, token: Label)
    requires TableOk(t) && LookupOrInsert(t, Literal(OTHER_HOST), token, true).slot.None?
    ensures Lookup(t.entries, Literal(OTHER_HOST), token).None?
  {
    hide Lookup, Hash, Literal;
  }

  lemma {:induction false} FullTable(t: Table, u: Table)
    requires TableOk(t) && TableOk(u) && Grows(t, u) && t.named == NAMED_MAX && t.overflow == 1
    ensures u == t
  {
    assert |t.entries| == SERVICE_MAX && |u.entries| <= SERVICE_MAX;
  }

  // ---- when the action shown is the flow's own ---------------------------------------------------

  /** What there is to see of the table before a pair is asked for. */
  predicate LabelKept(t: Table, host: Key, token: Label)
    requires |t.entries| == t.named + t.overflow && t.named <= NAMED_MAX
  {
    || Lookup(t.entries, host, token).Some?
    || t.named < NAMED_MAX
    || t.overflow == 0
    || Lookup(t.entries, Literal(OTHER_HOST), token).Some?
    || t.entries[NAMED_MAX].token == token
  }

  /** A flow is counted under its own action exactly if its pair has a row, or a
      row can still be made, or a row of `other` carries that action. */
  lemma {:induction false} LabelIff(t: Table, host: Key, token: Label)
    requires TableOk(t)
    ensures var a := SlotFor(t, host, token);
      a.slot < |a.table.entries| && (a.table.entries[a.slot].token == token <==> LabelKept(t, host, token))
  {
    hide LookupOrInsert, Literal, Lookup;
    SlotForKeeps(t, host, token);
    var a, other := SlotFor(t, host, token), Literal(OTHER_HOST);
    if Lookup(t.entries, host, token).Some? {
      FoundRow(t, host, token, false);
    } else if t.named == NAMED_MAX {
      NoRoom(t, host, token, false);
      if Lookup(t.entries, other, token).Some? {
        FoundRow(t, other, token, true);
      } else if t.overflow == 1 {
        NoRoom(t, other, token, true);
      }
    }
  }

  lemma {:induction false} FoundRow(t: Table, host: Key, token: Label, overflow: bool)
    requires TableOk(t) && Lookup(t.entries, host, token).Some?
    ensures var p := LookupOrInsert(t, host, token, overflow);
      p.table == t && p.slot.Some? && Owns(t, p.slot.value, host, token)
  {
    hide Lookup;
  }

  /** The `n`th of the names of two letters. */
  function HostNo(n: nat): Key
    requires n < 676
  {
    [97 + n / 26, 97 + n % 26]
  }

  lemma HostNoIsName(n: nat)
    requires n < 676
    ensures ParsedName(HostNo(n)) == Some(Hostname(HostNo(n))) && KeyOf(Some(Hostname(HostNo(n)))) == HostNo(n)
  {
    var s := HostNo(n);
    hide Split;
    SplitWhole(s, DOT);
    assert IsLabel(s);
    assert Lowered(s) == s;
  }

  /** The table after the first `n` hosts have come with one action. */
  function Filled(n: nat, token: Label): Table
    requires n <= 676
  {
    if n == 0 then EMPTY_TABLE else SlotFor(Filled(n - 1, token), HostNo(n - 1), token).table
  }

  ghost predicate HoldsFirst(t: Table, n: nat, token: Label)
    requires n < 676
  {
    && TableOk(t) && t.named == n && t.overflow == 0
    && forall i :: 0 <= i < n ==> t.entries[i].host == HostNo(i) && t.entries[i].token == token
  }

  lemma {:induction false} FilledIs(n: nat, token: Label)
    requires n <= NAMED_MAX
    ensures HoldsFirst(Filled(n, token), n, token)
  {
    hide Filled, HoldsFirst, SlotFor, Hash, HostNo;
    if n == 0 {
      FilledNone(n, token);
    } else {
      FilledIs(n - 1, token);
      NextRow(Filled(n - 1, token), n - 1, token);
      FilledNext(n, token);
    }
  }

  lemma FilledNone(n: nat, token: Label)
    requires n == 0
    ensures HoldsFirst(Filled(n, token), n, token)
  {
    hide SlotFor, HoldsFirst, TableOk;
    EmptyTable(Filled(n, token));
    NothingHeld(Filled(n, token), n, token);
  }

  lemma EmptyTable(t: Table)
    requires t == EMPTY_TABLE
    ensures TableOk(t) && t.named == 0 && t.overflow == 0
  {
    assert |t.entries| == 0;
  }

  lemma NothingHeld(t: Table, n: nat, token: Label)
    requires n == 0 && TableOk(t) && t.named == 0 && t.overflow == 0
    ensures HoldsFirst(t, n, token)
  {
  }

  lemma {:induction false} NextRow(t: Table, n: nat, token: Label)
    requires n < NAMED_MAX && HoldsFirst(t, n, token)
    ensures HoldsFirst(SlotFor(t, HostNo(n), token).table, n + 1, token)
  {
    SlotForKeeps(t, HostNo(n), token);
    NotSeen(t, n, token, HostNo(n), token);
    hide Hash, Lookup, Literal, HostNo, TableOk;
    assert |t.entries| == n by {
      RowsAreCounted(t);
    }
  }

  lemma RowsAreCounted(t: Table)
    requires TableOk(t)
    ensures |t.entries| == t.named + t.overflow
  {
  }

  lemma {:induction false} NotSeen(t: Table, n: nat, token: Label, host: Key, sought: Label)
    requires |t.entries| == n < 676
    requires forall i :: 0 <= i < n ==> t.entries[i].host == HostNo(i) && t.entries[i].token == token
    requires sought != token || |host| != 2 || host == HostNo(n)
    ensures Lookup(t.entries, host, sought).None?
  {
    hide Lookup, HostNo;
    forall i: nat | i < n ensures HostNo(i) != HostNo(n) && |HostNo(i)| == 2 {
      HostsDiffer(i, n);
    }
  }

  lemma HostsDiffer(i: nat, n: nat)
    requires i < n < 676
    ensures HostNo(i) != HostNo(n) && |HostNo(i)| == 2
  {
    assert HostNo(i)[0] == 97 + i / 26 && HostNo(i)[1] == 97 + i % 26;
    assert HostNo(n)[0] == 97 + n / 26 && HostNo(n)[1] == 97 + n % 26;
  }

  /** It does happen: 512 host names with one action fill the table, the last of
      them in the fold row, and any later pair with another action is counted
      under the first one's label. */
  lemma {:induction false} LabelLost(token: Label, host: Key, another: Label)
    requires another != token
    ensures forall n: nat :: n < SERVICE_MAX ==>
      ParsedName(HostNo(n)) == Some(Hostname(HostNo(n))) && KeyOf(Some(Hostname(HostNo(n)))) == HostNo(n)
    ensures var t := Filled(SERVICE_MAX, token);
      var a := SlotFor(t, host, another);
      && TableOk(t) && a.table == t && a.slot == SERVICE_MAX - 1
      && t.entries[a.slot].token == token != another
  {
    hide Hash, Lookup, Literal, HostNo, ParsedName, KeyOf;
    forall n: nat | n < SERVICE_MAX
      ensures ParsedName(HostNo(n)) == Some(Hostname(HostNo(n))) && KeyOf(Some(Hostname(HostNo(n)))) == HostNo(n)
    {
      HostNoIsName(n);
    }
    var full, t := Filled(NAMED_MAX, token), Filled(SERVICE_MAX, token);
    FilledIs(NAMED_MAX, token);
    NotSeen(full, NAMED_MAX, token, HostNo(NAMED_MAX), token);
    assert Literal(OTHER_HOST) == OTHER_HOST by {
      LiteralOther();
    }
    NotSeen(full, NAMED_MAX, token, OTHER_HOST, token);
    hide Filled;
    assert t == SlotFor(full, HostNo(NAMED_MAX), token).table by {
      FilledNext(SERVICE_MAX, token);
    }
    FoldRow(full, HostNo(NAMED_MAX), token);
    NotCarried(t.entries, token, host, another);
    NotCarried(t.entries, token, OTHER_HOST, another);
    NoRoom(t, host, another, false);
    NoRoom(t, OTHER_HOST, another, true);
  }

  lemma LiteralOther()
    ensures Literal(OTHER_HOST) == OTHER_HOST
  {
  }

  lemma FilledNext(n: nat, token: Label)
    requires 0 < n <= 676
    ensures Filled(n, token) == SlotFor(Filled(n - 1, token), HostNo(n - 1), token).table
  {
    hide SlotFor;
  }

  lemma {:induction false} FoldRow(t: Table, host: Key, token: Label)
    requires TableOk(t) && t.named == NAMED_MAX && t.overflow == 0
    requires forall i :: 0 <= i < NAMED_MAX ==> t.entries[i].token == token
    requires Lookup(t.entries, host, token).None? && Lookup(t.entries, Literal(OTHER_HOST), token).None?
    ensures var u := SlotFor(t, host, token).table;
      && TableOk(u) && u.named == NAMED_MAX && u.overflow == 1
      && forall i :: 0 <= i < SERVICE_MAX ==> u.entries[i].token == token
  {
    SlotForKeeps(t, host, token);
    hide Lookup, Hash, Literal;
  }

  lemma {:induction false} NotCarried(entries: seq<Entry>, token: Label, host: Key, another: Label)
    requires another != token && forall i :: 0 <= i < |entries| ==> entries[i].token == token
    ensures Lookup(entries, host, another).None?
  {
    hide Lookup;
  }

  // ---- conservation ---------------------------------------------------------------------------

  function Plus(a: Slot, b: Slot): Slot {
    Slot(a.bytesIn + b.bytesIn, a.bytesOut + b.bytesOut, a.flows + b.flows)
  }

  const ZERO := Slot(0, 0, 0)

  function Total(slots: seq<Slot>): Slot {
    if slots == [] then ZERO else Plus(Total(slots[..|slots| - 1]), slots[|slots| - 1])
  }

  function RowTotal(rows: seq<Row>): Slot {
    if rows == [] then ZERO else Plus(RowTotal(rows[..|rows| - 1]), rows[|rows| - 1].counters)
  }

  ghost predicate LedgerOk(l: Ledger) {
    && TableOk(l.table)
    && |l.slots| == SERVICE_MAX
    && (forall i :: |l.table.entries| <= i < SERVICE_MAX ==> l.slots[i] == ZERO)
    && Total(l.slots).flows == l.total
    && l.active <= l.total
  }

  lemma {:induction false} TotalUpdate(slots: seq<Slot>, k: nat, x: Slot)
    requires k < |slots|
    ensures Plus(Total(slots[k := x]), slots[k]) == Plus(Total(slots), x)
    decreases |slots|
  {
    var n := |slots| - 1;
    if k < n {
      TotalUpdate(slots[..n], k, x);
      assert slots[k := x][..n] == slots[..n][k := x];
    } else {
      assert slots[k := x][..n] == slots[..n];
    }
  }

  lemma {:induction false} TotalOfZeros(slots: seq<Slot>, n: nat)
    requires n <= |slots| && forall i :: n <= i < |slots| ==> slots[i] == ZERO
    ensures Total(slots) == Total(slots[..n])
    decreases |slots|
  {
    if n < |slots| {
      TotalOfZeros(slots[..|slots| - 1], n);
      assert slots[..|slots| - 1][..n] == slots[..n];
    } else {
      assert slots[..n] == slots;
    }
  }

  lemma {:induction false} TotalSnoc(slots: seq<Slot>, x: Slot)
    ensures Total(slots + [x]) == Plus(Total(slots), x)
  {
    assert (slots + [x])[..|slots|] == slots;
  }

  lemma {:induction false} RowTotalSnoc(rows: seq<Row>, row: Row)
    ensures RowTotal(rows + [row]) == Plus(RowTotal(rows), row.counters)
  {
    assert (rows + [row])[..|rows|] == rows;
  }

  lemma {:induction false} NoRows()
    ensures RowTotal([]) == ZERO
  {
  }

  lemma {:induction false} RowsTotal(entries: seq<Entry>, slots: seq<Slot>)
    requires |entries| <= |slots| && forall i :: 0 <= i < |entries| ==> entries[i].slot == i
    ensures RowTotal(Rows(entries, slots)) == Total(slots[..|entries|])
    decreases |entries|
  {
    hide RowTotal, Total;
    if entries == [] {
      TotalOfNone();
      NoRows();
    } else {
      var n := |entries| - 1;
      RowsTotal(entries[..n], slots);
      assert slots[..n + 1] == slots[..n] + [slots[n]];
      TotalSnoc(slots[..n], slots[n]);
      if slots[n] != ZERO {
        RowTotalSnoc(Rows(entries[..n], slots), Row(entries[n].host, entries[n].token, slots[n]));
      }
    }
  }

  /** The rendered rows account for everything that was counted. */
  lemma RenderedTotal(l: Ledger)
    requires LedgerOk(l)
    ensures RowTotal(Rows(l.table.entries, l.slots)) == Total(l.slots)
    ensures RowTotal(Rows(l.table.entries, l.slots)).flows == l.total
    ensures |Rows(l.table.entries, l.slots)| <= SERVICE_MAX
  {
    RowsTotal(l.table.entries, l.slots);
    TotalOfZeros(l.slots, |l.table.entries|);
    RowCount(l.table.entries, l.slots);
  }

  lemma {:induction false} RowCount(entries: seq<Entry>, slots: seq<Slot>)
    ensures |Rows(entries, slots)| <= |entries|
    decreases |entries|
  {
    if entries != [] {
      RowCount(entries[..|entries| - 1], slots);
    }
  }

  datatype Op = Start(host: Key, token: Label) | End | In(slot: nat, bytes: nat) | Out(slot: nat, bytes: nat)

  function Begun(l: Ledger, host: Key, token: Label): Ledger {
    var a := SlotFor(l.table, host, token);
    Started(l.(table := a.table), a.slot)
  }

  function Applied(l: Ledger, op: Op): Ledger {
    match op
    case Start(host, token) => Begun(l, host, token)
    case End => Ended(l)
    case In(slot, n) => AddedIn(l, slot, n)
    case Out(slot, n) => AddedOut(l, slot, n)
  }

  /** Bytes go to a slot that was handed out: a flow only knows its own. */
  predicate Legal(l: Ledger, op: Op) {
    match op
    case In(slot, _) => slot < |l.table.entries|
    case Out(slot, _) => slot < |l.table.entries|
    case _ => true
  }

  function Delta(op: Op): Slot {
    match op
    case Start(_, _) => Slot(0, 0, 1)
    case End => ZERO
    case In(_, n) => Slot(n, 0, 0)
    case Out(_, n) => Slot(0, n, 0)
  }

  lemma {:induction false} AppliedKeeps(l: Ledger, op: Op)
    requires LedgerOk(l) && Legal(l, op)
    ensures LedgerOk(Applied(l, op))
    ensures Grows(l.table, Applied(l, op).table)
    ensures Total(Applied(l, op).slots) == Plus(Total(l.slots), Delta(op))
  {
    hide SlotFor, Total, Rows, Owns;
    match op
    case Start(host, token) =>
      SlotForKeeps(l.table, host, token);
      var slot := SlotFor(l.table, host, token).slot;
      TotalUpdate(l.slots, slot, l.slots[slot].(flows := l.slots[slot].flows + 1));
    case End =>
    case In(slot, n) =>
      TotalUpdate(l.slots, slot, l.slots[slot].(bytesIn := l.slots[slot].bytesIn + n));
    case Out(slot, n) =>
      TotalUpdate(l.slots, slot, l.slots[slot].(bytesOut := l.slots[slot].bytesOut + n));
  }

  function After(ops: seq<Op>): Ledger {
    if ops == [] then Fresh() else Applied(After(ops[..|ops| - 1]), ops[|ops| - 1])
  }

  predicate AllLegal(ops: seq<Op>) {
    ops == [] || (AllLegal(ops[..|ops| - 1]) && Legal(After(ops[..|ops| - 1]), ops[|ops| - 1]))
  }

  function Deltas(ops: seq<Op>): Slot {
    if ops == [] then ZERO else Plus(Deltas(ops[..|ops| - 1]), Delta(ops[|ops| - 1]))
  }

  lemma {:induction false} TotalOfNone()
    ensures Total([]) == ZERO
  {
  }

  lemma {:induction false} FreshIsOk(l: Ledger)
    requires l.table == EMPTY_TABLE && l.active == 0 && l.total == 0
    requires |l.slots| == SERVICE_MAX && forall i :: 0 <= i < SERVICE_MAX ==> l.slots[i] == ZERO
    ensures LedgerOk(l) && Total(l.slots) == ZERO
  {
    TotalOfZeros(l.slots, 0);
    assert l.slots[..0] == [];
    TotalOfNone();
  }

  /** There is a row for each pair that has counted something, with its own host,
      action and counters, and no other. */
  lemma {:induction false} RowsAre(entries: seq<Entry>, slots: seq<Slot>, row: Row)
    ensures row in Rows(entries, slots) <==>
      row.counters != Slot(0, 0, 0)
      && exists e :: e in entries && e.slot < |slots| && row == Row(e.host, e.token, slots[e.slot])
    decreases |entries|
  {
    if entries != [] {
      var front, last := entries[..|entries| - 1], entries[|entries| - 1];
      RowsAre(front, slots, row);
      assert entries == front + [last];
      assert forall e :: e in entries <==> e in front || e == last;
    }
  }

  /** Over any history the table stays well formed, the rows add up to exactly
      what was counted, and their flow counts to the FLOWS total. */
  lemma {:induction false} HistoryConserves(ops: seq<Op>)
    requires AllLegal(ops)
    ensures LedgerOk(After(ops))
    ensures RowTotal(Rows(After(ops).table.entries, After(ops).slots)) == Deltas(ops)
    ensures RowTotal(Rows(After(ops).table.entries, After(ops).slots)).flows == After(ops).total
    decreases |ops|
  {
    hide Rows, Applied, Legal, LedgerOk, Total, RowTotal;
    if ops == [] {
      FreshIsOk(After(ops));
    } else {
      var before := ops[..|ops| - 1];
      HistoryConserves(before);
      RenderedTotal(After(before));
      AppliedKeeps(After(before), ops[|ops| - 1]);
    }
    RenderedTotal(After(ops));
  }
}
