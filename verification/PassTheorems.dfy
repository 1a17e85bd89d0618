/** What a relay pass keeps and what it leaves behind: the bytes, the budget and
    the wakeups. */
module PassTheorems {
  import opened Basics
  import opened Kernel
  import opened Relay
  import opened Pass

  predicate PumpOk(p: PumpState) { p.buffered == |p.pipe.content| <= p.pipe.capacity }

  predicate LinkOk(k: Link) { PumpOk(k.out) && PumpOk(k.back) }

  /** The outbound step of a turn, and what it leaves of the budget. */
  function FirstStep(r: Run): Stepped { StepLane(OutLane(r.link), r.budget) }
  function FirstLink(r: Run): Link { WithOut(FirstStep(r).lane, r.link.back) }
  function Left(r: Run): nat { Max(r.budget - FirstStep(r).moved, 0) }
  function SecondStep(r: Run): Stepped { StepLane(BackLane(FirstLink(r)), Left(r)) }

  // ---- stream fidelity --------------------------------------------------------------------

  /** What was delivered, followed by what is in the pipe, is exactly what was
      read. End of file is believed only at the true end of the source, and the
      destination is half-closed at most once, after that end and with the pipe
      empty. */
  ghost predicate Faithful(p: PumpState, src: Sock, dst: Sock) {
    && PumpOk(p)
    && dst.sent + p.pipe.content == src.read
    && (p.sourceEof ==> src.closed && src.unread == [])
    && dst.halfCloses == (if p.shutdownSent then 1 else 0)
    && (p.shutdownSent ==> Finished(p))
  }

  /** What the peer of a socket has sent so far. */
  function Stream(s: Sock): seq<byte> { s.read + s.unread }

  /** A socket later in its life: its peer's stream only grows, ends for good,
      and its interface is never changed. */
  ghost predicate Later(s: Sock, t: Sock) {
    && Stream(s) <= Stream(t)
    && (s.closed ==> t.closed && Stream(t) == Stream(s))
    && t.pin == s.pin
  }

  lemma LaterTrans(s: Sock, t: Sock, u: Sock)
    requires Later(s, t) && Later(t, u)
    ensures Later(s, u)
  {
  }

  lemma ArriveLater(s: Sock, a: Arrival)
    ensures Later(s, Arrive(s, a))
    ensures Arrive(s, a).read == s.read && Arrive(s, a).sent == s.sent && Arrive(s, a).halfCloses == s.halfCloses
  {
    var t := Arrive(s, a);
    assert Stream(t) == Stream(s) + if s.closed then [] else a.bytes;
  }

  lemma {:induction false} ArriveFaithful(p: PumpState, src: Sock, dst: Sock, a: Arrival, b: Arrival)
    requires Faithful(p, src, dst)
    ensures Faithful(p, Arrive(src, a), Arrive(dst, b))
  {
  }

  lemma {:induction false} FillFaithful(l: Lane, limit: nat)
    requires Faithful(l.pump, l.wire.src, l.wire.dst)
    ensures var t := Fill(l, limit).lane; Faithful(t.pump, t.wire.src, t.wire.dst)
  {
    var a := Advanced(l.wire);
    hide Arrive;
    ArriveFaithful(l.pump, l.wire.src, l.wire.dst, NextChoice(l.wire).src, NextChoice(l.wire).dst);
    var t := Fill(l, limit);
    if t.step.Ok? && t.step.value.Moved? {
      var moved := a.src.unread[..t.step.value.n];
      Assoc(a.dst.sent, l.pump.pipe.content, moved);
    }
  }

  lemma {:induction false} DrainFaithful(l: Lane)
    requires Faithful(l.pump, l.wire.src, l.wire.dst)
    ensures var t := Drain(l).lane; Faithful(t.pump, t.wire.src, t.wire.dst)
  {
    var a := Advanced(l.wire);
    hide Arrive;
    ArriveFaithful(l.pump, l.wire.src, l.wire.dst, NextChoice(l.wire).src, NextChoice(l.wire).dst);
    var t := Drain(l);
    if t.step.Ok? && t.step.value.Moved? {
      var c, n := l.pump.pipe.content, t.step.value.n;
      Assoc(a.dst.sent, c[..n], c[n..]);
      assert c[..n] + c[n..] == c;
    }
  }

  /** What one direction's calls leave alone for the other direction. */
  ghost predicate Spared(w: Wire, v: Wire) {
    && Later(w.src, v.src) && Later(w.dst, v.dst)
    && v.dst.read == w.dst.read
    && v.src.sent == w.src.sent && v.src.halfCloses == w.src.halfCloses
    && (w.dst.closed && w.dst.unread == [] ==> v.dst.closed && v.dst.unread == [])
  }

  lemma SparedTrans(w: Wire, v: Wire, u: Wire)
    requires Spared(w, v) && Spared(v, u)
    ensures Spared(w, u)
  {
  }

  /** The counter of bytes in the pipe stays right, and within the pipe. */
  lemma {:induction false} StepPumpOk(l: Lane, budget: nat)
    requires PumpOk(l.pump)
    ensures PumpOk(StepLane(l, budget).lane.pump)
  {
    var f := if budget > 0 then Fill(l, budget).lane else l;
    assert PumpOk(f.pump) by {
      hide Drain, Arrive;
    }
    DrainPumpOk(f);
    hide Fill, Drain;
  }

  lemma {:induction false} DrainPumpOk(l: Lane)
    requires PumpOk(l.pump)
    ensures PumpOk(Drain(l).lane.pump)
  {
    hide Arrive;
  }

  lemma {:induction false} TurnPumpOk(r: Run)
    requires LinkOk(r.link)
    ensures LinkOk(Turn(r).link)
  {
    StepPumpOk(OutLane(r.link), r.budget);
    StepPumpOk(BackLane(FirstLink(r)), Left(r));
    hide StepLane, PumpOk;
  }

  lemma {:induction false} FillSpares(l: Lane, limit: nat)
    ensures Spared(l.wire, Fill(l, limit).lane.wire)
  {
    hide Arrive;
    ArriveLater(l.wire.src, NextChoice(l.wire).src);
    ArriveLater(l.wire.dst, NextChoice(l.wire).dst);
    var a := Advanced(l.wire);
    EndStays(l.wire.dst, NextChoice(l.wire).dst);
    var t := Fill(l, limit);
    if t.step.Ok? && t.step.value.Moved? {
      var n := t.step.value.n;
      Assoc(a.src.read, a.src.unread[..n], a.src.unread[n..]);
      assert a.src.unread[..n] + a.src.unread[n..] == a.src.unread;
    }
  }

  lemma {:induction false} EndStays(s: Sock, a: Arrival)
    ensures s.closed && s.unread == [] ==> Arrive(s, a).closed && Arrive(s, a).unread == []
  {
  }

  lemma {:induction false} DrainSpares(l: Lane)
    ensures Spared(l.wire, Drain(l).lane.wire)
  {
    hide Arrive;
    ArriveLater(l.wire.src, NextChoice(l.wire).src);
    ArriveLater(l.wire.dst, NextChoice(l.wire).dst);
    EndStays(l.wire.dst, NextChoice(l.wire).dst);
  }

  /** A step is faithful in its own direction, undisturbing in the other, and
      half-closes as soon as there is nothing left to deliver. */
  lemma {:induction false} StepFaithful(l: Lane, budget: nat)
    requires Faithful(l.pump, l.wire.src, l.wire.dst)
    ensures var s := StepLane(l, budget);
      && Faithful(s.lane.pump, s.lane.wire.src, s.lane.wire.dst)
      && Spared(l.wire, s.lane.wire)
      && (s.ok && Finished(s.lane.pump) ==> s.lane.pump.shutdownSent)
  {
    hide Fill, Drain;
    var f := if budget > 0 then Fill(l, budget).lane else l;
    if budget > 0 {
      FillFaithful(l, budget);
      FillSpares(l, budget);
    }
    DrainFaithful(f);
    DrainSpares(f);
    SparedTrans(l.wire, f.wire, Drain(f).lane.wire);
  }

  /** The other direction, whose source is this one's destination. */
  lemma SparedFaithful(q: PumpState, w: Wire, v: Wire)
    requires Faithful(q, w.dst, w.src) && Spared(w, v)
    ensures Faithful(q, v.dst, v.src)
  {
  }

  ghost predicate LinkFaithful(k: Link) {
    Faithful(k.out, k.client, k.upstream) && Faithful(k.back, k.upstream, k.client)
  }

  ghost predicate LinkLater(k: Link, m: Link) { Later(k.client, m.client) && Later(k.upstream, m.upstream) }

  /** Whatever has ended has been announced. */
  predicate Settled(k: Link) {
    (Finished(k.out) ==> k.out.shutdownSent) && (Finished(k.back) ==> k.back.shutdownSent)
  }

  lemma {:induction false} TurnFaithful(r: Run)
    requires LinkFaithful(r.link)
    ensures LinkFaithful(Turn(r).link)
    ensures LinkLater(r.link, Turn(r).link)
    ensures Turn(r).ok && r.ok ==> Settled(Turn(r).link)
  {
    hide StepLane, Faithful, Later, Finished;
    StepFaithful(OutLane(r.link), r.budget);
    SparedFaithful(r.link.back, OutLane(r.link).wire, FirstStep(r).lane.wire);
    var m := FirstLink(r);
    if FirstStep(r).ok {
      StepFaithful(BackLane(m), Left(r));
      SparedFaithful(m.out, BackLane(m).wire, SecondStep(r).lane.wire);
      LaterTrans(r.link.client, m.client, Turn(r).link.client);
      LaterTrans(r.link.upstream, m.upstream, Turn(r).link.upstream);
    }
  }

  lemma LinkLaterTrans(k: Link, m: Link, n: Link)
    requires LinkLater(k, m) && LinkLater(m, n)
    ensures LinkLater(k, n)
  {
    LaterTrans(k.client, m.client, n.client);
    LaterTrans(k.upstream, m.upstream, n.upstream);
  }

  /** Stream fidelity over a whole pass, failing or not. */
  lemma {:induction false} PassFaithful(r: Run)
    requires LinkFaithful(r.link) && r.ok
    ensures LinkFaithful(Passed(r).link)
    ensures LinkLater(r.link, Passed(r).link)
    ensures Passed(r).ok ==> Settled(Passed(r).link)
    decreases Measure(r.link)
  {
    TurnFaithful(r);
    TurnMeasure(r);
    hide LinkFaithful, LinkLater, Settled, StepLane, Measure;
    if Progressed(r) {
      PassFaithful(Turn(r));
      LinkLaterTrans(r.link, Turn(r).link, Passed(Turn(r)).link);
    }
  }

  /** A link torn down as done has delivered both streams, whole and in order,
      and half-closed each socket exactly once. */
  lemma DoneIsDelivered(k: Link)
    requires LinkFaithful(k) && Settled(k)
    requires Finished(k.out) && Finished(k.back)
    ensures k.client.closed && k.upstream.sent == Stream(k.client) && k.upstream.halfCloses == 1
    ensures k.upstream.closed && k.client.sent == Stream(k.upstream) && k.client.halfCloses == 1
  {
    assert k.client.unread == [] && k.upstream.unread == [];
  }

  // ---- no lost wakeup ---------------------------------------------------------------------

  predicate SourceQuiet(src: Sock) { (src.unread == [] && !src.closed) || src.readEdge }

  predicate DestFull(dst: Sock) { dst.room == 0 || dst.writeEdge }

  predicate FillQuiet(p: PumpState, src: Sock) { p.sourceEof || Space(p) == 0 || SourceQuiet(src) }

  predicate DrainQuiet(p: PumpState, dst: Sock) { p.buffered == 0 || DestFull(dst) }

  /** Nothing is left undone that no event will announce. With `unfed` the
      sources may still hold bytes, because the budget ran out. */
  predicate LinkQuiet(k: Link, unfed: bool) {
    && DrainQuiet(k.out, k.upstream) && DrainQuiet(k.back, k.client)
    && (unfed || (FillQuiet(k.out, k.client) && FillQuiet(k.back, k.upstream)))
  }

  /** Whatever arrives at a blocked socket raises an event. */
  lemma ArriveQuiet(s: Sock, a: Arrival)
    ensures SourceQuiet(s) ==> SourceQuiet(Arrive(s, a))
    ensures DestFull(s) ==> DestFull(Arrive(s, a))
  {
  }

  lemma {:induction false} ArriveLinkQuiet(k: Link, a: Arrival, b: Arrival, unfed: bool)
    requires LinkQuiet(k, unfed)
    ensures LinkQuiet(k.(client := Arrive(k.client, a), upstream := Arrive(k.upstream, b)), unfed)
  {
    hide Arrive, SourceQuiet, DestFull;
    ArriveQuiet(k.client, a);
    ArriveQuiet(k.upstream, b);
  }

  /** A socket across calls that moved nothing. */
  ghost predicate Idled(s: Sock, t: Sock) {
    (SourceQuiet(s) ==> SourceQuiet(t)) && (DestFull(s) ==> DestFull(t))
  }

  lemma {:induction false} FillBlocked(l: Lane, limit: nat)
    requires var t := Fill(l, limit); t.step == Ok(Blocked)
    ensures var t := Fill(l, limit).lane;
      && t.pump == l.pump && Idled(l.wire.src, t.wire.src) && Idled(l.wire.dst, t.wire.dst)
      && (limit > 0 ==> FillQuiet(t.pump, t.wire.src))
  {
    hide Arrive;
    ArriveQuiet(l.wire.src, NextChoice(l.wire).src);
    ArriveQuiet(l.wire.dst, NextChoice(l.wire).dst);
  }

  lemma {:induction false} DrainBlocked(l: Lane)
    requires PumpOk(l.pump)
    requires var t := Drain(l); t.step.Ok? && !t.step.value.Moved?
    ensures var t := Drain(l).lane;
      && t.pump == l.pump && Idled(l.wire.src, t.wire.src) && Idled(l.wire.dst, t.wire.dst)
      && DrainQuiet(t.pump, t.wire.dst)
  {
    hide Arrive;
    ArriveQuiet(l.wire.src, NextChoice(l.wire).src);
    ArriveQuiet(l.wire.dst, NextChoice(l.wire).dst);
  }

  /** A step that got nowhere was stopped by its sockets. */
  lemma {:induction false} StepBlocked(l: Lane, budget: nat)
    requires PumpOk(l.pump)
    requires var s := StepLane(l, budget); s.ok && !s.progress
    ensures var s := StepLane(l, budget);
      && s.moved == 0 && s.lane.pump.(shutdownSent := l.pump.shutdownSent) == l.pump
      && Idled(l.wire.src, s.lane.wire.src) && Idled(l.wire.dst, s.lane.wire.dst)
      && DrainQuiet(s.lane.pump, s.lane.wire.dst)
      && (budget > 0 ==> FillQuiet(s.lane.pump, s.lane.wire.src))
  {
    hide Fill, Drain;
    if budget > 0 {
      FillBlocked(l, budget);
    }
    DrainBlocked(if budget > 0 then Fill(l, budget).lane else l);
  }

  /** The last turn of a pass. */
  lemma {:induction false} TurnQuiet(r: Run)
    requires LinkOk(r.link) && r.ok
    requires Turn(r).ok && !Progressed(r)
    ensures LinkQuiet(Turn(r).link, Turn(r).budget == 0)
    ensures Turn(r).budget == r.budget
  {
    StepPumpOk(OutLane(r.link), r.budget);
    StepBlocked(OutLane(r.link), r.budget);
    StepBlocked(BackLane(FirstLink(r)), Left(r));
    hide StepLane, PumpOk, SourceQuiet, DestFull;
  }

  /** No lost wakeup: a pass that returns leaves nothing undone that no event will
      announce, unless its budget is gone. */
  lemma {:induction false} PassQuiet(r: Run)
    requires LinkOk(r.link) && r.ok
    requires Passed(r).ok
    ensures LinkQuiet(Passed(r).link, Passed(r).budget == 0)
    decreases Measure(r.link)
  {
    TurnMeasure(r);
    TurnPumpOk(r);
    if Progressed(r) {
      hide StepLane, LinkOk, LinkQuiet, Measure;
      PassQuiet(Turn(r));
    } else {
      TurnQuiet(r);
    }
  }

  /** The source has bytes, or its end, that no event will announce. */
  predicate Pending(p: PumpState, src: Sock) { !p.sourceEof && !SourceQuiet(src) }

  /** After a pass with budget to spare, a direction leaves a source unread only
      behind a full pipe, and that pipe waits for a full destination exactly when
      it can hold a byte. A pipe of capacity 0 leaves the source unread with no
      event to come. */
  lemma PendingIff(k: Link)
    requires LinkOk(k) && LinkQuiet(k, false)
    ensures Pending(k.out, k.client) ==>
      && k.out.buffered == k.out.pipe.capacity
      && (k.out.buffered > 0 && DestFull(k.upstream) <==> k.out.pipe.capacity > 0)
    ensures Pending(k.back, k.upstream) ==>
      && k.back.buffered == k.back.pipe.capacity
      && (k.back.buffered > 0 && DestFull(k.client) <==> k.back.pipe.capacity > 0)
  {
  }

  // ---- failure ------------------------------------------------------------------------------

  /** No call in the script fails. */
  predicate Flawless(script: seq<Choice>) { forall c :: c in script ==> !c.fail }

  lemma {:induction false} FlawlessFill(l: Lane, limit: nat)
    requires Flawless(l.wire.script)
    ensures Fill(l, limit).step.Ok? && Flawless(Fill(l, limit).lane.wire.script)
  {
    hide Arrive;
  }

  lemma {:induction false} FlawlessDrain(l: Lane)
    requires Flawless(l.wire.script)
    ensures Drain(l).step.Ok? && Flawless(Drain(l).lane.wire.script)
  {
    hide Arrive;
  }

  lemma {:induction false} FlawlessStep(l: Lane, budget: nat)
    requires Flawless(l.wire.script)
    ensures StepLane(l, budget).ok && Flawless(StepLane(l, budget).lane.wire.script)
  {
    hide Fill, Drain, Flawless;
    FlawlessFill(l, budget);
    FlawlessDrain(if budget > 0 then Fill(l, budget).lane else l);
  }

  /** A pass fails only if a system call does. */
  lemma {:induction false} FlawlessPass(r: Run)
    requires r.ok && Flawless(r.link.script)
    ensures Passed(r).ok
    decreases Measure(r.link)
  {
    TurnMeasure(r);
    FlawlessStep(OutLane(r.link), r.budget);
    FlawlessStep(BackLane(FirstLink(r)), Left(r));
    hide StepLane, Measure, Flawless;
    if Progressed(r) {
      FlawlessPass(Turn(r));
    }
  }

  // ---- the budget ---------------------------------------------------------------------------

  /** Bytes read off both sockets. */
  function Pulled(k: Link): nat { |k.client.read| + |k.upstream.read| }

  lemma {:induction false} StepPulls(l: Lane, budget: nat)
    ensures var s := StepLane(l, budget);
      && |s.lane.wire.dst.read| == |l.wire.dst.read|
      && |l.wire.src.read| <= |s.lane.wire.src.read| <= |l.wire.src.read| + budget
      && (s.ok ==> |s.lane.wire.src.read| == |l.wire.src.read| + s.moved)
  {
    FillPulls(l, budget);
    DrainPulls(if budget > 0 then Fill(l, budget).lane else l);
    hide Fill, Drain;
  }

  lemma {:induction false} FillPulls(l: Lane, budget: nat)
    ensures var t := Fill(l, budget);
      && t.lane.wire.dst.read == l.wire.dst.read
      && |t.lane.wire.src.read|
           == |l.wire.src.read| + (if t.step.Ok? && t.step.value.Moved? then t.step.value.n else 0)
      && (t.step.Ok? && t.step.value.Moved? ==> t.step.value.n <= budget)
  {
    hide Arrive;
    ArriveLater(l.wire.src, NextChoice(l.wire).src);
    ArriveLater(l.wire.dst, NextChoice(l.wire).dst);
  }

  lemma {:induction false} DrainPulls(l: Lane)
    ensures var t := Drain(l).lane;
      t.wire.dst.read == l.wire.dst.read && t.wire.src.read == l.wire.src.read
  {
    hide Arrive;
    ArriveLater(l.wire.src, NextChoice(l.wire).src);
    ArriveLater(l.wire.dst, NextChoice(l.wire).dst);
  }

  /** Bytes read, the budget and the counters move together. */
  ghost predicate Counted(r: Run, q: Run) {
    && Pulled(r.link) <= Pulled(q.link) <= Pulled(r.link) + r.budget
    && (q.ok ==>
          && Pulled(q.link) + q.budget == Pulled(r.link) + r.budget
          && |q.link.client.read| - |r.link.client.read| == q.movedOut - r.movedOut
          && |q.link.upstream.read| - |r.link.upstream.read| == q.movedIn - r.movedIn)
  }

  lemma {:induction false} TurnPulls(r: Run)
    requires r.ok
    ensures Counted(r, Turn(r))
  {
    hide StepLane;
    StepPulls(OutLane(r.link), r.budget);
    StepPulls(BackLane(FirstLink(r)), Left(r));
  }

  /** A pass never reads more than its budget, even when it fails part-way; and
      when it succeeds, what is left of the budget and what is reported moved are
      exactly what was read. */
  lemma {:induction false} PassPulls(r: Run)
    requires r.ok
    ensures Counted(r, Passed(r))
    decreases Measure(r.link)
  {
    TurnMeasure(r);
    TurnPulls(r);
    hide StepLane, Measure, Turn;
    if Progressed(r) {
      ProgressedIsOk(r);
      PassPulls(Turn(r));
    }
  }

  lemma ProgressedIsOk(r: Run)
    requires r.ok && Progressed(r)
    ensures Turn(r).ok
  {
  }
}
