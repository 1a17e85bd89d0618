/** What every operation of a worker keeps: the slab, the pipe pool, the gauge, and
    what holds of each flow. */
module SiteTheorems {
  import opened Basics
  import opened Kernel
  import opened PassTheorems
  import opened Server
  import opened Flows
  import opened FlowTheorems
  import opened Workers

  // ---- sums -----------------------------------------------------------------------------------

  function Sum(s: seq<nat>): nat { if s == [] then 0 else Sum(s[..|s| - 1]) + s[|s| - 1] }

  lemma {:induction false} SumUpdate(s: seq<nat>, i: nat, x: nat)
    requires i < |s|
    ensures Sum(s[i := x]) == Sum(s) - s[i] + x
    ensures s[i] <= Sum(s)
    decreases |s|
  {
    var last := |s| - 1;
    if i == last {
      assert s[i := x][..last] == s[..last];
    } else {
      SumUpdate(s[..last], i, x);
      assert s[i := x][..last] == s[..last][i := x];
    }
  }

  lemma {:induction false} SumBound(s: seq<nat>, cap: nat)
    requires forall k :: 0 <= k < |s| ==> s[k] <= cap
    ensures Sum(s) <= cap * |s|
    decreases |s|
  {
    if s != [] {
      SumBound(s[..|s| - 1], cap);
      assert cap * |s| == cap * (|s| - 1) + cap;
    }
  }

  function Held(flows: seq<Flow>): seq<nat> { seq(|flows|, i requires 0 <= i < |flows| => HeldBy(flows[i])) }

  function Slotted(flows: seq<Flow>): seq<nat> { seq(|flows|, i requires 0 <= i < |flows| => SlotsOf(flows[i])) }

  lemma {:induction false} UpdateSums(flows: seq<Flow>, i: nat, f: Flow)
    requires i < |flows|
    ensures Sum(Held(flows[i := f])) == Sum(Held(flows)) - HeldBy(flows[i]) + HeldBy(f)
    ensures Sum(Slotted(flows[i := f])) == Sum(Slotted(flows)) - SlotsOf(flows[i]) + SlotsOf(f)
    ensures HeldBy(flows[i]) <= Sum(Held(flows)) && SlotsOf(flows[i]) <= Sum(Slotted(flows))
  {
    assert Held(flows[i := f]) == Held(flows)[i := HeldBy(f)];
    assert Slotted(flows[i := f]) == Slotted(flows)[i := SlotsOf(f)];
    SumUpdate(Held(flows), i, HeldBy(f));
    SumUpdate(Slotted(flows), i, SlotsOf(f));
  }

  /** The other flows together hold at most two pipes each. */
  lemma {:induction false} OthersHold(flows: seq<Flow>, i: nat)
    requires i < |flows|
    ensures Sum(Held(flows)) - HeldBy(flows[i]) <= 2 * |flows| - 2
  {
    var rest := flows[..i] + flows[i + 1..];
    var h := Held(flows);
    var g := h[i := 2];
    SumUpdate(h, i, 2);
    SumBound(g, 2);
  }

  // ---- the invariant ----------------------------------------------------------------------------

  /** The free list holds each vacant index exactly once, and no other. */
  ghost predicate FreeOk(free: seq<nat>, flows: seq<Flow>) {
    && (forall k :: 0 <= k < |free| ==> free[k] < |flows| && !flows[free[k]].live)
    && (forall j, k :: 0 <= j < k < |free| ==> free[j] != free[k])
    && (forall i :: 0 <= i < |flows| && !flows[i].live ==> i in free)
  }

  ghost predicate FlowsOk(flows: seq<Flow>, s: Shared) { forall i :: 0 <= i < |flows| ==> FlowOk(flows[i], s) }

  /** Every pipe is idle, held, or written off; two per slot may exist. */
  ghost predicate PipesOk(c: Core) {
    PoolOk(c.pool) && c.pool.limit == 2 * |c.flows| && |c.pool.idle| + Sum(Held(c.flows)) <= c.pool.live
  }

  ghost predicate CoreOk(c: Core, s: Shared) { FreeOk(c.free, c.flows) && FlowsOk(c.flows, s) && PipesOk(c) }

  ghost predicate SiteOk(s: Site) {
    SharedOk(s.shared) && CoreOk(s.core, s.shared) && Sum(Slotted(s.core.flows)) <= s.shared.ledger.active
  }

  /** No pipe is written off. */
  ghost predicate Tight(c: Core) { |c.pool.idle| + Sum(Held(c.flows)) == c.pool.live }

  /** A flow that stays alive keeps its route, and one that ends lets go of its
      generation; a vacant slot stays as it is. */
  ghost predicate SlotKept(f: Flow, g: Flow) {
    g == f || (f.live && if g.live then Steady(f, g) else g.generation.None?)
  }

  ghost predicate SlabKept(flows: seq<Flow>, after: seq<Flow>) {
    |after| == |flows| && forall i :: 0 <= i < |flows| ==> SlotKept(flows[i], after[i])
  }

  ghost predicate SiteMoves(s: Site, t: Site) {
    && SiteOk(t) && SharedLater(s.shared, t.shared) && |t.core.flows| == |s.core.flows|
    && t.shared.ledger.active - s.shared.ledger.active == Sum(Slotted(t.core.flows)) - Sum(Slotted(s.core.flows))
  }

  lemma {:induction false} SiteMovesTrans(s: Site, t: Site, u: Site)
    requires SiteMoves(s, t) && SiteMoves(t, u)
    ensures SiteMoves(s, u)
  {
    hide SiteOk, SharedLater, Slotted, Sum;
    SharedLaterTrans(s.shared, t.shared, u.shared);
  }

  lemma {:induction false} SlabKeptTrans(a: seq<Flow>, b: seq<Flow>, c: seq<Flow>)
    requires SlabKept(a, b) && SlabKept(b, c)
    ensures SlabKept(a, c)
  {
    forall i | 0 <= i < |a| ensures SlotKept(a[i], c[i]) {
      assert SlotKept(a[i], b[i]) && SlotKept(b[i], c[i]);
      if a[i] != b[i] && b[i] != c[i] && b[i].live && c[i].live {
        SteadyTrans(a[i], b[i], c[i]);
      }
    }
  }

  lemma {:induction false} SteadyTrans(f: Flow, g: Flow, h: Flow)
    requires Steady(f, g) && Steady(g, h)
    ensures Steady(f, h)
  {
    hide Later;
    LaterTrans(f.client.value, g.client.value, h.client.value);
    if f.upstream.Some? {
      LaterTrans(f.upstream.value, g.upstream.value, h.upstream.value);
    }
  }

  // ---- one flow among others ------------------------------------------------------------------------

  /** What holds of a flow goes on holding while others are served. */
  lemma {:induction false} FlowOkLater(f: Flow, s: Shared, t: Shared)
    requires FlowOk(f, s) && SharedLater(s, t)
    ensures FlowOk(f, t)
  {
    if f.live {
      StaySteady(f);
      if f.phase != Peeking {
        PinnedLater(f, f, s.gens, t.gens);
      }
    }
    hide Pinned, Carries, Settled, Awake, Steady, Shape, Untouched;
  }

  lemma {:induction false} FlowsOkLater(flows: seq<Flow>, s: Shared, t: Shared)
    requires FlowsOk(flows, s) && SharedLater(s, t)
    ensures FlowsOk(flows, t)
  {
    hide FlowOk, SharedLater;
    forall i | 0 <= i < |flows| ensures FlowOk(flows[i], t) {
      FlowOkLater(flows[i], s, t);
    }
  }

  lemma {:induction false} CtxIsOk(s: Site, i: nat)
    requires SiteOk(s) && i < |s.core.flows|
    ensures Elsewhere(CtxAt(s, i)) >= Sum(Held(s.core.flows)) - HeldBy(s.core.flows[i]) >= 0
    ensures s.shared.ledger.active >= Sum(Slotted(s.core.flows)) >= SlotsOf(s.core.flows[i])
    ensures s.core.flows[i].live ==> CtxOk(CtxAt(s, i))
    ensures Tight(s.core) ==> s.core.pool.limit >= Elsewhere(CtxAt(s, i)) + 2
  {
    hide FreeOk, FlowOk, SharedOk, PoolOk, Sum, Held, Slotted, HeldBy, SlotsOf;
    UpdateSums(s.core.flows, i, s.core.flows[i]);
    OthersHold(s.core.flows, i);
  }

  /** One flow replaced by what its handler made of it. */
  ghost predicate Swap(s: Site, i: nat, c: Ctx) {
    && SiteOk(s) && i < |s.core.flows| && s.core.flows[i].live
    && SharedOk(c.shared) && SharedLater(s.shared, c.shared) && FlowOk(c.flow, c.shared)
    && PoolOk(c.pool) && c.pool.limit == s.core.pool.limit && Elsewhere(c) >= Elsewhere(CtxAt(s, i))
    && c.shared.ledger.active - s.shared.ledger.active == SlotsOf(c.flow) - SlotsOf(s.core.flows[i])
  }

  function Swapped(s: Site, i: nat, c: Ctx, free: seq<nat>): Site
    requires i < |s.core.flows|
  {
    var t := Stored(s, i, c);
    t.(core := t.core.(free := free))
  }

  lemma {:induction false} SwapPipes(s: Site, i: nat, c: Ctx, free: seq<nat>)
    requires Swap(s, i, c)
    ensures PipesOk(Swapped(s, i, c, free).core)
    ensures Elsewhere(c) == Elsewhere(CtxAt(s, i)) && Tight(s.core) ==> Tight(Swapped(s, i, c, free).core)
  {
    hide FlowOk, FlowsOk, SharedOk, SharedLater, PoolOk, Sum, Held, Slotted, HeldBy, SlotsOf, FreeOk;
    UpdateSums(s.core.flows, i, c.flow);
  }

  lemma {:induction false} SwapFlows(s: Site, i: nat, c: Ctx, free: seq<nat>)
    requires Swap(s, i, c)
    ensures FlowsOk(Swapped(s, i, c, free).core.flows, c.shared)
  {
    hide FlowOk, SharedOk, SharedLater, PoolOk, Sum, Held, Slotted, HeldBy, SlotsOf, FreeOk, PipesOk;
    FlowsOkLater(s.core.flows, s.shared, c.shared);
  }

  lemma {:induction false} SwapKeeps(s: Site, i: nat, c: Ctx, free: seq<nat>)
    requires Swap(s, i, c)
    requires free == if c.flow.live then s.core.free else s.core.free + [i]
    ensures SiteMoves(s, Swapped(s, i, c, free))
    ensures Elsewhere(c) == Elsewhere(CtxAt(s, i)) && Tight(s.core) ==> Tight(Swapped(s, i, c, free).core)
  {
    hide FlowOk, FlowsOk, SharedOk, SharedLater, PoolOk, PipesOk, Sum, Held, Slotted, HeldBy, SlotsOf, FreeOk,
         Elsewhere, Tight;
    SwapPipes(s, i, c, free);
    SwapFlows(s, i, c, free);
    UpdateSums(s.core.flows, i, c.flow);
    SwapFree(s.core.flows, i, c.flow, s.core.free, free);
  }

  lemma {:induction false} SwapFree(flows: seq<Flow>, i: nat, f: Flow, free: seq<nat>, after: seq<nat>)
    requires FreeOk(free, flows) && i < |flows| && flows[i].live
    requires after == if f.live then free else free + [i]
    ensures FreeOk(after, flows[i := f])
  {
    var now := flows[i := f];
    assert forall k :: 0 <= k < |free| ==> free[k] != i;
    forall j | 0 <= j < |now| && !now[j].live ensures j in after {
      if j != i {
        assert !flows[j].live;
      } else {
        assert after[|free|] == i;
      }
    }
  }

  lemma {:induction false} EffectSwaps(s: Site, i: nat, env: Env, o: Outcome)
    requires SiteOk(s) && i < |s.core.flows| && s.core.flows[i].live
    requires Effect(CtxAt(s, i), env, o)
    ensures o.ok ==> Swap(s, i, o.ctx)
    ensures !o.ok ==> Swap(s, i, Closed(o.ctx)) && !Closed(o.ctx).flow.live
    ensures Plentiful(env) && Tight(s.core) ==>
      Elsewhere(o.ctx) == Elsewhere(Closed(o.ctx)) == Elsewhere(CtxAt(s, i))
  {
    CtxIsOk(s, i);
    hide FlowOk, FlowsOk, SharedOk, PoolOk, CoreOk, Sum, Held, Slotted, HeldBy, SlotsOf, Steady, PumpsOk,
         Closed, Tight, Plentiful;
    assert Doomed(o.ctx) by {
      hide SharedLater;
      assert SlotsOf(s.core.flows[i]) <= s.shared.ledger.active;
    }
    ClosedKeeps(o.ctx);
    SharedLaterTrans(s.shared, o.ctx.shared, Closed(o.ctx).shared);
    hide SharedLater, Shape, Doomed;
  }

  /** Only the flow handled changes. */
  lemma {:induction false} ConcludedSlab(s: Site, i: nat, o: Outcome)
    requires i < |s.core.flows| && s.core.flows[i].live && Steady(s.core.flows[i], o.ctx.flow)
    ensures SlabKept(s.core.flows, Concluded(s, i, o).core.flows)
    ensures forall j :: 0 <= j < |s.core.flows| && j != i ==> Concluded(s, i, o).core.flows[j] == s.core.flows[j]
  {
    hide Closed, Later;
    assert !Closed(o.ctx).flow.live && Closed(o.ctx).flow.generation.None? by {
      ClosedIsVacant(o.ctx);
    }
    hide Steady;
    if !o.ok {
      ClosedStored(s, i, o.ctx);
    }
  }

  lemma ClosedIsVacant(c: Ctx)
    ensures !Closed(c).flow.live && Closed(c).flow.generation.None?
  {
  }

  /** A handler followed, if it gave up, by the teardown. */
  lemma {:induction false} ConcludedKeeps(s: Site, i: nat, env: Env, o: Outcome)
    requires SiteOk(s) && i < |s.core.flows| && s.core.flows[i].live
    requires Effect(CtxAt(s, i), env, o)
    ensures SiteMoves(s, Concluded(s, i, o))
    ensures SlabKept(s.core.flows, Concluded(s, i, o).core.flows)
    ensures forall j :: 0 <= j < |s.core.flows| && j != i ==> Concluded(s, i, o).core.flows[j] == s.core.flows[j]
    ensures Plentiful(env) && Tight(s.core) ==> Tight(Concluded(s, i, o).core)
  {
    EffectSwaps(s, i, env, o);
    EffectLives(CtxAt(s, i), env, o);
    hide Effect, Swap, Steady, SiteMoves, SiteOk, Elsewhere, Tight, Closed, Plentiful, SlabKept;
    ConcludedSlab(s, i, o);
    if o.ok {
      SwapKeeps(s, i, o.ctx, s.core.free);
      assert Concluded(s, i, o) == Swapped(s, i, o.ctx, s.core.free);
    } else {
      SwapKeeps(s, i, Closed(o.ctx), s.core.free + [i]);
      ClosedStored(s, i, o.ctx);
    }
  }

  lemma EffectLives(c: Ctx, env: Env, o: Outcome)
    requires Effect(c, env, o)
    ensures o.ctx.flow.live && Steady(c.flow, o.ctx.flow)
  {
  }

  lemma ClosedStored(s: Site, i: nat, c: Ctx)
    requires i < |s.core.flows| && c.flow.live
    ensures var t := Stored(s, i, Closed(c));
      CloseAt(Stored(s, i, c), i) == t.(core := t.core.(free := s.core.free + [i]))
  {
    hide Closed;
    assert s.core.flows[i := c.flow][i := Closed(c).flow] == s.core.flows[i := Closed(c).flow];
  }

  // ---- events and admission ----------------------------------------------------------------------------

  lemma {:induction false} ReadyKeeps(s: Site, i: nat, side: Side, failed: bool, env: Env)
    requires SiteOk(s)
    ensures SiteMoves(s, ReadyAt(s, i, side, failed, env))
    ensures SlabKept(s.core.flows, ReadyAt(s, i, side, failed, env).core.flows)
    ensures Plentiful(env) && Tight(s.core) ==> Tight(ReadyAt(s, i, side, failed, env).core)
  {
    hide SiteOk, SharedOk, Handled, Effect, Concluded, Plentiful, Tight, CtxOk, Steady;
    if i < |s.core.flows| && s.core.flows[i].live {
      CtxIsOk(s, i);
      HandledKeeps(CtxAt(s, i), side, failed, env);
      hide SiteMoves, SlabKept;
      ConcludedKeeps(s, i, env, Handled(CtxAt(s, i), side, failed, env));
    } else {
      Still(s);
    }
  }

  lemma {:induction false} Still(s: Site)
    requires SiteOk(s)
    ensures SiteMoves(s, s) && SlabKept(s.core.flows, s.core.flows)
  {
    hide SharedOk, CoreOk, Steady;
  }

  /** A connection fresh from `accept`. */
  ghost predicate FreshClient(client: Sock) { Untouched(client) }

  lemma {:induction false} PopFree(free: seq<nat>, flows: seq<Flow>, f: Flow)
    requires FreeOk(free, flows) && free != []
    ensures var last := |free| - 1;
      && free[last] < |flows| && !flows[free[last]].live
      && (f.live ==> FreeOk(free[..last], flows[free[last] := f]))
      && (!f.live ==> FreeOk(free, flows[free[last] := f]))
  {
    var last := |free| - 1;
    var index := free[last];
    var now := flows[index := f];
    forall i | 0 <= i < |now| && !now[i].live && i != index ensures i in free[..last] {
      assert !flows[i].live && i in free;
      var k :| 0 <= k < |free| && free[k] == i;
      assert free[..last][k] == i;
    }
    assert free[last] in free;
  }

  lemma {:induction false} FreshOk(a: Admission, s: Shared)
    requires a.destination.Some? && FreshClient(a.client) && s.gens != []
    ensures var f := Newcomer(a, Current(s)); FlowOk(f, s) && f.live == a.addOk && HeldBy(f) == 0 && SlotsOf(f) == 0
  {
  }

  /** A new flow starts with no pipe, no upstream, no rule and no stats row, so
      it leaves the pool and the gauge as they were. */
  lemma {:induction false} BornPipes(s: Site, a: Admission)
    requires SiteOk(s) && HasRoom(s) && a.destination.Some? && FreshClient(a.client)
    requires !s.core.flows[NextSlot(s)].live
    ensures var t := Born(s, a);
      && PipesOk(t.core) && Sum(Slotted(t.core.flows)) == Sum(Slotted(s.core.flows))
      && (Tight(s.core) ==> Tight(t.core))
  {
    var i := NextSlot(s);
    VacantHoldsNothing(s.core.flows[i], s.shared);
    FreshOk(a, s.shared);
    UpdateSums(s.core.flows, i, Newcomer(a, Current(s.shared)));
    hide FlowOk, FlowsOk, SharedOk, PoolOk, Sum, Held, Slotted, HeldBy, SlotsOf, FreeOk, Newcomer;
  }

  lemma VacantHoldsNothing(f: Flow, s: Shared)
    requires FlowOk(f, s) && !f.live
    ensures HeldBy(f) == 0 && SlotsOf(f) == 0
  {
  }

  lemma {:induction false} BornSlab(s: Site, a: Admission)
    requires SiteOk(s) && HasRoom(s) && a.destination.Some? && FreshClient(a.client)
    ensures !s.core.flows[NextSlot(s)].live
    ensures var t := Born(s, a);
      && FreeOk(t.core.free, t.core.flows) && FlowsOk(t.core.flows, s.shared)
      && forall j :: 0 <= j < |s.core.flows| && s.core.flows[j].live ==> t.core.flows[j] == s.core.flows[j]
  {
    FreshOk(a, s.shared);
    hide FlowOk, SharedOk, PipesOk, FreeOk, Newcomer;
    PopFree(s.core.free, s.core.flows, Newcomer(a, Current(s.shared)));
  }

  lemma {:induction false} BornKeeps(s: Site, a: Admission)
    requires SiteOk(s) && HasRoom(s) && a.destination.Some? && FreshClient(a.client)
    ensures var t := Born(s, a); SiteOk(t) && SiteMoves(s, t) && (Tight(s.core) ==> Tight(t.core))
  {
    BornSlab(s, a);
    BornPipes(s, a);
    SharedStays(s.shared);
    hide FlowOk, FlowsOk, SharedOk, PipesOk, Sum, Slotted, FreeOk, Newcomer, Tight, SharedLater;
  }

  lemma SharedStays(s: Shared)
    ensures SharedLater(s, s)
  {
  }

  lemma {:induction false} AdmitKeeps(s: Site, a: Admission, env: Env)
    requires SiteOk(s) && FreshClient(a.client)
    ensures SiteMoves(s, AdmitAt(s, a, env))
    ensures forall j :: 0 <= j < |s.core.flows| && s.core.flows[j].live ==>
      SlotKept(s.core.flows[j], AdmitAt(s, a, env).core.flows[j])
    ensures Plentiful(env) && Tight(s.core) ==> Tight(AdmitAt(s, a, env).core)
  {
    Still(s);
    assert s.shared.gens != [];
    if a.destination.Some? && HasRoom(s) {
      assert |Born(s, a).core.flows| == |s.core.flows|;
      hide SiteOk, ReadyAt, Tight, Plentiful, SlotKept, SiteMoves, Born, NextSlot;
      BornKeeps(s, a);
      BornSlab(s, a);
      var t := Born(s, a);
      if a.addOk {
        ReadyKeeps(t, NextSlot(s), ClientSide, false, env);
        SiteMovesTrans(s, t, ReadyAt(t, NextSlot(s), ClientSide, false, env));
      } else {
        forall j | 0 <= j < |s.core.flows| && s.core.flows[j].live ensures SlotKept(s.core.flows[j], t.core.flows[j]) {
          SlotStays(s.core.flows[j]);
        }
      }
    }
  }

  /** Whoever is admitted is the connection that was accepted, under the
      configuration current at that moment. */
  lemma {:induction false} AdmittedAsAsked(s: Site, a: Admission, env: Env, i: nat)
    requires SiteOk(s) && FreshClient(a.client) && i < |s.core.flows| && !s.core.flows[i].live
    requires |AdmitAt(s, a, env).core.flows| == |s.core.flows| && AdmitAt(s, a, env).core.flows[i].live
    ensures var f := AdmitAt(s, a, env).core.flows[i];
      && a.destination == Some((f.destination, f.dport)) && f.source == a.source && f.mode == a.mode
      && f.generation == Some(Current(s.shared))
      && f.client.Some? && Later(a.client, f.client.value)
  {
    assert a.destination.Some? && HasRoom(s);
    BornKeeps(s, a);
    var t := Born(s, a);
    if a.addOk {
      assert i == NextSlot(s) ==> t.core.flows[i] == Newcomer(a, Current(s.shared));
      assert i != NextSlot(s) ==> t.core.flows[i] == s.core.flows[i];
      hide SiteOk, ReadyAt, Born, SiteMoves, Later;
      ReadyKeeps(t, NextSlot(s), ClientSide, false, env);
      assert SlotKept(t.core.flows[i], ReadyAt(t, NextSlot(s), ClientSide, false, env).core.flows[i]);
      ClientStays(a.client);
    }
  }

  lemma ClientStays(s: Sock)
    ensures Later(s, s)
  {
  }

  lemma SlotStays(f: Flow)
    ensures SlotKept(f, f)
  {
  }

  /** What an error or hangup does to the flow at its index, whichever flow it was
      meant for: it ends one that is peeking, and one that is connecting if it
      comes from the upstream's side; to one that is connecting from the client's
      side it is nothing; and to one that relays it is an event like any other. */
  lemma {:induction false} FailureEvent(s: Site, i: nat, side: Side, env: Env)
    requires i < |s.core.flows| && s.core.flows[i].live
    ensures var after := ReadyAt(s, i, side, true, env);
      match s.core.flows[i].phase
      case Peeking => after == CloseAt(s, i)
      case Connecting => after == if side == UpstreamSide then CloseAt(s, i) else s
      case Relaying => after == ReadyAt(s, i, side, false, env)
  {
    hide Closed, Relayed;
    assert Stored(s, i, CtxAt(s, i)) == s by {
      assert s.core.flows[i := s.core.flows[i]] == s.core.flows;
    }
  }

  // ---- housekeeping --------------------------------------------------------------------------------------

  lemma {:induction false} CloseKeeps(s: Site, i: nat)
    requires SiteOk(s)
    ensures SiteMoves(s, CloseAt(s, i)) && SlabKept(s.core.flows, CloseAt(s, i).core.flows)
    ensures Tight(s.core) ==> Tight(CloseAt(s, i).core)
  {
    Still(s);
    if i < |s.core.flows| && s.core.flows[i].live {
      var c := CtxAt(s, i);
      CtxIsOk(s, i);
      NothingMoves(c, CALM_ENV);
      assert s.core.flows[i := s.core.flows[i]] == s.core.flows;
      assert Stored(s, i, c) == s;
      var o := Outcome(c, false);
      assert Concluded(s, i, o) == CloseAt(s, i);
      GivenUpKeeps(s, i, o);
    }
  }

  /** Closing needs nothing of the kernel. */
  lemma {:induction false} GivenUpKeeps(s: Site, i: nat, o: Outcome)
    requires SiteOk(s) && i < |s.core.flows| && s.core.flows[i].live
    requires o == Outcome(CtxAt(s, i), false) && Moves(CtxAt(s, i), CALM_ENV, o.ctx)
    ensures SiteMoves(s, Concluded(s, i, o))
    ensures SlabKept(s.core.flows, Concluded(s, i, o).core.flows)
    ensures Tight(s.core) ==> Tight(Concluded(s, i, o).core)
  {
    var willing := CALM_ENV.(outPipe := Some(0), inPipe := Some(0));
    assert Effect(CtxAt(s, i), willing, o) by {
      hide SharedOk, SharedLater, PoolOk, PumpsOk, Steady, FlowOk, SiteOk;
    }
    hide SiteOk, Moves, Effect, SiteMoves, SlabKept, Tight, Concluded;
    ConcludedKeeps(s, i, willing, o);
  }

  lemma {:induction false} CloseAllKeeps(s: Site, pending: seq<nat>)
    requires SiteOk(s)
    ensures SiteMoves(s, CloseAll(s, pending)) && SlabKept(s.core.flows, CloseAll(s, pending).core.flows)
    ensures Tight(s.core) ==> Tight(CloseAll(s, pending).core)
    decreases |pending|
  {
    hide SiteOk, CloseAt, SlabKept, Tight;
    if pending == [] {
      Still(s);
    } else {
      var last := |pending| - 1;
      var t := CloseAll(s, pending[..last]);
      CloseAllKeeps(s, pending[..last]);
      CloseKeeps(t, pending[last]);
      SiteMovesTrans(s, t, CloseAt(t, pending[last]));
      SlabKeptTrans(s.core.flows, t.core.flows, CloseAt(t, pending[last]).core.flows);
    }
  }

  /** Only a relaying flow ever has a timer. */
  lemma DueRelays(f: Flow, s: Shared, now: nat)
    requires FlowOk(f, s) && IsDue(f, now)
    ensures f.phase == Relaying
  {
  }

  /** The flows to be resumed are those whose timer has come, each once. */
  lemma {:induction false} DueIs(flows: seq<Flow>, now: nat)
    ensures var d := Due(flows, now);
      && (forall k :: 0 <= k < |d| ==> d[k] < |flows|)
      && (forall j, k :: 0 <= j < k < |d| ==> d[j] < d[k])
      && (forall i :: 0 <= i < |flows| ==>
            (i in d <==> flows[i].live && flows[i].retryAt.Some? && flows[i].retryAt.value <= now))
  {
    DueAre(flows, now);
    hide Due;
  }

  lemma {:induction false} DueAre(flows: seq<Flow>, now: nat)
    ensures var d := Due(flows, now);
      && (forall k :: 0 <= k < |d| ==> d[k] < |flows| && IsDue(flows[d[k]], now))
      && (forall j, k :: 0 <= j < k < |d| ==> d[j] < d[k])
      && (forall i :: 0 <= i < |flows| && IsDue(flows[i], now) ==> i in d)
    decreases |flows|
  {
    hide IsDue;
    if flows != [] {
      var last := |flows| - 1;
      DueAre(flows[..last], now);
      var d := Due(flows[..last], now);
      forall i | 0 <= i < |flows| && IsDue(flows[i], now) ensures i in Due(flows, now) {
        if i < last {
          assert flows[..last][i] == flows[i];
          assert i in d;
        } else {
          assert Due(flows, now)[|d|] == last;
        }
      }
    }
  }

  lemma {:induction false} IdlersAre(flows: seq<Flow>, now: nat, limit: nat)
    ensures forall i :: 0 <= i < |flows| && IsIdle(flows[i], now, limit) ==> i in Idlers(flows, now, limit)
    ensures forall i :: i in Idlers(flows, now, limit) ==> i < |flows| && IsIdle(flows[i], now, limit)
    decreases |flows|
  {
    hide IsIdle;
    if flows != [] {
      var last := |flows| - 1;
      IdlersAre(flows[..last], now, limit);
      forall i | 0 <= i < |flows| && IsIdle(flows[i], now, limit) ensures i in Idlers(flows, now, limit) {
        if i < last {
          assert flows[..last][i] == flows[i];
        }
      }
    }
  }

  lemma {:induction false} ResumeKeeps(s: Site, i: nat, env: Env)
    requires SiteOk(s) && i < |s.core.flows| && s.core.flows[i].live && s.core.flows[i].phase == Relaying
    ensures SiteMoves(s, ResumeAt(s, i, env)) && SlabKept(s.core.flows, ResumeAt(s, i, env).core.flows)
    ensures forall j :: 0 <= j < |s.core.flows| && j != i ==> ResumeAt(s, i, env).core.flows[j] == s.core.flows[j]
    ensures Plentiful(env) && Tight(s.core) ==> Tight(ResumeAt(s, i, env).core)
  {
    hide SiteOk, Resumed, Effect, Concluded, Plentiful, Tight, CtxOk, SiteMoves, SlabKept;
    CtxIsOk(s, i);
    ResumedKeeps(CtxAt(s, i), env);
    ConcludedKeeps(s, i, env, Resumed(CtxAt(s, i), env));
  }

  ghost predicate AllPlentiful(envs: seq<Env>, n: nat) { forall i :: 0 <= i < n ==> Plentiful(EnvFor(envs, i)) }

  /** A list of different slots that all hold relaying flows. */
  ghost predicate AreRelaying(flows: seq<Flow>, pending: seq<nat>) {
    && (forall k :: 0 <= k < |pending| ==>
          pending[k] < |flows| && flows[pending[k]].live && flows[pending[k]].phase == Relaying)
    && (forall j, k :: 0 <= j < k < |pending| ==> pending[j] < pending[k])
  }

  /** Each flow in the list is still the relaying flow it was when its turn comes. */
  lemma {:induction false} ResumeAllKeeps(s: Site, pending: seq<nat>, envs: seq<Env>)
    requires SiteOk(s)
    requires AreRelaying(s.core.flows, pending)
    ensures var t := ResumeAll(s, pending, envs);
      && SiteMoves(s, t) && SlabKept(s.core.flows, t.core.flows)
      && (forall j :: 0 <= j < |s.core.flows| && j !in pending ==> t.core.flows[j] == s.core.flows[j])
      && (AllPlentiful(envs, |s.core.flows|) && Tight(s.core) ==> Tight(t.core))
    decreases |pending|
  {
    hide SiteOk, ResumeAt, SlabKept, Tight, Plentiful, EnvFor;
    if pending == [] {
      Still(s);
    } else {
      var last := |pending| - 1;
      var i := pending[last];
      ResumeAllKeeps(s, pending[..last], envs);
      var t := ResumeAll(s, pending[..last], envs);
      assert i !in pending[..last];
      hide SharedLater, Slotted, Sum;
      assert t.core.flows[i] == s.core.flows[i] && SiteOk(t);
      ResumeKeeps(t, i, EnvFor(envs, i));
      var u := ResumeAt(t, i, EnvFor(envs, i));
      SiteMovesTrans(s, t, u);
      SlabKeptTrans(s.core.flows, t.core.flows, u.core.flows);
      forall j | 0 <= j < |s.core.flows| && j !in pending ensures u.core.flows[j] == s.core.flows[j] {
        assert i in pending;
        assert j !in pending[..last];
      }
    }
  }

  lemma {:induction false} DueAreRelaying(s: Site, now: nat)
    requires SiteOk(s)
    ensures AreRelaying(s.core.flows, Due(s.core.flows, now))
  {
    DueAre(s.core.flows, now);
    var d := Due(s.core.flows, now);
    hide FlowOk, Due, SharedOk, FreeOk, PipesOk;
    forall k | 0 <= k < |d|
      ensures s.core.flows[d[k]].live && s.core.flows[d[k]].phase == Relaying
    {
      DueRelays(s.core.flows[d[k]], s.shared, now);
    }
  }

  lemma {:induction false} SweepMoves(s: Site, now: nat)
    requires SiteOk(s)
    ensures var t := s.(core := s.core.(lastSweep := now)); SiteMoves(s, t) && (Tight(s.core) ==> Tight(t.core))
  {
    SharedStays(s.shared);
    hide FlowsOk, SharedOk, PoolOk, FreeOk, SharedLater;
  }

  lemma {:induction false} MaintainKeeps(s: Site, now: nat, envs: seq<Env>)
    requires SiteOk(s)
    ensures s.shared.gens != []
    ensures var t := Maintained(s, now, envs);
      && SiteMoves(s, t) && SlabKept(s.core.flows, t.core.flows)
      && (AllPlentiful(envs, |s.core.flows|) && Tight(s.core) ==> Tight(t.core))
  {
    assert s.shared.gens != [];
    DueAreRelaying(s, now);
    hide SiteOk, AreRelaying, Due, Idlers, ResumeAll, CloseAll, SlabKept, Tight, AllPlentiful;
    var pending := Due(s.core.flows, now);
    ResumeAllKeeps(s, pending, envs);
    var t := ResumeAll(s, pending, envs);
    if Max(now - t.core.lastSweep, 0) >= SWEEP_INTERVAL {
      ReapKeeps(t, now);
      var u := Reaped(t, now);
      SiteMovesTrans(s, t, u);
      SlabKeptTrans(s.core.flows, t.core.flows, u.core.flows);
    }
  }

  lemma {:induction false} ReapKeeps(s: Site, now: nat)
    requires SiteOk(s) && s.shared.gens != []
    ensures SiteMoves(s, Reaped(s, now)) && SlabKept(s.core.flows, Reaped(s, now).core.flows)
    ensures Tight(s.core) ==> Tight(Reaped(s, now).core)
  {
    Still(s);
    SweepMoves(s, now);
    hide SiteOk, CloseAll, SlabKept, Tight, Idlers;
    var t := s.(core := s.core.(lastSweep := now));
    var pending := Idlers(t.core.flows, now, IdleSecs(s.shared) * SECOND);
    CloseAllKeeps(t, pending);
    SiteMovesTrans(s, t, CloseAll(t, pending));
  }
}
