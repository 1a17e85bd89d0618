/** The whole proxy as a state machine: every worker, everything shared, and an
    environment free to deliver any event for any index at any time, refuse any
    system call, reload the configuration and take exits up or down. */
module Worlds {
  import opened Basics
  import opened ConfigFile
  import opened Kernel
  import opened Pass
  import opened PassTheorems
  import opened Stats
  import opened Server
  import opened Flows
  import opened FlowTheorems
  import opened Workers
  import opened SiteTheorems
  import ConfigTheorems

  datatype World = World(cores: seq<Core>, shared: Shared)

  /** What can happen at one worker. */
  datatype Job =
    | Accept(arrived: Arrival, source: bv32, destination: Option<(bv32, nat)>, mode: PeekMode,
             now: nat, addOk: bool, env: Env)
    | Event(index: nat, side: Side, failed: bool, consumed: bool, env: Env)
    | Housekeeping(now: nat, envs: seq<Env>)
    | Resuming(now: nat, index: nat, env: Env)
    | Reaping(now: nat)
    | Arrivals(index: nat, client: Arrival, upstream: Arrival)

  datatype Happening =
    | Work(w: nat, job: Job)
    | Reload(text: Option<string>, now: nat, up: set<string>)
    | Sweep(generation: nat, up: set<string>)

  function SiteOf(x: World, w: nat): Site
    requires w < |x.cores|
  {
    Site(x.cores[w], x.shared)
  }

  function WithSite(x: World, w: nat, s: Site): World
    requires w < |x.cores|
  {
    World(x.cores[w := s.core], s.shared)
  }

  /** Delivering an edge uses it up. */
  function Unedged(s: Option<Sock>): Option<Sock> {
    if s.None? then None else Some(s.value.(readEdge := false, writeEdge := false))
  }

  function Cleared(f: Flow, side: Side): Flow {
    if side == ClientSide then f.(client := Unedged(f.client)) else f.(upstream := Unedged(f.upstream))
  }

  function EventAt(s: Site, i: nat, side: Side, failed: bool, consumed: bool, env: Env): Site {
    if i >= |s.core.flows| || !s.core.flows[i].live || !consumed then ReadyAt(s, i, side, failed, env)
    else ReadyAt(s.(core := s.core.(flows := s.core.flows[i := Cleared(s.core.flows[i], side)])), i, side, failed, env)
  }

  function Reached(s: Option<Sock>, a: Arrival): Option<Sock> { if s.None? then None else Some(Arrive(s.value, a)) }

  function Fed(f: Flow, client: Arrival, upstream: Arrival): Flow {
    f.(client := Reached(f.client, client), upstream := Reached(f.upstream, upstream))
  }

  function FedAt(s: Site, i: nat, client: Arrival, upstream: Arrival): Site {
    if i >= |s.core.flows| then s
    else s.(core := s.core.(flows := s.core.flows[i := Fed(s.core.flows[i], client, upstream)]))
  }

  function AdmissionOf(job: Job): Admission
    requires job.Accept?
  {
    Admission(Arrive(Kernel.Opened(0, None), job.arrived), job.source, job.destination, job.mode, job.now, job.addOk)
  }

  /** One turn of the housekeeping on its own, so that other workers, reloads and
      sweeps can come between two of them. */
  function ResumeIfDue(s: Site, now: nat, i: nat, env: Env): Site {
    if i < |s.core.flows| && IsDue(s.core.flows[i], now) then ResumeAt(s, i, env) else s
  }

  function JobDone(s: Site, job: Job): Site
    requires s.shared.gens != []
  {
    match job
    case Accept(_, _, _, _, _, _, env) => AdmitAt(s, AdmissionOf(job), env)
    case Event(index, side, failed, consumed, env) => EventAt(s, index, side, failed, consumed, env)
    case Housekeeping(now, envs) => Maintained(s, now, envs)
    case Resuming(now, index, env) => ResumeIfDue(s, now, index, env)
    case Reaping(now) => Reaped(s, now)
    case Arrivals(index, client, upstream) => FedAt(s, index, client, upstream)
  }

  /** A step aimed at a worker or generation that does not exist does nothing. */
  function Took(x: World, step: Happening): World
    requires x.shared.gens != []
  {
    match step
    case Work(w, job) => if w < |x.cores| then WithSite(x, w, JobDone(SiteOf(x, w), job)) else x
    case Reload(text, now, up) => x.(shared := Reloaded(x.shared, text, now, up))
    case Sweep(g, up) => if g < |x.shared.gens| then x.(shared := Swept(x.shared, g, up)) else x
  }

  /** The proxy as it starts. */
  function Launched(config: Config, nproc: nat, now: nat, up: set<string>): World {
    World(seq(WorkerCount(config.limits, nproc),
              _ => NewCore(PerWorker(config.limits, nproc), config.limits.pipeBytes, now)),
          Shared([NewGeneration(config, now, up)], Stats.Fresh()))
  }

  // ---- the invariant -----------------------------------------------------------------------------

  function Gauges(cores: seq<Core>): seq<nat> {
    seq(|cores|, w requires 0 <= w < |cores| => Sum(Slotted(cores[w].flows)))
  }

  ghost predicate CoresOk(cores: seq<Core>, s: Shared) { forall w :: 0 <= w < |cores| ==> CoreOk(cores[w], s) }

  /** The gauge counts the live flows that hold a stats row, over all workers. */
  ghost predicate WorldOk(x: World) {
    SharedOk(x.shared) && CoresOk(x.cores, x.shared) && x.shared.ledger.active == Sum(Gauges(x.cores))
  }

  ghost predicate AllTight(x: World) { forall w :: 0 <= w < |x.cores| ==> Tight(x.cores[w]) }

  /** Every pipe asked for is created. */
  ghost predicate PipesCome(job: Job) {
    match job
    case Accept(_, _, _, _, _, _, env) => Plentiful(env)
    case Event(_, _, _, _, env) => Plentiful(env)
    case Housekeeping(_, envs) => forall i :: Plentiful(EnvFor(envs, i))
    case Resuming(_, _, env) => Plentiful(env)
    case Reaping(_) => true
    case Arrivals(_, _, _) => true
  }

  lemma {:induction false} SiteIsOk(x: World, w: nat)
    requires WorldOk(x) && w < |x.cores|
    ensures SiteOk(SiteOf(x, w))
  {
    hide SharedOk, CoreOk, Sum, Slotted;
    SumUpdate(Gauges(x.cores), w, 0);
  }

  lemma {:induction false} CoreOkLater(c: Core, s: Shared, t: Shared)
    requires CoreOk(c, s) && SharedLater(s, t)
    ensures CoreOk(c, t)
  {
    hide FlowsOk, FreeOk, PipesOk, SharedLater;
    FlowsOkLater(c.flows, s, t);
  }

  lemma {:induction false} WithSiteOk(x: World, w: nat, t: Site)
    requires WorldOk(x) && w < |x.cores| && SiteMoves(SiteOf(x, w), t)
    ensures WorldOk(WithSite(x, w, t))
  {
    hide SharedOk, CoreOk, Sum, Slotted, SharedLater;
    var y := WithSite(x, w, t);
    SumUpdate(Gauges(x.cores), w, Sum(Slotted(t.core.flows)));
    assert Gauges(y.cores) == Gauges(x.cores)[w := Sum(Slotted(t.core.flows))];
    forall v | 0 <= v < |y.cores| ensures CoreOk(y.cores[v], t.shared) {
      if v != w {
        CoreOkLater(x.cores[v], x.shared, t.shared);
      }
    }
  }

  lemma {:induction false} WithSharedOk(x: World, t: Shared)
    requires WorldOk(x) && SharedOk(t) && SharedLater(x.shared, t) && t.ledger.active == x.shared.ledger.active
    ensures WorldOk(x.(shared := t))
  {
    hide SharedOk, CoreOk, Sum, Slotted, SharedLater;
    forall v | 0 <= v < |x.cores| ensures CoreOk(x.cores[v], t) {
      CoreOkLater(x.cores[v], x.shared, t);
    }
  }

  // ---- arrivals and edges ----------------------------------------------------------------------------

  /** Whatever reaches the sockets of a flow, it stays routed as it was and
      anything it was waiting for raises an event. */
  lemma {:induction false} FedOk(f: Flow, s: Shared, a: Arrival, b: Arrival)
    requires FlowOk(f, s)
    ensures FlowOk(Fed(f, a, b), s) && (f.live ==> Steady(f, Fed(f, a, b)))
    ensures HeldBy(Fed(f, a, b)) == HeldBy(f) && SlotsOf(Fed(f, a, b)) == SlotsOf(f) && Fed(f, a, b).live == f.live
  {
    var g := Fed(f, a, b);
    if f.live {
      FedSteady(f, a, b);
      if f.upstream.Some? {
        PinnedLater(f, g, s.gens, s.gens);
      }
      if f.phase == Relaying {
        FedLink(f, a, b);
      }
      ArriveLater(f.client.value, a);
      if f.upstream.Some? {
        ArriveLater(f.upstream.value, b);
      }
    }
    hide Pinned, Carries, Settled, Awake, Steady, Arrive;
  }

  lemma {:induction false} FedSteady(f: Flow, a: Arrival, b: Arrival)
    requires f.live && f.client.Some?
    ensures Steady(f, Fed(f, a, b))
  {
    hide Arrive, Later;
    ArriveLater(f.client.value, a);
    if f.upstream.Some? {
      ArriveLater(f.upstream.value, b);
    }
  }

  lemma {:induction false} FedLink(f: Flow, a: Arrival, b: Arrival)
    requires Carries(f) && Settled(LinkOf(f, [])) && Awake(f)
    ensures var g := Fed(f, a, b); Carries(g) && Settled(LinkOf(g, [])) && Awake(g)
  {
    var k := LinkOf(f, []);
    ArriveFaithful(k.out, k.client, k.upstream, a, b);
    ArriveFaithful(k.back, k.upstream, k.client, b, a);
    ArriveLinkQuiet(k, a, b, f.retryAt.Some? || f.lastRead >= USIZE_MAX);
    ArriveLater(k.client, a);
    ArriveLater(k.upstream, b);
    hide Arrive, Faithful, LinkQuiet, Later, Settled;
    assert LinkOf(Fed(f, a, b), []) == k.(client := Arrive(k.client, a), upstream := Arrive(k.upstream, b));
    assert Settled(LinkOf(Fed(f, a, b), [])) by {
      SettledPumps(k, LinkOf(Fed(f, a, b), []));
    }
  }

  lemma SettledPumps(k: Link, m: Link)
    requires Settled(k) && m.out == k.out && m.back == k.back
    ensures Settled(m)
  {
  }

  /** A flow changed in nothing the pool or the gauge counts. */
  lemma {:induction false} SamePipes(s: Site, i: nat, g: Flow)
    requires SiteOk(s) && i < |s.core.flows|
    requires HeldBy(g) == HeldBy(s.core.flows[i]) && SlotsOf(g) == SlotsOf(s.core.flows[i])
    ensures var t := s.(core := s.core.(flows := s.core.flows[i := g]));
      && PipesOk(t.core) && Sum(Slotted(t.core.flows)) == Sum(Slotted(s.core.flows))
      && (Tight(s.core) ==> Tight(t.core))
  {
    UpdateSums(s.core.flows, i, g);
    hide FlowsOk, SharedOk, PoolOk, Sum, Held, Slotted, HeldBy, SlotsOf, FreeOk;
  }

  lemma {:induction false} SameKeeps(s: Site, i: nat, g: Flow)
    requires SiteOk(s) && i < |s.core.flows| && FlowOk(g, s.shared) && g.live == s.core.flows[i].live
    requires HeldBy(g) == HeldBy(s.core.flows[i]) && SlotsOf(g) == SlotsOf(s.core.flows[i])
    requires SlotKept(s.core.flows[i], g)
    ensures var t := s.(core := s.core.(flows := s.core.flows[i := g]));
      SiteMoves(s, t) && SlabKept(s.core.flows, t.core.flows) && (Tight(s.core) ==> Tight(t.core))
  {
    SamePipes(s, i, g);
    FedFree(s.core.free, s.core.flows, i, g);
    SharedStays(s.shared);
    hide FlowOk, SharedOk, PipesOk, Sum, Held, Slotted, HeldBy, SlotsOf, FreeOk, SharedLater, Steady, Tight;
    assert FlowsOk(s.core.flows[i := g], s.shared);
    hide FlowsOk;
  }

  lemma {:induction false} FedKeeps(s: Site, i: nat, a: Arrival, b: Arrival)
    requires SiteOk(s)
    ensures SiteMoves(s, FedAt(s, i, a, b)) && SlabKept(s.core.flows, FedAt(s, i, a, b).core.flows)
    ensures Tight(s.core) ==> Tight(FedAt(s, i, a, b).core)
  {
    Still(s);
    if i < |s.core.flows| {
      var f, g := s.core.flows[i], Fed(s.core.flows[i], a, b);
      assert FlowOk(f, s.shared) by {
        hide FlowOk, SharedOk;
      }
      hide SiteOk, FlowOk, Steady, SiteMoves, SlabKept, Tight, HeldBy, SlotsOf;
      FedOk(f, s.shared, a, b);
      if !f.live {
        VacantFed(f, s.shared, a, b);
      }
      hide Fed;
      SameKeeps(s, i, g);
    }
  }

  lemma VacantFed(f: Flow, s: Shared, a: Arrival, b: Arrival)
    requires FlowOk(f, s) && !f.live
    ensures Fed(f, a, b) == f
  {
  }

  lemma FedFree(free: seq<nat>, flows: seq<Flow>, i: nat, f: Flow)
    requires FreeOk(free, flows) && i < |flows| && f.live == flows[i].live
    ensures FreeOk(free, flows[i := f])
  {
  }

  /** Using up an edge leaves all but the wakeups as they were, and the handler it
      is delivered to restores those. */
  lemma {:induction false} ClearedReady(f: Flow, s: Shared, side: Side)
    requires FlowOk(f, s) && f.live
    ensures var g := Cleared(f, side);
      && Steady(f, g) && PumpsOk(g) && HeldBy(g) == HeldBy(f) && SlotsOf(g) == SlotsOf(f) && g.phase == f.phase
      && (f.phase == Relaying ==> RelayReady(g, s))
      && (f.phase != Relaying ==> FlowOk(g, s))
  {
    var g := Cleared(f, side);
    ClearedSteady(f, side);
    if f.upstream.Some? {
      PinnedLater(f, g, s.gens, s.gens);
    }
    hide Pinned, Steady, Awake, Settled, Faithful, PumpOk;
    if f.phase == Relaying {
      ClearedFaithful(f, side);
    }
    hide Carries;
  }

  lemma {:induction false} ClearedSteady(f: Flow, side: Side)
    requires f.live && f.client.Some?
    ensures Steady(f, Cleared(f, side))
  {
  }

  lemma {:induction false} ClearedFaithful(f: Flow, side: Side)
    requires Carries(f)
    ensures Carries(Cleared(f, side)) && PumpsOk(Cleared(f, side))
  {
    assert LinkFaithful(LinkOf(f, []));
    assert LinkFaithful(LinkOf(Cleared(f, side), []));
  }

  lemma {:induction false} ClearedEffect(c: Ctx, side: Side, failed: bool, env: Env)
    requires CtxOk(c)
    ensures Effect(c, env, Handled(c.(flow := Cleared(c.flow, side)), side, failed, env))
  {
    var d := c.(flow := Cleared(c.flow, side));
    ClearedReady(c.flow, c.shared, side);
    SharedStays(c.shared);
    assert Moves(c, env, d) by {
      hide FlowOk, SharedOk, SharedLater, PoolOk, Steady, PumpsOk, Cleared, HeldBy, SlotsOf, RelayReady;
    }
    hide FlowOk, SharedOk, PoolOk, Steady, PumpsOk, Cleared, Moves, RelayReady, HeldBy;
    if c.flow.phase == Relaying {
      RelayedKeeps(d, env);
      hide Relayed;
    } else {
      HandledKeeps(d, side, failed, env);
      hide Handled;
    }
    MovesTrans(c, env, d, Handled(d, side, failed, env).ctx);
  }

  lemma {:induction false} EventKeeps(s: Site, i: nat, side: Side, failed: bool, consumed: bool, env: Env)
    requires SiteOk(s)
    ensures var t := EventAt(s, i, side, failed, consumed, env);
      && SiteMoves(s, t) && SlabKept(s.core.flows, t.core.flows)
      && (Plentiful(env) && Tight(s.core) ==> Tight(t.core))
  {
    hide SiteOk, SiteMoves, SlabKept, Handled, Effect, Tight, Plentiful, Closed, CtxOk;
    if i >= |s.core.flows| || !s.core.flows[i].live || !consumed {
      hide ReadyAt;
      ReadyKeeps(s, i, side, failed, env);
    } else {
      CtxIsOk(s, i);
      var c := CtxAt(s, i);
      ClearedEffect(c, side, failed, env);
      var o := Handled(c.(flow := Cleared(c.flow, side)), side, failed, env);
      ConcludedKeeps(s, i, env, o);
      ClearedThenConcluded(s, i, Cleared(c.flow, side), o);
      hide Concluded;
    }
  }

  lemma ClearedThenConcluded(s: Site, i: nat, f: Flow, o: Outcome)
    requires i < |s.core.flows|
    ensures Concluded(s.(core := s.core.(flows := s.core.flows[i := f])), i, o) == Concluded(s, i, o)
  {
    hide Closed;
    assert s.core.flows[i := f][i := o.ctx.flow] == s.core.flows[i := o.ctx.flow];
  }

  // ---- every run ---------------------------------------------------------------------------------------

  /** A worker's slab across a step: live flows keep their route. */
  ghost predicate LiveKept(flows: seq<Flow>, after: seq<Flow>) {
    |after| == |flows| && forall j :: 0 <= j < |flows| && flows[j].live ==> SlotKept(flows[j], after[j])
  }

  lemma {:induction false} JobKeeps(s: Site, job: Job)
    requires SiteOk(s)
    ensures s.shared.gens != []
    ensures var t := JobDone(s, job);
      && SiteMoves(s, t) && LiveKept(s.core.flows, t.core.flows)
      && (!job.Accept? ==> SlabKept(s.core.flows, t.core.flows))
      && (PipesCome(job) && Tight(s.core) ==> Tight(t.core))
  {
    assert s.shared.gens != [];
    hide SiteOk, AdmitAt, EventAt, Maintained, Reaped, ResumeIfDue, FedAt, Tight, Plentiful, SlotKept;
    match job
    case Accept(_, _, _, _, _, _, env) =>
      ArriveLater(Kernel.Opened(0, None), job.arrived);
      AdmitKeeps(s, AdmissionOf(job), env);
    case Event(index, side, failed, consumed, env) => EventKeeps(s, index, side, failed, consumed, env);
    case Housekeeping(now, envs) => MaintainKeeps(s, now, envs);
    case Resuming(now, index, env) => ResumeIfDueKeeps(s, now, index, env);
    case Reaping(now) => ReapKeeps(s, now);
    case Arrivals(index, client, upstream) => FedKeeps(s, index, client, upstream);
  }

  lemma {:induction false} ResumeIfDueKeeps(s: Site, now: nat, i: nat, env: Env)
    requires SiteOk(s)
    ensures SiteMoves(s, ResumeIfDue(s, now, i, env)) && SlabKept(s.core.flows, ResumeIfDue(s, now, i, env).core.flows)
    ensures Plentiful(env) && Tight(s.core) ==> Tight(ResumeIfDue(s, now, i, env).core)
  {
    Still(s);
    if i < |s.core.flows| && IsDue(s.core.flows[i], now) {
      CtxIsOk(s, i);
      DueRelays(s.core.flows[i], s.shared, now);
      hide SiteOk, ResumeAt, SiteMoves, SlabKept, Tight, Plentiful;
      ResumeKeeps(s, i, env);
    }
  }

  /** The housekeeping is exactly those turns, one for each flow that was due when
      it began, and then the reaping. */
  lemma {:induction false} HousekeepingIsTurns(s: Site, now: nat, envs: seq<Env>, k: nat)
    requires SiteOk(s) && k < |Due(s.core.flows, now)|
    ensures var d := Due(s.core.flows, now);
      ResumeAll(s, d[..k + 1], envs) == ResumeIfDue(ResumeAll(s, d[..k], envs), now, d[k], EnvFor(envs, d[k]))
    ensures s.shared.gens != []
    ensures Maintained(s, now, envs) == Reaped(ResumeAll(s, Due(s.core.flows, now), envs), now)
  {
    assert s.shared.gens != [];
    var d := Due(s.core.flows, now);
    hide SiteOk, Due, ResumeAll, AreRelaying, Reaped, IsDue, ResumeIfDue;
    DueAre(s.core.flows, now);
    DueAreRelaying(s, now);
    NextTurn(s, d, now, envs, k);
  }

  lemma {:induction false} NextTurn(s: Site, d: seq<nat>, now: nat, envs: seq<Env>, k: nat)
    requires SiteOk(s) && k < |d| && AreRelaying(s.core.flows, d)
    requires d[k] < |s.core.flows| && IsDue(s.core.flows[d[k]], now)
    ensures ResumeAll(s, d[..k + 1], envs) == ResumeIfDue(ResumeAll(s, d[..k], envs), now, d[k], EnvFor(envs, d[k]))
  {
    hide SiteOk, ResumeAt, ResumeAll, IsDue, AreRelaying, EnvFor;
    TurnFinds(s, d, envs, k);
    LastTurn(s, d[..k + 1], envs);
    assert d[..k + 1][..k] == d[..k];
  }

  /** Turns of other flows leave a flow as it was. */
  lemma {:induction false} TurnFinds(s: Site, d: seq<nat>, envs: seq<Env>, k: nat)
    requires SiteOk(s) && k < |d| && AreRelaying(s.core.flows, d) && d[k] < |s.core.flows|
    ensures var t := ResumeAll(s, d[..k], envs);
      |t.core.flows| == |s.core.flows| && t.core.flows[d[k]] == s.core.flows[d[k]]
  {
    OthersFirst(s.core.flows, d, k);
    hide SiteOk, ResumeAll, SlabKept, AreRelaying, SiteMoves, EnvFor;
    ResumeAllKeeps(s, d[..k], envs);
    SameSlab(s, ResumeAll(s, d[..k], envs));
  }

  lemma OthersFirst(flows: seq<Flow>, d: seq<nat>, k: nat)
    requires k < |d| && AreRelaying(flows, d)
    ensures AreRelaying(flows, d[..k]) && d[k] !in d[..k]
  {
  }

  lemma LastTurn(s: Site, pending: seq<nat>, envs: seq<Env>)
    requires pending != []
    ensures var last := |pending| - 1;
      ResumeAll(s, pending, envs)
        == ResumeAt(ResumeAll(s, pending[..last], envs), pending[last], EnvFor(envs, pending[last]))
  {
    hide ResumeAt;
  }

  lemma SameSlab(s: Site, t: Site)
    requires SiteMoves(s, t)
    ensures |t.core.flows| == |s.core.flows|
  {
  }

  /** Does this job admit a connection into slot `i`? */
  predicate Fills(s: Site, job: Job, i: nat) {
    job.Accept? && job.destination.Some? && HasRoom(s) && i == NextSlot(s)
  }

  predicate VacantWithGeneration(f: Flow) { !f.live && f.generation.Some? }

  lemma {:induction false} KeptGeneration(f: Flow, g: Flow)
    requires SlotKept(f, g)
    ensures VacantWithGeneration(g) <==> VacantWithGeneration(f)
  {
    hide Steady;
  }

  lemma {:induction false} BornGeneration(s: Site, a: Admission, i: nat)
    requires s.shared.gens != [] && a.destination.Some? && HasRoom(s) && i < |s.core.flows|
    ensures |Born(s, a).core.flows| == |s.core.flows|
    ensures VacantWithGeneration(Born(s, a).core.flows[i]) <==>
      if i == NextSlot(s) then !a.addOk else VacantWithGeneration(s.core.flows[i])
  {
  }

  lemma {:induction false} AdmitGeneration(s: Site, a: Admission, env: Env, i: nat)
    requires SiteOk(s) && FreshClient(a.client) && s.shared.gens != [] && i < |s.core.flows|
    ensures |AdmitAt(s, a, env).core.flows| == |s.core.flows|
    ensures VacantWithGeneration(AdmitAt(s, a, env).core.flows[i]) <==>
      if a.destination.Some? && HasRoom(s) && i == NextSlot(s) then !a.addOk
      else VacantWithGeneration(s.core.flows[i])
  {
    hide SiteOk, ReadyAt, Born, SiteMoves, VacantWithGeneration, SlotKept, NextSlot, FreshClient, HasRoom;
    if a.destination.Some? && HasRoom(s) {
      BornGeneration(s, a, i);
      BornKeeps(s, a);
      if a.addOk {
        var t := ReadyAt(Born(s, a), NextSlot(s), ClientSide, false, env);
        ReadyKeeps(Born(s, a), NextSlot(s), ClientSide, false, env);
        KeptGeneration(Born(s, a).core.flows[i], t.core.flows[i]);
      }
    }
  }

  /** A vacant slot holds on to a generation exactly if the last connection that
      was given the slot failed to register. */
  lemma {:induction false} VacantGeneration(s: Site, job: Job, i: nat)
    requires SiteOk(s) && s.shared.gens != [] && i < |s.core.flows|
    ensures |JobDone(s, job).core.flows| == |s.core.flows|
    ensures VacantWithGeneration(JobDone(s, job).core.flows[i]) <==>
      if Fills(s, job, i) then !job.addOk else VacantWithGeneration(s.core.flows[i])
  {
    hide SiteOk, AdmitAt, SlotKept, VacantWithGeneration, EventAt, Maintained, Reaped, ResumeIfDue, FedAt, SiteMoves;
    if job.Accept? {
      ArriveLater(Kernel.Opened(0, None), job.arrived);
      AdmitGeneration(s, AdmissionOf(job), job.env, i);
    } else {
      JobKeeps(s, job);
      KeptGeneration(s.core.flows[i], JobDone(s, job).core.flows[i]);
    }
  }

  ghost predicate WorldMoves(x: World, y: World) {
    && SharedLater(x.shared, y.shared) && |y.cores| == |x.cores|
    && forall w :: 0 <= w < |x.cores| ==> LiveKept(x.cores[w].flows, y.cores[w].flows)
  }

  lemma {:induction false} WorkKeeps(x: World, w: nat, job: Job)
    requires WorldOk(x) && w < |x.cores|
    ensures x.shared.gens != []
    ensures var y := WithSite(x, w, JobDone(SiteOf(x, w), job));
      && WorldOk(y) && WorldMoves(x, y) && (AllTight(x) && PipesCome(job) ==> AllTight(y))
  {
    hide WorldOk, SiteOk, JobDone, Tight, PipesCome, LiveKept, SharedLater;
    SiteIsOk(x, w);
    JobKeeps(SiteOf(x, w), job);
    WithSiteOk(x, w, JobDone(SiteOf(x, w), job));
    forall v | 0 <= v < |x.cores| && v != w ensures LiveKept(x.cores[v].flows, x.cores[v].flows) {
      LiveStays(x.cores[v].flows);
    }
  }

  lemma LiveStays(flows: seq<Flow>)
    ensures LiveKept(flows, flows)
  {
  }

  lemma {:induction false} PublishKeeps(x: World, t: Shared)
    requires WorldOk(x) && SharedOk(t) && SharedLater(x.shared, t) && t.ledger == x.shared.ledger
    ensures var y := x.(shared := t); WorldOk(y) && WorldMoves(x, y) && (AllTight(x) ==> AllTight(y))
  {
    hide WorldOk, SharedOk, SharedLater, LiveKept, Tight;
    WithSharedOk(x, t);
    forall v | 0 <= v < |x.cores| ensures LiveKept(x.cores[v].flows, x.cores[v].flows) {
      LiveStays(x.cores[v].flows);
    }
  }

  /** Every step keeps the invariant, every configuration, and the route of every
      flow that stays alive; and while pipes can be created, none is written off. */
  lemma {:induction false} StepKeeps(x: World, step: Happening)
    requires WorldOk(x)
    ensures x.shared.gens != []
    ensures WorldOk(Took(x, step)) && WorldMoves(x, Took(x, step))
    ensures AllTight(x) && (step.Work? ==> PipesCome(step.job)) ==> AllTight(Took(x, step))
  {
    assert x.shared.gens != [] && SharedOk(x.shared);
    SharedStays(x.shared);
    hide WorldOk, SharedOk, SharedLater, AllTight, WorldMoves, PipesCome, Reloaded, Swept, JobDone;
    PublishKeeps(x, x.shared);
    match step
    case Work(w, job) =>
      if w < |x.cores| {
        WorkKeeps(x, w, job);
      }
    case Reload(text, now, up) =>
      ReloadedOk(x.shared, text, now, up);
      PublishKeeps(x, Reloaded(x.shared, text, now, up));
    case Sweep(g, up) =>
      if g < |x.shared.gens| {
        SweptOk(x.shared, g, up);
        PublishKeeps(x, Swept(x.shared, g, up));
      }
  }

  lemma {:induction false} VacantSlab(capacity: nat, pipeBytes: nat, now: nat, s: Shared)
    ensures var c := NewCore(capacity, pipeBytes, now); CoreOk(c, s) && Sum(Slotted(c.flows)) == 0 && Tight(c)
  {
    var c := NewCore(capacity, pipeBytes, now);
    SumBound(Held(c.flows), 0);
    SumBound(Slotted(c.flows), 0);
    forall i | 0 <= i < capacity ensures i in c.free {
      assert c.free[capacity - 1 - i] == i;
    }
  }

  lemma {:induction false} FreshLedger(l: Ledger)
    requires l == Stats.Fresh()
    ensures LedgerOk(l) && l.active == 0
  {
    hide LedgerOk, Total;
    FreshIsOk(l);
  }

  lemma {:induction false} LaunchedShared(s: Shared, config: Config, now: nat, up: set<string>)
    requires ConfigTheorems.WellFormed(config)
    requires s.gens == [NewGeneration(config, now, up)] && LedgerOk(s.ledger)
    ensures SharedOk(s)
  {
    hide GenOk, LedgerOk, ConfigTheorems.WellFormed, NewGeneration;
    BuiltOk(config, now, up);
  }

  lemma {:induction false} LaunchedOk(config: Config, nproc: nat, now: nat, up: set<string>)
    requires ConfigTheorems.WellFormed(config)
    ensures WorldOk(Launched(config, nproc, now, up)) && AllTight(Launched(config, nproc, now, up))
  {
    hide SharedOk, CoreOk, Slotted, Tight, ConfigTheorems.WellFormed, NewGeneration, Stats.Fresh, PerWorker,
         WorkerCount, NewCore, LedgerOk;
    var x := Launched(config, nproc, now, up);
    FreshLedger(x.shared.ledger);
    LaunchedShared(x.shared, config, now, up);
    VacantSlab(PerWorker(config.limits, nproc), config.limits.pipeBytes, now, x.shared);
    SumBound(Gauges(x.cores), 0);
  }

  /** Any run of the proxy, from any state that satisfies the invariant. */
  function Ran(x: World, steps: seq<Happening>): (y: World)
    requires WorldOk(x)
    ensures WorldOk(y)
    decreases |steps|
  {
    if steps == [] then x
    else
      var before := Ran(x, steps[..|steps| - 1]);
      StepKeeps(before, steps[|steps| - 1]);
      Took(before, steps[|steps| - 1])
  }
}
