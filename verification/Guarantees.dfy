/** What is promised of the proxy, for every configuration, every run and every
    answer of the kernel. */
module Guarantees {
  import opened Basics
  import opened Hostnames
  import opened Rules
  import opened ConfigFile
  import opened Prelude
  import opened Kernel
  import opened Relay
  import opened Pass
  import opened PassTheorems
  import opened Stats
  import opened Server
  import opened Flows
  import opened FlowTheorems
  import opened Workers
  import opened SiteTheorems
  import opened Worlds
  import Parser
  import Throttle
  import ConfigTheorems

  // ---- reachable states -------------------------------------------------------------------------

  ghost predicate Closed(p: World -> bool, allowed: Happening -> bool) {
    forall y: World, step :: p(y) && y.shared.gens != [] && allowed(step) ==> p(Took(y, step))
  }

  /** `x` has every property that `start` has and that every allowed step keeps. */
  ghost predicate ReachableFrom(start: World, allowed: Happening -> bool, x: World) {
    forall p: World -> bool :: p(start) && Closed(p, allowed) ==> p(x)
  }

  predicate Anything(step: Happening) { true }

  /** A step in which every pipe asked for is created. */
  ghost predicate Supplied(step: Happening) { step.Work? ==> PipesCome(step.job) }

  /** A state the proxy can be in, however it was configured. */
  ghost predicate Reachable(x: World) {
    exists config, nproc, now, up ::
      ConfigTheorems.WellFormed(config) && ReachableFrom(Launched(config, nproc, now, up), Anything, x)
  }

  ghost predicate RunTo(start: World, allowed: Happening -> bool, steps: seq<Happening>, x: World)
    requires WorldOk(start)
  {
    (forall k :: 0 <= k < |steps| ==> allowed(steps[k])) && x == Ran(start, steps)
  }

  /** Reachable means reached by some run. */
  lemma {:induction false} ReachableIsRun(start: World, allowed: Happening -> bool, x: World)
    requires WorldOk(start)
    ensures ReachableFrom(start, allowed, x) <==> exists steps :: RunTo(start, allowed, steps, x)
  {
    hide WorldOk, Took, Ran, ReachableFrom, RunTo;
    forall steps | RunTo(start, allowed, steps, x) ensures ReachableFrom(start, allowed, x) {
      RunReaches(start, allowed, steps, x);
    }
    if ReachableFrom(start, allowed, x) {
      RunIsClosed(start, allowed);
      ReachesRun(start, allowed, x, y => exists steps :: RunTo(start, allowed, steps, y));
    }
  }

  lemma ReachesRun(start: World, allowed: Happening -> bool, x: World, p: World -> bool)
    requires ReachableFrom(start, allowed, x) && p(start) && Closed(p, allowed)
    ensures p(x)
  {
  }

  lemma {:induction false} RunReaches(start: World, allowed: Happening -> bool, steps: seq<Happening>, x: World)
    requires WorldOk(start) && RunTo(start, allowed, steps, x)
    ensures ReachableFrom(start, allowed, x)
    decreases |steps|
  {
    hide WorldOk, Took;
    if steps != [] {
      var before, last := steps[..|steps| - 1], steps[|steps| - 1];
      var y := Ran(start, before);
      assert RunTo(start, allowed, before, y);
      RunReaches(start, allowed, before, y);
      StepKeeps(y, last);
      assert x == Took(y, last) && allowed(last);
      hide Ran, RunTo;
      forall p: World -> bool | p(start) && Closed(p, allowed) ensures p(x) {
        assert p(y);
      }
    }
  }

  lemma {:induction false} RunIsClosed(start: World, allowed: Happening -> bool)
    requires WorldOk(start)
    ensures Closed((y: World) => exists steps :: RunTo(start, allowed, steps, y), allowed)
    ensures exists steps :: RunTo(start, allowed, steps, start)
  {
    hide WorldOk, Took;
    assert RunTo(start, allowed, [], start);
    forall y: World, step | (exists steps :: RunTo(start, allowed, steps, y)) && y.shared.gens != [] && allowed(step)
      ensures exists steps :: RunTo(start, allowed, steps, Took(y, step))
    {
      var steps :| RunTo(start, allowed, steps, y);
      var more := steps + [step];
      assert more[..|steps|] == steps;
      assert RunTo(start, allowed, more, Took(y, step));
    }
  }

  ghost predicate InWorld(x: World, w: nat, i: nat) { w < |x.cores| && i < |x.cores[w].flows| }

  function FlowIn(x: World, w: nat, i: nat): Flow
    requires InWorld(x, w, i)
  {
    x.cores[w].flows[i]
  }

  /** A property that every step keeps of states that satisfy the invariant. */
  lemma {:induction false} Kept(start: World, allowed: Happening -> bool, x: World, p: World -> bool)
    requires ReachableFrom(start, allowed, x) && WorldOk(start) && p(start)
    requires forall y: World, step :: WorldOk(y) && p(y) && allowed(step) ==> p(Took(y, step))
    ensures WorldOk(x) && p(x)
  {
    var q := (y: World) => WorldOk(y) && p(y);
    hide WorldOk, Took;
    assert q(start);
    forall y: World, step | q(y) && y.shared.gens != [] && allowed(step) ensures q(Took(y, step)) {
      StepKeeps(y, step);
    }
    assert Closed(q, allowed);
    assert q(x);
  }

  lemma {:induction false} ReachableIsOk(x: World)
    requires Reachable(x)
    ensures WorldOk(x)
  {
    hide WorldOk, Took, Launched, ReachableFrom, ConfigTheorems.WellFormed;
    var config, nproc, now, up :|
      ConfigTheorems.WellFormed(config) && ReachableFrom(Launched(config, nproc, now, up), Anything, x);
    LaunchedOk(config, nproc, now, up);
    Kept(Launched(config, nproc, now, up), Anything, x, y => true);
  }

  lemma {:induction false} InWorldIsOk(x: World, w: nat, i: nat)
    requires Reachable(x) && InWorld(x, w, i)
    ensures FlowOk(FlowIn(x, w, i), x.shared)
  {
    hide Reachable, SharedOk, FlowOk, PipesOk, FreeOk, Gauges;
    ReachableIsOk(x);
    assert CoreOk(x.cores[w], x.shared);
  }

  // ---- routing ------------------------------------------------------------------------------------

  /** The host name that a stream gives: the one it names, or none. */
  ghost predicate HostIs(mode: PeekMode, stream: seq<byte>, host: Option<Hostname>) {
    forall h :: host == Some(h) <==> Parser.NamedBy(mode, stream, h)
  }

  /** The exit rule. A socket towards a destination exists only for a flow whose
      first applicable rule - or default, if none applies - in the configuration it
      was admitted under does not block it; it is bound to the interface of that
      rule's exit, or to none if the rule is direct. The host name asked about is
      the one that the first 8 KiB of the client's own bytes name, however they
      arrived, and there was no more to wait for. */
  lemma {:induction false} ExitPinning(x: World, w: nat, i: nat) returns (host: Option<Hostname>)
    requires Reachable(x) && InWorld(x, w, i)
    requires FlowIn(x, w, i).live && FlowIn(x, w, i).upstream.Some?
    ensures var f := FlowIn(x, w, i);
      && Admitted(f, x.shared.gens) && f.client.Some?
      && var config, head := x.shared.gens[f.generation.value].config, Head(f.client.value);
         && HostIs(f.mode, head, host) && !Parser.Begun(f.mode, head)
         && IsFirst(config.rules, f.source, f.destination, f.dport, host, f.rule)
         && match (if f.rule.Some? then config.rules[f.rule.value].action else config.defaultAction)
            case Block => false
            case Direct => f.upstream.value.pin == None
            case Exit(k) => k < |config.exits| && f.upstream.value.pin == Some(config.exits[k].ifname)
  {
    hide Reachable, Conclusive, HostSeen, MatchRule, Head, SharedOk, HostIs, IsFirst, Parser.Begun;
    InWorldIsOk(x, w, i);
    var f := FlowIn(x, w, i);
    assert Pinned(f, x.shared.gens);
    assert RuledBy(f, x.shared.gens) && PinIs(f, x.shared.gens, f.upstream.value.pin);
    host := HostSeen(f.mode, f.client.value);
    HostSeenIs(f.mode, f.client.value);
    ReachableShared(x);
    RuleIsFirst(x.shared, f, host);
  }

  lemma {:induction false} HostSeenIs(mode: PeekMode, client: Sock)
    ensures HostIs(mode, Head(client), HostSeen(mode, client))
    ensures Conclusive(mode, client) <==> !Parser.Begun(mode, Head(client))
  {
    hide Head, Parser.PeekVerdict, Parser.NamedBy, Parser.Begun;
    Parser.WaitsIff(mode, Head(client));
    forall h ensures HostSeen(mode, client) == Some(h) <==> Parser.NamedBy(mode, Head(client), h) {
      Parser.HostFoundIff(mode, Head(client), h);
    }
  }

  lemma {:induction false} ReachableShared(x: World)
    requires Reachable(x)
    ensures SharedOk(x.shared)
  {
    hide Reachable, SharedOk, CoresOk, Gauges;
    ReachableIsOk(x);
  }

  /** The rule found for a flow is the first that applies to it. */
  lemma {:induction false} RuleIsFirst(s: Shared, f: Flow, host: Option<Hostname>)
    requires SharedOk(s) && Admitted(f, s.gens)
    ensures var rules := s.gens[f.generation.value].config.rules;
      MatchRule(rules, KeyFor(f, host)) == f.rule <==> IsFirst(rules, f.source, f.destination, f.dport, host, f.rule)
  {
    hide LedgerOk, BucketOk, MatchRule, IsFirst, NetworksOk;
    assert GenOk(s.gens[f.generation.value]);
    ChoosesFirst(s.gens[f.generation.value].config.rules, KeyFor(f, host), f.rule);
  }

  /** No step - no reload, no sweep, no event meant for another flow - changes the
      route of a flow that lives through it. */
  lemma {:induction false} RouteIsFinal(x: World, step: Happening, w: nat, i: nat)
    requires WorldOk(x) && x.shared.gens != [] && InWorld(x, w, i) && InWorld(Took(x, step), w, i)
    requires FlowIn(x, w, i).live && FlowIn(Took(x, step), w, i).live && FlowIn(x, w, i).upstream.Some?
    ensures var f, g := FlowIn(x, w, i), FlowIn(Took(x, step), w, i);
      && g.upstream.Some? && g.upstream.value.pin == f.upstream.value.pin
      && g.generation == f.generation && g.rule == f.rule && g.statsSlot == f.statsSlot
      && (Admitted(f, x.shared.gens) ==>
            && Admitted(g, Took(x, step).shared.gens)
            && Took(x, step).shared.gens[g.generation.value].config == x.shared.gens[f.generation.value].config)
  {
    StepKeeps(x, step);
    hide Took, WorldOk;
    assert LiveKept(x.cores[w].flows, Took(x, step).cores[w].flows);
    assert SlotKept(FlowIn(x, w, i), FlowIn(Took(x, step), w, i));
  }

  // ---- the slab and the gauge ---------------------------------------------------------------------

  /** What no step changes: the number of workers and the size of their slabs. */
  ghost predicate Sized(x: World, n: nat, m: nat) {
    |x.cores| == n && forall w :: 0 <= w < n ==> |x.cores[w].flows| == m
  }

  lemma {:induction false} StepSized(x: World, step: Happening, n: nat, m: nat)
    requires WorldOk(x) && Sized(x, n, m)
    ensures x.shared.gens != [] && Sized(Took(x, step), n, m)
  {
    StepKeeps(x, step);
    hide WorldOk, Took, SlotKept, SharedLater;
    forall w | 0 <= w < n ensures |Took(x, step).cores[w].flows| == m {
      assert LiveKept(x.cores[w].flows, Took(x, step).cores[w].flows);
    }
  }

  /** A published configuration is never changed, whatever happens later. */
  lemma {:induction false} ConfigurationsLast(start: World, x: World)
    requires WorldOk(start) && ReachableFrom(start, Anything, x)
    ensures |start.shared.gens| <= |x.shared.gens|
    ensures forall g :: 0 <= g < |start.shared.gens| ==> x.shared.gens[g].config == start.shared.gens[g].config
    ensures start.shared.ledger.table.entries <= x.shared.ledger.table.entries
  {
    var p := (y: World) => SharedLater(start.shared, y.shared);
    SharedStays(start.shared);
    hide WorldOk, Took, ReachableFrom;
    forall y: World, step | WorldOk(y) && p(y) && Anything(step)
      ensures y.shared.gens != [] && p(Took(y, step))
    {
      StepKeeps(y, step);
      SharedLaterTrans(start.shared, y.shared, Took(y, step).shared);
    }
    Kept(start, Anything, x, p);
  }

  /** Every vacant slot is on the free list once, and nothing else is; so a slot
      is never given to two flows and never lost. */
  lemma {:induction false} SlabIsExact(x: World, w: nat)
    requires Reachable(x) && w < |x.cores|
    ensures var c := x.cores[w];
      && (forall i :: i in c.free <==> 0 <= i < |c.flows| && !c.flows[i].live)
      && (forall j, k :: 0 <= j < k < |c.free| ==> c.free[j] != c.free[k])
  {
    hide Reachable, SharedOk, FlowsOk, PipesOk, Gauges;
    ReachableIsOk(x);
    assert CoreOk(x.cores[w], x.shared);
  }

  /** Each live flow has the fields of its phase and no others, and a vacant slot
      none of them. */
  lemma {:induction false} FieldsFitPhase(x: World, w: nat, i: nat)
    requires Reachable(x) && InWorld(x, w, i)
    ensures var f := FlowIn(x, w, i);
      var upstream, pumps := f.live && f.phase != Peeking, f.live && f.phase == Relaying;
      && f.client.Some? == f.live && (f.live ==> Admitted(f, x.shared.gens))
      && f.upstream.Some? == f.statsSlot.Some? == upstream
      && f.toUpstream.Some? == f.toClient.Some? == pumps
      && (f.rule.Some? ==> upstream) && (f.retryAt.Some? ==> pumps)
  {
    hide Reachable;
    InWorldIsOk(x, w, i);
    hide Pinned, Carries, Settled, Awake;
  }

  /** The gauge is the number of live flows that have been decided, over all
      workers; it never exceeds the configured maximum by more than the number of
      workers less one; and it is never 0 when a flow that was counted ends. */
  lemma {:induction false} GaugeIsExact(config: Config, nproc: nat, now: nat, up: set<string>, x: World)
    requires ConfigTheorems.WellFormed(config) && ReachableFrom(Launched(config, nproc, now, up), Anything, x)
    ensures x.shared.ledger.active == Sum(Gauges(x.cores))
    ensures x.shared.ledger.active <= config.limits.maxFlows + WorkerCount(config.limits, nproc) - 1
    ensures forall w: nat, i: nat :: InWorld(x, w, i) && FlowIn(x, w, i).statsSlot.Some? ==> x.shared.ledger.active > 0
  {
    hide WorldOk, Took, ReachableFrom, WorkerCount, PerWorker, ConfigTheorems.WellFormed, Launched, Gauges, Sum,
         InWorld, Sized;
    var n, m := WorkerCount(config.limits, nproc), PerWorker(config.limits, nproc);
    LaunchedOk(config, nproc, now, up);
    LaunchedShape(config, nproc, now, up);
    StaysSized(Launched(config, nproc, now, up), Anything, x, n, m);
    GlobalCap(config.limits, nproc);
    GaugeBound(x, n, m);
  }

  lemma {:induction false} StaysSized(start: World, allowed: Happening -> bool, x: World, n: nat, m: nat)
    requires WorldOk(start) && Sized(start, n, m) && ReachableFrom(start, allowed, x)
    ensures WorldOk(x) && Sized(x, n, m)
  {
    hide WorldOk, Took, ReachableFrom, Sized;
    var p := (y: World) => Sized(y, n, m);
    forall y: World, step | WorldOk(y) && p(y) && allowed(step) ensures y.shared.gens != [] && p(Took(y, step)) {
      StepSized(y, step, n, m);
    }
    Kept(start, allowed, x, p);
  }

  lemma {:induction false} LaunchedShape(config: Config, nproc: nat, now: nat, up: set<string>)
    requires ConfigTheorems.WellFormed(config)
    ensures config.limits.maxFlows >= 1
    ensures var x := Launched(config, nproc, now, up);
      Sized(x, WorkerCount(config.limits, nproc), PerWorker(config.limits, nproc))
  {
    assert config.limits.maxFlows >= 1;
    hide WorkerCount, PerWorker, ConfigTheorems.WellFormed, NewGeneration, Stats.Fresh;
  }

  lemma {:induction false} GaugeBound(x: World, n: nat, m: nat)
    requires WorldOk(x) && Sized(x, n, m)
    ensures x.shared.ledger.active == Sum(Gauges(x.cores)) <= n * m
    ensures forall w: nat, i: nat :: InWorld(x, w, i) && FlowIn(x, w, i).statsSlot.Some? ==> x.shared.ledger.active > 0
  {
    hide SharedOk, CoresOk, Sum, Slotted;
    forall w | 0 <= w < |x.cores| ensures Gauges(x.cores)[w] <= m {
      SlottedBound(x.cores[w].flows);
    }
    SumBound(Gauges(x.cores), m);
    forall w: nat, i: nat | InWorld(x, w, i) && FlowIn(x, w, i).statsSlot.Some? ensures x.shared.ledger.active > 0 {
      SumUpdate(Gauges(x.cores), w, 0);
      UpdateSums(x.cores[w].flows, i, x.cores[w].flows[i]);
    }
  }

  lemma SlottedBound(flows: seq<Flow>)
    ensures Sum(Slotted(flows)) <= |flows|
  {
    SumBound(Slotted(flows), 1);
  }

  // ---- pipes ---------------------------------------------------------------------------------------

  /** Every pipe waiting to be used is empty, so no flow ever sees an earlier
      flow's bytes; and the pipes that exist are bounded by two a slot. */
  lemma {:induction false} PipesAreClean(x: World, w: nat)
    requires Reachable(x) && w < |x.cores|
    ensures var c := x.cores[w];
      && (forall k :: 0 <= k < |c.pool.idle| ==> c.pool.idle[k].content == [])
      && |c.pool.idle| + Sum(Held(c.flows)) <= c.pool.live <= 2 * |c.flows|
  {
    hide Reachable, SharedOk, FlowsOk, FreeOk, Gauges, Sum, Held;
    ReachableIsOk(x);
    assert CoreOk(x.cores[w], x.shared);
  }

  function RelayFlags(flows: seq<Flow>): seq<nat> {
    seq(|flows|, i requires 0 <= i < |flows| => if flows[i].live && flows[i].phase == Relaying then 1 else 0)
  }

  lemma {:induction false} SumDoubles(a: seq<nat>, b: seq<nat>)
    requires |a| == |b| && forall i :: 0 <= i < |a| ==> a[i] == 2 * b[i]
    ensures Sum(a) == 2 * Sum(b)
    decreases |a|
  {
    if a != [] {
      SumDoubles(a[..|a| - 1], b[..|b| - 1]);
    }
  }

  lemma HeldByPhase(f: Flow, s: Shared)
    requires FlowOk(f, s)
    ensures HeldBy(f) == if f.live && f.phase == Relaying then 2 else 0
  {
  }

  /** As long as pipes can be created, the pipes in use are exactly two for each
      relaying flow, every other pipe is idle, and a flow that connects - at once
      or later - is never refused its pipes. */
  lemma {:induction false} PipesSuffice(
      config: Config, nproc: nat, now: nat, up: set<string>, x: World, w: nat)
    requires ConfigTheorems.WellFormed(config) && ReachableFrom(Launched(config, nproc, now, up), Supplied, x)
    requires w < |x.cores|
    ensures var c := x.cores[w];
      && c.pool.live == |c.pool.idle| + 2 * Sum(RelayFlags(c.flows))
      && forall i, env :: 0 <= i < |c.flows| && c.flows[i].live && c.flows[i].phase != Relaying && Plentiful(env) ==>
           PipesGiven(CtxAt(SiteOf(x, w), i), env)
    ensures x.shared.gens != []
    ensures forall a: Admission, env :: a.destination.Some? && HasRoom(SiteOf(x, w)) && Plentiful(env) ==>
      PipesGiven(CtxAt(Born(SiteOf(x, w), a), NextSlot(SiteOf(x, w))), env)
  {
    hide WorldOk, Took, ReachableFrom, ConfigTheorems.WellFormed, Launched, AllTight;
    LaunchedOk(config, nproc, now, up);
    var p := (y: World) => AllTight(y);
    forall y: World, step | WorldOk(y) && p(y) && Supplied(step) ensures y.shared.gens != [] && p(Took(y, step)) {
      StepKeeps(y, step);
    }
    Kept(Launched(config, nproc, now, up), Supplied, x, p);
    SiteSupplies(x, w);
  }

  lemma {:induction false} SiteSupplies(x: World, w: nat)
    requires WorldOk(x) && AllTight(x) && w < |x.cores|
    ensures var c := x.cores[w];
      && c.pool.live == |c.pool.idle| + 2 * Sum(RelayFlags(c.flows))
      && forall i, env :: 0 <= i < |c.flows| && c.flows[i].live && c.flows[i].phase != Relaying && Plentiful(env) ==>
           PipesGiven(CtxAt(SiteOf(x, w), i), env)
    ensures x.shared.gens != []
    ensures forall a: Admission, env :: a.destination.Some? && HasRoom(SiteOf(x, w)) && Plentiful(env) ==>
      PipesGiven(CtxAt(Born(SiteOf(x, w), a), NextSlot(SiteOf(x, w))), env)
  {
    SiteIsOk(x, w);
    var s, c := SiteOf(x, w), x.cores[w];
    hide WorldOk, SharedOk, FlowOk, FreeOk, Sum, HeldBy, FirstPipe, SecondPipe, Gave, Plentiful, PipesGiven;
    forall i | 0 <= i < |c.flows| ensures Held(c.flows)[i] == 2 * RelayFlags(c.flows)[i] {
      HeldByPhase(c.flows[i], x.shared);
    }
    SumDoubles(Held(c.flows), RelayFlags(c.flows));
    assert Tight(c);
    forall i, env | 0 <= i < |c.flows| && !(c.flows[i].live && c.flows[i].phase == Relaying) && Plentiful(env)
      ensures PipesGiven(CtxAt(s, i), env)
    {
      CtxIsOk(s, i);
      HeldByPhase(c.flows[i], x.shared);
      PipesKeep(CtxAt(s, i), env);
    }
    forall a: Admission, env | a.destination.Some? && HasRoom(s) && Plentiful(env)
      ensures PipesGiven(CtxAt(Born(s, a), NextSlot(s)), env)
    {
      NextIsVacant(s);
      SamePool(CtxAt(s, NextSlot(s)), CtxAt(Born(s, a), NextSlot(s)), env);
    }
  }

  lemma NextIsVacant(s: Site)
    requires SiteOk(s) && HasRoom(s)
    ensures !s.core.flows[NextSlot(s)].live
  {
    assert s.core.free[|s.core.free| - 1] in s.core.free;
  }

  /** Whether pipes are given depends on the pool only. */
  lemma SamePool(c: Ctx, d: Ctx, env: Env)
    requires c.pool == d.pool && PipesGiven(c, env)
    ensures PipesGiven(d, env)
  {
  }

  // ---- streams ---------------------------------------------------------------------------------------

  /** In both directions of every relaying flow, what has been delivered followed
      by what is in the pipe is exactly what has been read, in order; an end is
      announced once, and only after the true end with everything delivered. */
  lemma {:induction false} StreamsAreWhole(x: World, w: nat, i: nat)
    requires Reachable(x) && InWorld(x, w, i)
    requires FlowIn(x, w, i).live && FlowIn(x, w, i).phase == Relaying
    ensures HasLink(FlowIn(x, w, i))
    ensures var k := LinkOf(FlowIn(x, w, i), []);
      && k.upstream.sent + k.out.pipe.content == k.client.read
      && k.client.sent + k.back.pipe.content == k.upstream.read
      && k.upstream.halfCloses <= 1 && k.client.halfCloses <= 1
      && (k.upstream.halfCloses == 1 <==> k.out.sourceEof && k.out.buffered == 0)
      && (k.upstream.halfCloses == 1 ==> k.client.closed && k.upstream.sent == Stream(k.client))
      && (k.client.halfCloses == 1 <==> k.back.sourceEof && k.back.buffered == 0)
      && (k.client.halfCloses == 1 ==> k.upstream.closed && k.client.sent == Stream(k.upstream))
  {
    hide Reachable;
    InWorldIsOk(x, w, i);
    hide FlowOk, Awake, Pinned;
    var f := FlowIn(x, w, i);
    RelayingParts(f, x.shared);
    var k := LinkOf(f, []);
    assert Faithful(k.out, k.client, k.upstream) && Faithful(k.back, k.upstream, k.client);
  }

  lemma RelayingParts(f: Flow, s: Shared)
    requires FlowOk(f, s) && f.live && f.phase == Relaying
    ensures Carries(f) && Settled(LinkOf(f, [])) && Awake(f) && RelayReady(f, s)
  {
  }

  /** A pass that did not fail but tears the flow down has delivered both streams
      whole, and told both ends so - be it one of many, or the flow's first. */
  lemma {:induction false} TornDownDelivered(x: World, w: nat, i: nat, env: Env, c: Ctx)
    requires Reachable(x) && InWorld(x, w, i) && FlowIn(x, w, i).live
    requires RelaysFrom(CtxAt(SiteOf(x, w), i), env, c)
    ensures HasLink(c.flow)
    ensures var k := PassOf(c, env).link;
      PassOf(c, env).ok && !Relayed(c, env).ok ==>
        && k.client.closed && k.upstream.sent == Stream(k.client) && k.upstream.halfCloses == 1
        && k.upstream.closed && k.client.sent == Stream(k.upstream) && k.client.halfCloses == 1
  {
    hide Reachable, RelaysFrom, CtxOk, SiteOk, WorldOk, PassOf, Relayed, Stream;
    ReachableIsOk(x);
    SiteIsOk(x, w);
    CtxIsOk(SiteOf(x, w), i);
    RelaysReady(CtxAt(SiteOf(x, w), i), env, c);
    assert HasLink(c.flow);
    hide RelayReady;
    if PassOf(c, env).ok && !Relayed(c, env).ok {
      DoneDelivers(c, env);
    }
  }

  // ---- wakeups ----------------------------------------------------------------------------------------

  /** No relaying flow is ever forgotten. Whatever its pipes hold waits for a
      destination that is full, or whose event is on its way, timer or not. Unless
      the flow waits on its own timer (or its last pass read 2^64 - 1 bytes), a source is
      left unread only behind a full pipe; and then that pipe waits for its
      destination, exactly when it can hold a byte. */
  lemma {:induction false} NoFlowIsForgotten(x: World, w: nat, i: nat)
    requires Reachable(x) && InWorld(x, w, i)
    requires FlowIn(x, w, i).live && FlowIn(x, w, i).phase == Relaying
    ensures HasLink(FlowIn(x, w, i))
    ensures var f := FlowIn(x, w, i);
      var k := LinkOf(f, []);
      && (k.out.buffered > 0 ==> DestFull(k.upstream))
      && (k.back.buffered > 0 ==> DestFull(k.client))
      && (f.retryAt.None? && f.lastRead < USIZE_MAX ==>
            && (Pending(k.out, k.client) ==>
                  && k.out.buffered == k.out.pipe.capacity
                  && (k.out.buffered > 0 && DestFull(k.upstream) <==> k.out.pipe.capacity > 0))
            && (Pending(k.back, k.upstream) ==>
                  && k.back.buffered == k.back.pipe.capacity
                  && (k.back.buffered > 0 && DestFull(k.client) <==> k.back.pipe.capacity > 0)))
  {
    hide Reachable;
    InWorldIsOk(x, w, i);
    hide FlowOk, Pinned, Pending, Faithful, Settled, DestFull;
    var f := FlowIn(x, w, i);
    RelayingParts(f, x.shared);
    var k := LinkOf(f, []);
    assert LinkOk(k) by {
      FaithfulOk(k);
    }
    if f.retryAt.None? && f.lastRead < USIZE_MAX {
      PendingIff(k);
    }
  }

  lemma FaithfulOk(k: Link)
    requires LinkFaithful(k)
    ensures LinkOk(k)
  {
  }

  // ---- rates ------------------------------------------------------------------------------------------

  /** All flows that ever matched a rate-limited rule of one configuration, on all
      workers together, have read at most the rule's burst plus its rate times the
      time since that configuration was published - whatever order the clock
      readings came in. */
  lemma {:induction false} RateCeiling(x: World, g: nat, r: nat, t: nat)
    requires Reachable(x) && g < |x.shared.gens| && r < |x.shared.gens[g].config.rules|
    ensures |x.shared.gens[g].buckets| == |x.shared.gens[g].pulled| == |x.shared.gens[g].config.rules|
    ensures var gen := x.shared.gens[g];
      && (gen.buckets[r].Some? <==> gen.config.rules[r].rateKbps.Some?)
      && (gen.buckets[r].Some? && gen.buckets[r].value.latest <= t ==>
            var kbps := gen.config.rules[r].rateKbps.value;
            SECOND * gen.pulled[r]
              <= SECOND * Throttle.Burst(kbps) + 125 * kbps * (t - gen.buckets[r].value.start))
  {
    hide Reachable, CoresOk, Gauges, LedgerOk, ConfigTheorems.WellFormed, Throttle.Full;
    ReachableIsOk(x);
    var gen := x.shared.gens[g];
    assert GenOk(gen);
    assert BucketOk(gen.config.rules[r].rateKbps, gen.buckets[r], gen.pulled[r]);
    assert ConfigTheorems.RateOk(gen.config.rules[r]) by {
      RatesOk(gen.config, r);
    }
    if gen.buckets[r].Some? && gen.buckets[r].value.latest <= t {
      Throttle.BucketIs(gen.config.rules[r].rateKbps.value, gen.buckets[r].value.start);
      AccountCeiling(gen.buckets[r].value, gen.pulled[r], t);
    }
  }

  lemma RatesOk(config: Config, r: nat)
    requires ConfigTheorems.WellFormed(config) && r < |config.rules|
    ensures ConfigTheorems.RateOk(config.rules[r])
  {
  }

  lemma {:induction false} AccountCeiling(a: Throttle.Account, pulled: nat, t: nat)
    requires Throttle.Balanced(a) && pulled <= a.granted && a.latest <= t
    ensures SECOND * pulled <= SECOND * a.bucket.capacity + a.bucket.rate * (t - a.start)
  {
    Throttle.MulMono(a.bucket.rate, a.bucket.last - a.start, t - a.start);
  }

  // ---- statistics -------------------------------------------------------------------------------------

  /** At any moment the rows of the stats file add up to the FLOWS total, and the
      row of every live flow is in the table. */
  lemma {:induction false} RowsAddUp(x: World)
    requires Reachable(x)
    ensures RowTotal(Rows(x.shared.ledger.table.entries, x.shared.ledger.slots)).flows == x.shared.ledger.total
    ensures forall w: nat, i: nat :: InWorld(x, w, i) && FlowIn(x, w, i).statsSlot.Some? ==>
      FlowIn(x, w, i).statsSlot.value < |x.shared.ledger.table.entries|
  {
    hide Reachable, CoresOk, Gauges, GenOk, LedgerOk, RowTotal, Rows;
    ReachableIsOk(x);
    LedgerAddsUp(x.shared.ledger);
    forall w: nat, i: nat | InWorld(x, w, i) && FlowIn(x, w, i).statsSlot.Some?
      ensures FlowIn(x, w, i).statsSlot.value < |x.shared.ledger.table.entries|
    {
      InWorldIsOk(x, w, i);
      assert SlotKnown(FlowIn(x, w, i), x.shared.ledger);
    }
  }

  lemma {:induction false} LedgerAddsUp(l: Ledger)
    requires LedgerOk(l)
    ensures RowTotal(Rows(l.table.entries, l.slots)).flows == l.total
  {
    RenderedTotal(l);
    hide Rows, RowTotal, TableOk;
  }

  // ---- a pool without pipes ------------------------------------------------------------------------

  predicate Unpiped(f: Flow) { f.phase != Relaying && f.toUpstream.None? && f.toClient.None? }

  predicate Empty(p: Pool) { p.idle == [] && p.live >= p.limit }

  /** No idle pipe, none to be made, and no flow holding any. */
  ghost predicate Spent(c: Core) {
    Empty(c.pool) && forall i :: 0 <= i < |c.flows| && c.flows[i].live ==> Unpiped(c.flows[i])
  }

  /** What a handler does to a flow without pipes when there are none. */
  predicate GainsNone(c: Ctx, o: Outcome) { o.ctx.pool == c.pool && Unpiped(o.ctx.flow) }

  lemma {:induction false} SpentOpens(c: Ctx, pin: Option<string>, env: Env)
    requires Empty(c.pool) && Unpiped(c.flow)
    ensures GainsNone(c, OpenedUp(c, pin, env))
  {
    hide Relayed;
  }

  lemma {:induction false} SpentDecides(c: Ctx, host: Option<Hostname>, env: Env)
    requires Empty(c.pool) && Unpiped(c.flow)
    ensures GainsNone(c, Decided(c, host, env))
  {
    hide OpenedUp, MatchRule, SlotFor, Begun, KeyOf;
    if Admitted(c.flow, c.shared.gens) {
      var routed := Routed(c, host);
      var way := WayOut(c.shared.gens[c.flow.generation.value], routed.flow.rule);
      if way.Ok? {
        SpentOpens(routed, way.value, env);
      }
    }
  }

  lemma {:induction false} SpentHandles(c: Ctx, side: Side, failed: bool, env: Env)
    requires Empty(c.pool) && Unpiped(c.flow)
    ensures GainsNone(c, Handled(c, side, failed, env))
  {
    hide Decided, Relayed, Parser.PeekVerdict;
    if c.flow.phase == Peeking && !failed && c.flow.client.Some? && !env.peekFails && c.flow.client.value.unread != [] {
      var n := Between(env.peeked, 1, Min(|c.flow.client.value.unread|, MAX_PEEK));
      var seen := c.(flow := c.flow.(lastActive := env.peekAt));
      SpentDecides(seen, None, env);
      var verdict := Parser.PeekVerdict(c.flow.mode, c.flow.client.value.unread[..n]);
      if verdict.HostFound? {
        SpentDecides(seen, Some(verdict.host), env);
      }
    }
  }

  lemma {:induction false} SpentReady(s: Site, i: nat, side: Side, failed: bool, env: Env)
    requires Spent(s.core)
    ensures Spent(ReadyAt(s, i, side, failed, env).core)
  {
    hide Handled;
    if i < |s.core.flows| && s.core.flows[i].live {
      SpentHandles(CtxAt(s, i), side, failed, env);
    }
  }

  lemma {:induction false} SpentCloses(s: Site, pending: seq<nat>)
    requires Spent(s.core)
    ensures Spent(CloseAll(s, pending).core)
    decreases |pending|
  {
    if pending != [] {
      SpentCloses(s, pending[..|pending| - 1]);
    }
  }

  lemma {:induction false} DueFlowRelays(s: Site, now: nat, i: nat)
    requires SiteOk(s) && i < |s.core.flows| && IsDue(s.core.flows[i], now)
    ensures s.core.flows[i].phase == Relaying
  {
    DueRelays(s.core.flows[i], s.shared, now);
  }

  /** Nobody relays, so nobody is due. */
  lemma {:induction false} SpentIsNotDue(s: Site, now: nat)
    requires SiteOk(s) && Spent(s.core)
    ensures forall i :: 0 <= i < |s.core.flows| ==> !IsDue(s.core.flows[i], now)
    ensures Due(s.core.flows, now) == []
  {
    hide SiteOk, Due;
    forall i | 0 <= i < |s.core.flows| ensures !IsDue(s.core.flows[i], now) {
      if IsDue(s.core.flows[i], now) {
        DueFlowRelays(s, now, i);
      }
    }
    NoneDue(s.core.flows, now);
  }

  lemma {:induction false} NoneDue(flows: seq<Flow>, now: nat)
    requires forall i :: 0 <= i < |flows| ==> !IsDue(flows[i], now)
    ensures Due(flows, now) == []
  {
    if flows != [] {
      NoneDue(flows[..|flows| - 1], now);
    }
  }

  lemma {:induction false} SpentJob(s: Site, job: Job)
    requires SiteOk(s) && s.shared.gens != [] && Spent(s.core)
    ensures Spent(JobDone(s, job).core)
  {
    hide SiteOk, ReadyAt, CloseAll, IsDue, Due, ResumeAt, Idlers, ResumeAll;
    match job {
      case Accept(_, _, _, _, _, _, env) => SpentAdmits(s, AdmissionOf(job), env);
      case Event(i, side, failed, consumed, env) => SpentEvent(s, i, side, failed, consumed, env);
      case Housekeeping(now, envs) =>
        SpentIsNotDue(s, now);
        SpentReaps(s, now);
        assert ResumeAll(s, [], envs) == s by {
          NoTurns(s, envs);
        }
      case Resuming(now, _, _) => SpentIsNotDue(s, now);
      case Reaping(now) => SpentReaps(s, now);
      case Arrivals(_, _, _) =>
    }
  }

  lemma NoTurns(s: Site, envs: seq<Env>)
    ensures ResumeAll(s, [], envs) == s
  {
  }

  lemma {:induction false} SpentReaps(s: Site, now: nat)
    requires s.shared.gens != [] && Spent(s.core)
    ensures Spent(Reaped(s, now).core)
  {
    hide CloseAll, Idlers;
    var t := s.(core := s.core.(lastSweep := now));
    SpentCloses(t, Idlers(t.core.flows, now, IdleSecs(s.shared) * SECOND));
  }

  lemma {:induction false} SpentAdmits(s: Site, a: Admission, env: Env)
    requires s.shared.gens != [] && Spent(s.core)
    ensures Spent(AdmitAt(s, a, env).core)
  {
    hide ReadyAt;
    if a.destination.Some? && HasRoom(s) {
      SpentReady(Born(s, a), NextSlot(s), ClientSide, false, env);
    }
  }

  lemma {:induction false} SpentEvent(s: Site, i: nat, side: Side, failed: bool, consumed: bool, env: Env)
    requires Spent(s.core)
    ensures Spent(EventAt(s, i, side, failed, consumed, env).core)
  {
    hide ReadyAt;
    SpentReady(s, i, side, failed, env);
    if i < |s.core.flows| && s.core.flows[i].live {
      SpentReady(s.(core := s.core.(flows := s.core.flows[i := Cleared(s.core.flows[i], side)])), i, side, failed, env);
    }
  }

  /** A worker that has lost all its pipes never relays a flow again, whatever
      happens and however willing the kernel is. */
  lemma {:induction false} SpentForGood(x: World, y: World, w: nat)
    requires WorldOk(x) && w < |x.cores| && Spent(x.cores[w]) && ReachableFrom(x, Anything, y)
    ensures w < |y.cores| && Spent(y.cores[w])
  {
    hide WorldOk, Took, ReachableFrom, Spent;
    var p := (z: World) => w < |z.cores| && Spent(z.cores[w]);
    forall z: World, step | WorldOk(z) && p(z) && Anything(step) ensures z.shared.gens != [] && p(Took(z, step)) {
      SpentStep(z, step, w);
    }
    Kept(x, Anything, y, p);
  }

  lemma {:induction false} SpentStep(x: World, step: Happening, w: nat)
    requires WorldOk(x) && w < |x.cores| && Spent(x.cores[w])
    ensures x.shared.gens != [] && w < |Took(x, step).cores| && Spent(Took(x, step).cores[w])
  {
    hide WorldOk, Spent, JobDone;
    StepKeeps(x, step);
    if step.Work? && step.w == w {
      SiteIsOk(x, w);
      SpentJob(SiteOf(x, w), step.job);
    }
  }

  // ---- housekeeping -----------------------------------------------------------------------------------

  lemma {:induction false} ReapsIdlers(s: Site, now: nat)
    requires SiteOk(s) && s.shared.gens != [] && Max(now - s.core.lastSweep, 0) >= SWEEP_INTERVAL
    ensures var t := Reaped(s, now);
      && |t.core.flows| == |s.core.flows|
      && forall i :: 0 <= i < |s.core.flows| ==>
           if IsIdle(s.core.flows[i], now, IdleSecs(s.shared) * SECOND) then !t.core.flows[i].live
           else t.core.flows[i] == s.core.flows[i]
  {
    hide SiteOk, IsIdle, Idlers, CloseAll;
    var t := s.(core := s.core.(lastSweep := now));
    var pending := Idlers(t.core.flows, now, IdleSecs(s.shared) * SECOND);
    IdlersAre(t.core.flows, now, IdleSecs(s.shared) * SECOND);
    ClosesThose(t, pending);
  }

  lemma {:induction false} SweepIsNoted(s: Site, now: nat)
    requires s.shared.gens != []
    ensures Reaped(s, now).core.lastSweep
         == if Max(now - s.core.lastSweep, 0) < SWEEP_INTERVAL then s.core.lastSweep else now
  {
    hide Idlers, CloseAll;
    var t := s.(core := s.core.(lastSweep := now));
    CloseLeavesSweep(t, Idlers(t.core.flows, now, IdleSecs(s.shared) * SECOND));
  }

  lemma {:induction false} CloseLeavesSweep(s: Site, pending: seq<nat>)
    ensures CloseAll(s, pending).core.lastSweep == s.core.lastSweep
    decreases |pending|
  {
    hide Flows.Closed;
    if pending != [] {
      CloseLeavesSweep(s, pending[..|pending| - 1]);
    }
  }

  /** A sweep, once a second at most, closes exactly the flows idle for longer than
      the current configuration allows, and leaves the others as they are. */
  lemma {:induction false} ReapsExactly(s: Site, now: nat)
    requires SiteOk(s) && s.shared.gens != []
    ensures var t := Reaped(s, now);
      if now < s.core.lastSweep + 1_000_000_000 then t == s
      else
        && |t.core.flows| == |s.core.flows| && t.core.lastSweep == now
        && forall i :: 0 <= i < |s.core.flows| ==>
             var f, secs := s.core.flows[i], s.shared.gens[|s.shared.gens| - 1].config.limits.idleSecs;
             if f.live && f.lastActive + secs * 1_000_000_000 < now then !t.core.flows[i].live
             else t.core.flows[i] == f
  {
    hide SiteOk, Reaped;
    if now >= s.core.lastSweep + 1_000_000_000 {
      ReapsIdlers(s, now);
      SweepIsNoted(s, now);
    } else {
      NoSweepYet(s, now);
    }
  }

  lemma NoSweepYet(s: Site, now: nat)
    requires s.shared.gens != [] && now < s.core.lastSweep + SWEEP_INTERVAL
    ensures Reaped(s, now) == s
  {
  }

  lemma {:induction false} ClosesThose(s: Site, pending: seq<nat>)
    ensures var t := CloseAll(s, pending);
      && |t.core.flows| == |s.core.flows|
      && forall i :: 0 <= i < |s.core.flows| ==>
           if i in pending then !t.core.flows[i].live else t.core.flows[i] == s.core.flows[i]
    decreases |pending|
  {
    if pending != [] {
      var last := |pending| - 1;
      ClosesThose(s, pending[..last]);
      var t := CloseAll(s, pending[..last]);
      var j := pending[last];
      ClosesThat(t, j);
      hide CloseAt;
      forall i | 0 <= i < |s.core.flows|
        ensures if i in pending then !CloseAt(t, j).core.flows[i].live
                else CloseAt(t, j).core.flows[i] == s.core.flows[i]
      {
        assert pending == pending[..last] + [j];
      }
    }
  }

  lemma {:induction false} ClosesThat(s: Site, j: nat)
    ensures var t := CloseAt(s, j);
      && |t.core.flows| == |s.core.flows|
      && (j < |s.core.flows| ==> !t.core.flows[j].live)
      && (forall i :: 0 <= i < |s.core.flows| && i != j ==> t.core.flows[i] == s.core.flows[i])
      && (forall i :: 0 <= i < |s.core.flows| && !s.core.flows[i].live ==> t.core.flows[i] == s.core.flows[i])
  {
    if j < |s.core.flows| && s.core.flows[j].live {
      ClosedIsVacant(CtxAt(s, j));
      hide Closed;
    }
  }
}
