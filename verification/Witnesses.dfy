/** Runs in which the proxy does less than one might hope: a direction that no
    event will wake, pipes that are written off, an event that ends the wrong flow,
    a generation that outlives its flow. */
module Witnesses {
  import opened Basics
  import opened Rules
  import opened ConfigFile
  import opened Prelude
  import opened Kernel
  import opened Relay
  import opened Pass
  import opened PassTheorems
  import opened Server
  import opened Flows
  import opened FlowTheorems
  import opened Workers
  import opened Worlds
  import opened Guarantees
  import opened Sharing
  import Http
  import ConfigTheorems
  import Parser
  import Stats
  import Throttle

  // ---- passes that can be read off ----------------------------------------------------------------

  lemma NothingArrives(s: Sock)
    ensures Arrive(s, NOTHING) == s
  {
    assert s.unread + [] == s.unread;
  }

  /** A direction with nothing to carry and nothing it may read. */
  predicate Stuck(p: PumpState, budget: nat) { p.buffered == 0 && !p.sourceEof && (budget == 0 || Space(p) == 0) }

  lemma {:induction false} StuckStep(l: Lane, budget: nat)
    requires Stuck(l.pump, budget)
    ensures StepLane(l, budget) == Stepped(l, true, 0, false)
  {
  }

  /** A pass over two such directions changes nothing. */
  lemma {:induction false} StuckPass(r: Run)
    requires r.ok && Stuck(r.link.out, r.budget) && Stuck(r.link.back, r.budget)
    ensures Passed(r) == r
  {
    StuckStep(OutLane(r.link), r.budget);
    StuckStep(BackLane(r.link), r.budget);
    hide StepLane, Stuck, Measure;
    assert WithOut(OutLane(r.link), r.link.back) == r.link;
    assert WithBack(BackLane(r.link), r.link.out) == r.link;
    assert Turn(r) == r && !Progressed(r);
  }

  // ---- a connection that gets through at once -----------------------------------------------------

  /** A kernel that agrees to everything: `cap` bytes a pipe, `room` at the far end. */
  function Willing(room: nat, cap: nat, at: nat): Env {
    Env(false, 1, at, true, true, Connected, room, true, at, true, Some(cap), Some(cap), at, true, true, at, [])
  }

  /** A byte that begins no HTTP request. */
  const LETTER: byte := 120

  predicate Speaks(s: Sock) { s.unread != [] && s.unread[0] == LETTER }

  lemma NotHttp(seen: seq<byte>)
    requires |seen| == 1 && seen[0] == LETTER
    ensures Parser.PeekVerdict(HttpMode, seen) == NoHostname
  {
    hide Http.CompleteLines, Http.IsRequestLine, Http.HeaderWalk;
    assert Http.UpperRun(seen) == 0;
  }

  /** The flow as it is first relayed. */
  function Talking(c: Ctx, env: Env): Ctx
    requires Admitted(c.flow, c.shared.gens)
    requires PipesGiven(c, env)
  {
    var routed := Routed(c.(flow := c.flow.(lastActive := env.peekAt)), None);
    PipedCtx(routed.(flow := Dialled(routed.flow, None, env)), env)
  }

  lemma {:induction false} PeekDecides(c: Ctx, env: Env)
    requires c.flow.phase == Peeking && c.flow.mode == HttpMode && c.flow.client.Some? && Speaks(c.flow.client.value)
    requires !env.peekFails && env.peeked == 1
    ensures Handled(c, ClientSide, false, env) == Decided(c.(flow := c.flow.(lastActive := env.peekAt)), None, env)
  {
    hide Decided, Parser.PeekVerdict;
    NotHttp(c.flow.client.value.unread[..1]);
    assert Between(env.peeked, 1, Min(|c.flow.client.value.unread|, MAX_PEEK)) == 1;
  }

  lemma {:induction false} TalksAtOnce(c: Ctx, env: Env)
    requires c.flow.phase == Peeking && c.flow.mode == HttpMode && c.flow.client.Some? && Speaks(c.flow.client.value)
    requires exists room, cap, at :: env == Willing(room, cap, at)
    requires Admitted(c.flow, c.shared.gens) && PipesGiven(c, env)
    requires WayOut(c.shared.gens[c.flow.generation.value], Routed(c, None).flow.rule) == Ok(None)
    ensures Handled(c, ClientSide, false, env) == Relayed(Talking(c, env), env)
  {
    hide Handled, Relayed, MatchRule, Parser.PeekVerdict, Stats.Begun, Stats.SlotFor, WayOut, Gave, Acquire;
    PeekDecides(c, env);
    var d := c.(flow := c.flow.(lastActive := env.peekAt));
    assert Routed(d, None).flow.rule == Routed(c, None).flow.rule;
    assert Decided(d, None, env) == OpenedUp(Routed(d, None), None, env);
  }

  /** One listener, everything direct; with a rate, one rule that limits it all. */
  function Plain(rate: Option<nat>): Config {
    var rules := if rate.None? then [] else [Rule(1, Direct, [100], None, None, None, None, None, rate)];
    Config([Listener(1024, HttpMode)], [], rules, Direct, [100], Limits(2, 120, 65536, 1))
  }

  lemma PlainIsWellFormed(rate: Option<nat>)
    requires rate.Some? ==> 1 <= rate.value <= U32_MAX
    ensures ConfigTheorems.WellFormed(Plain(rate))
  {
  }

  lemma PlainGeneration(rate: Option<nat>)
    ensures NewGeneration(Plain(rate), 0, {}).config == Plain(rate)
  {
  }

  lemma {:induction false} PlainRoute(c: Ctx, rate: Option<nat>)
    requires Admitted(c.flow, c.shared.gens) && c.shared.gens[c.flow.generation.value].config == Plain(rate)
    ensures Routed(c, None).flow.rule == (if rate.Some? then Some(0) else None)
    ensures WayOut(c.shared.gens[c.flow.generation.value], Routed(c, None).flow.rule) == Ok(None)
  {
    hide Stats.Begun, Stats.SlotFor;
    var rules := Plain(rate).rules;
    assert rate.Some? ==> Matches(rules[0], KeyFor(c.flow, None));
  }

  /** A worker with a free slot and no pipes yet in its way, in a plain world. */
  ghost predicate Welcomes(s: Site, a: Admission, env: Env, rate: Option<nat>) {
    && s.shared.gens != [] && s.shared.gens[Current(s.shared)].config == Plain(rate)
    && HasRoom(s) && s.core.pool.idle == [] && s.core.pool.live + 2 <= s.core.pool.limit
    && a.addOk && a.destination.Some? && a.mode == HttpMode && Speaks(a.client)
    && exists room, cap, at :: env == Willing(room, cap, at)
  }

  function Seated(s: Site, a: Admission): Ctx
    requires s.shared.gens != [] && a.destination.Some? && HasRoom(s)
  {
    CtxAt(Born(s, a), NextSlot(s))
  }

  lemma {:induction false} PipesAreMade(c: Ctx, env: Env)
    requires c.pool.idle == [] && c.pool.live + 2 <= c.pool.limit && Plentiful(env)
    ensures PipesGiven(c, env)
    ensures FirstPipe(c, env).pipe.value.value == Pipe(env.outPipe.value, [])
    ensures SecondPipe(c, env).pipe.value.value == Pipe(env.inPipe.value, [])
    ensures SecondPipe(c, env).pool.idle == [] && SecondPipe(c, env).pool.limit == c.pool.limit
    ensures SecondPipe(c, env).pool.live == c.pool.live + 2
  {
  }

  lemma {:induction false} AdmitTalks(s: Site, a: Admission, env: Env, rate: Option<nat>)
    requires Welcomes(s, a, env, rate)
    ensures PipesGiven(Seated(s, a), env) && Admitted(Seated(s, a).flow, s.shared.gens)
    ensures AdmitAt(s, a, env) == Concluded(Born(s, a), NextSlot(s), Relayed(Talking(Seated(s, a), env), env))
  {
    var c := Seated(s, a);
    PipesAreMade(c, env);
    PlainRoute(c, rate);
    hide PipesGiven, Talking, Handled, Relayed, Routed, WayOut, Concluded;
    TalksAtOnce(c, env);
  }

  /** What the first pass starts from. */
  lemma {:induction false} TalkingIs(c: Ctx, env: Env, rate: Option<nat>)
    requires c.flow.client.Some? && c.pool.idle == [] && c.pool.live + 2 <= c.pool.limit && Plentiful(env)
    requires Admitted(c.flow, c.shared.gens) && c.shared.gens[c.flow.generation.value].config == Plain(rate)
    ensures PipesGiven(c, env)
    ensures var d := Talking(c, env);
      && HasLink(d.flow) && d.flow.client == c.flow.client && d.flow.upstream == Some(Kernel.Opened(env.room, None))
      && d.flow.toUpstream == Some(NewPump(Pipe(env.outPipe.value, [])))
      && d.flow.toClient == Some(NewPump(Pipe(env.inPipe.value, [])))
      && d.flow.live == c.flow.live && d.flow.phase == Relaying && d.flow.generation == c.flow.generation
      && d.flow.rule == (if rate.Some? then Some(0) else None) && d.flow.lastActive == env.pipedAt
      && d.shared.gens == c.shared.gens
      && d.pool.idle == [] && d.pool.live == c.pool.live + 2 && d.pool.limit == c.pool.limit
  {
    PipesAreMade(c, env);
    var routed := Routed(c.(flow := c.flow.(lastActive := env.peekAt)), None);
    PipesAreMade(routed.(flow := Dialled(routed.flow, None, env)), env);
    PlainRoute(c.(flow := c.flow.(lastActive := env.peekAt)), rate);
    hide FirstPipe, SecondPipe, Stats.Begun, Stats.SlotFor, MatchRule, WayOut, Plain;
  }

  lemma StepReaches(x: World, step: Happening)
    requires Reachable(x) && x.shared.gens != []
    ensures Reachable(Took(x, step))
  {
    hide Took, Launched, ConfigTheorems.WellFormed;
    var config, nproc, now, up :|
      ConfigTheorems.WellFormed(config) && ReachableFrom(Launched(config, nproc, now, up), Anything, x);
    ReachesOn(Launched(config, nproc, now, up), x, step);
  }

  lemma ReachesOn(start: World, x: World, step: Happening)
    requires ReachableFrom(start, Anything, x) && x.shared.gens != []
    ensures ReachableFrom(start, Anything, Took(x, step))
  {
    hide Took;
    forall p: World -> bool | p(start) && Guarantees.Closed(p, Anything) ensures p(Took(x, step)) {
      assert p(x) && Anything(step);
    }
  }

  lemma StartIsReachable(rate: Option<nat>)
    requires rate.Some? ==> 1 <= rate.value <= U32_MAX
    ensures Reachable(Launched(Plain(rate), 1, 0, {}))
  {
    PlainIsWellFormed(rate);
    hide Launched, ConfigTheorems.WellFormed, Plain;
    assert ReachableFrom(Launched(Plain(rate), 1, 0, {}), Anything, Launched(Plain(rate), 1, 0, {}));
  }

  // ---- a direction that no event will wake ---------------------------------------------------------

  /** A pass that cannot read leaves the flow where it was. */
  lemma {:induction false} StuckRelay(c: Ctx, env: Env)
    requires HasLink(c.flow)
    requires var b := Allowed(c.flow, c.shared.gens, env.relayAt).bytes;
      Stuck(c.flow.toUpstream.value, b) && Stuck(c.flow.toClient.value, b)
    ensures var o := Relayed(c, env);
      && o.ok && o.ctx.flow.client == c.flow.client && o.ctx.flow.upstream == c.flow.upstream
      && o.ctx.flow.toUpstream == c.flow.toUpstream && o.ctx.flow.toClient == c.flow.toClient
      && o.ctx.flow.live == c.flow.live && o.ctx.flow.phase == c.flow.phase && o.ctx.pool == c.pool
      && o.ctx.flow.generation == c.flow.generation && o.ctx.flow.rule == c.flow.rule
      && o.ctx.flow.lastActive == c.flow.lastActive
      && o.ctx.flow.retryAt == (if Allowed(c.flow, c.shared.gens, env.relayAt).bytes > 0 then None
                                else match Allowed(c.flow, c.shared.gens, env.relayAt).retryAfter
                                     case Some(wait) => Some(env.relayAt + wait) case None => None)
      && |o.ctx.shared.gens| == |c.shared.gens|
      && forall g :: 0 <= g < |c.shared.gens| ==>
           o.ctx.shared.gens[g].config == c.shared.gens[g].config
           && o.ctx.shared.gens[g].buckets == Debited(c.flow, c.shared.gens, env.relayAt)[g].buckets
  {
    StuckPass(StartOf(c, env));
    hide Passed, Stuck, Allowed, Limited, Tallied;
  }

  /** The place of the flow that has just been admitted, and what came with it. */
  ghost predicate JustAdmitted(s: Site, a: Admission, env: Env, rate: Option<nat>, t: Site)
    requires HasRoom(s) && s.shared.gens != []
  {
    var i := NextSlot(s);
    && |t.core.flows| == |s.core.flows|
    && t.core.flows == s.core.flows[i := t.core.flows[i]]
    && t.core.free == s.core.free[..|s.core.free| - 1] && t.core.lastSweep == s.core.lastSweep
    && t.core.pool.idle == [] && t.core.pool.live == s.core.pool.live + 2 && t.core.pool.limit == s.core.pool.limit
    && |t.shared.gens| == |s.shared.gens|
    && t.shared.gens[Current(s.shared)].config == s.shared.gens[Current(s.shared)].config
    && var f := t.core.flows[i];
       f.live && f.phase == Relaying && f.generation == Some(Current(s.shared))
       && f.rule == (if rate.Some? then Some(0) else None)
  }

  /** The first pass of a flow that may not read. */
  lemma {:induction false} TalkStuck(c: Ctx, env: Env, rate: Option<nat>)
    requires c.flow.client.Some? && c.pool.idle == [] && c.pool.live + 2 <= c.pool.limit && Plentiful(env)
    requires Admitted(c.flow, c.shared.gens) && c.shared.gens[c.flow.generation.value].config == Plain(rate)
    requires var f := c.flow.(rule := if rate.Some? then Some(0) else None);
      env.outPipe == env.inPipe == Some(0) || Allowed(f, c.shared.gens, env.relayAt).bytes == 0
    ensures PipesGiven(c, env)
    ensures var o := Relayed(Talking(c, env), env);
      var f := o.ctx.flow;
      && o.ok && f.live == c.flow.live && f.phase == Relaying && f.generation == c.flow.generation
      && f.rule == (if rate.Some? then Some(0) else None) && f.lastActive == env.pipedAt
      && f.client == c.flow.client && f.upstream == Some(Kernel.Opened(env.room, None))
      && f.toUpstream == Some(NewPump(Pipe(env.outPipe.value, [])))
      && f.toClient == Some(NewPump(Pipe(env.inPipe.value, [])))
      && (rate.None? ==> f.retryAt.None?)
      && (Limited(f, c.shared.gens) && Allowed(f, c.shared.gens, env.relayAt).bytes == 0 ==>
            f.retryAt == Some(env.relayAt + Allowed(f, c.shared.gens, env.relayAt).retryAfter.value))
      && o.ctx.pool.idle == [] && o.ctx.pool.live == c.pool.live + 2 && o.ctx.pool.limit == c.pool.limit
      && SameConfigs(c.shared.gens, o.ctx.shared.gens)
      && (Limited(f, c.shared.gens) ==> Drawn(f, c.shared.gens, o.ctx.shared.gens, env.relayAt))
  {
    TalkingIs(c, env, rate);
    var d := Talking(c, env);
    AllowedAlike(d.flow, c.flow.(rule := d.flow.rule), c.shared.gens, c.shared.gens, env.relayAt);
    assert rate.None? ==> Allowed(d.flow, c.shared.gens, env.relayAt) == Allowance(USIZE_MAX, None);
    assert Limited(d.flow, c.shared.gens) ==> Allowed(d.flow, c.shared.gens, env.relayAt).retryAfter.Some?;
    hide Talking, Relayed, Plain, Limited, Allowed, Debited, PipesGiven, Drawn;
    assert Stuck(d.flow.toUpstream.value, Allowed(d.flow, d.shared.gens, env.relayAt).bytes);
    assert Stuck(d.flow.toClient.value, Allowed(d.flow, d.shared.gens, env.relayAt).bytes);
    hide Stuck;
    StuckRelay(d, env);
    var f := Relayed(d, env).ctx.flow;
    AllowedAlike(d.flow, f, c.shared.gens, c.shared.gens, env.relayAt);
    if Limited(f, c.shared.gens) {
      RelayDraws(d, env, f);
    }
  }

  lemma {:induction false} RelayDraws(c: Ctx, env: Env, f: Flow)
    requires HasLink(c.flow) && SameBucket(c.flow, f) && Limited(f, c.shared.gens)
    ensures Drawn(f, c.shared.gens, Relayed(c, env).ctx.shared.gens, env.relayAt)
  {
    RelayedBuckets(c, env);
    hide Relayed, Throttle.Taken, Throttle.Granted, Throttle.Refilled, PassOf;
    assert BucketOf(f, Debited(c.flow, c.shared.gens, env.relayAt)).bucket
        == Throttle.Taken(BucketOf(f, c.shared.gens).bucket, USIZE_MAX, env.relayAt);
  }

  /** The bucket of a flow's rule once the flow has drawn from it. */
  ghost predicate Drawn(f: Flow, before: seq<Generation>, after: seq<Generation>, now: nat)
    requires Limited(f, before)
  {
    Limited(f, after) && BucketOf(f, after).bucket == Throttle.Taken(BucketOf(f, before).bucket, USIZE_MAX, now)
  }

  ghost predicate SameConfigs(a: seq<Generation>, b: seq<Generation>) {
    |a| == |b| && forall g :: 0 <= g < |a| ==> b[g].config == a[g].config
  }

  lemma {:induction false} AdmitStuck(s: Site, a: Admission, env: Env, rate: Option<nat>)
    requires Welcomes(s, a, env, rate)
    requires var f := Seated(s, a).flow.(rule := if rate.Some? then Some(0) else None);
      env.outPipe == env.inPipe == Some(0) || Allowed(f, s.shared.gens, env.relayAt).bytes == 0
    ensures var t := AdmitAt(s, a, env);
      && JustAdmitted(s, a, env, rate, t)
      && var f := t.core.flows[NextSlot(s)];
         && f.client == Some(a.client) && f.upstream == Some(Kernel.Opened(env.room, None))
         && f.lastActive == env.pipedAt
         && f.toUpstream == Some(NewPump(Pipe(env.outPipe.value, [])))
         && f.toClient == Some(NewPump(Pipe(env.inPipe.value, [])))
         && (rate.None? ==> f.retryAt.None?)
         && (Limited(f, s.shared.gens) && Allowed(f, s.shared.gens, env.relayAt).bytes == 0 ==>
               f.retryAt == Some(env.relayAt + Allowed(f, s.shared.gens, env.relayAt).retryAfter.value))
         && (Limited(f, s.shared.gens) ==> Drawn(f, s.shared.gens, t.shared.gens, env.relayAt))
  {
    hide Talking, Relayed, AdmitAt, Plain, Limited, Allowed, Debited, PipesGiven;
    AdmitTalks(s, a, env, rate);
    TalkStuck(Seated(s, a), env, rate);
  }

  const ENDPOINT: Option<(bv32, nat)> := Some((0, 443))

  /** A connection that says no host name. */
  function Greeting(bytes: seq<byte>, env: Env): Job {
    Accept(Arrival(bytes, false, 0), 0, ENDPOINT, HttpMode, 0, true, env)
  }

  /** The one worker of a plain proxy as it starts. */
  lemma {:induction false} LaunchSite(rate: Option<nat>, x: World)
    requires x == Launched(Plain(rate), 1, 0, {})
    ensures |x.cores| == 1 && x.shared.gens == [NewGeneration(Plain(rate), 0, {})]
    ensures var c := x.cores[0];
      && c.flows == [Vacant(0), Vacant(0)] && c.free == [1, 0] && c.lastSweep == 0
      && c.pool.idle == [] && c.pool.live == 0 && c.pool.limit == 4
  {
    hide NewGeneration, Stats.Fresh;
    assert PerWorker(Plain(rate).limits, 1) == 2 && WorkerCount(Plain(rate).limits, 1) == 1;
  }

  lemma {:induction false} GreetingIsWelcome(s: Site, bytes: seq<byte>, env: Env, rate: Option<nat>)
    requires s.shared.gens != [] && s.shared.gens[Current(s.shared)].config == Plain(rate)
    requires HasRoom(s) && s.core.pool.idle == [] && s.core.pool.live + 2 <= s.core.pool.limit
    requires bytes != [] && bytes[0] == LETTER && exists room, cap, at :: env == Willing(room, cap, at)
    ensures Welcomes(s, AdmissionOf(Greeting(bytes, env)), env, rate)
    ensures var client := AdmissionOf(Greeting(bytes, env)).client;
      && client.read == [] && client.unread == bytes && !client.closed && client.readEdge
  {
    assert [] + bytes == bytes;
    hide Plain;
  }

  /** An event that finds nothing it may do uses up its edge all the same. */
  lemma {:induction false} EdgeUsedUp(s: Site, i: nat, env: Env)
    requires i < |s.core.flows| && HasLink(s.core.flows[i])
    requires s.core.flows[i].live && s.core.flows[i].phase == Relaying && s.core.flows[i].rule.None?
    requires Stuck(s.core.flows[i].toUpstream.value, USIZE_MAX) && Stuck(s.core.flows[i].toClient.value, USIZE_MAX)
    ensures var f, t := s.core.flows[i], EventAt(s, i, ClientSide, false, true, env);
      && |t.core.flows| == |s.core.flows|
      && var g := t.core.flows[i];
         && HasLink(g) && g.live && g.phase == Relaying && g.retryAt.None?
         && g.client == Unedged(f.client) && g.upstream == f.upstream
         && g.toUpstream == f.toUpstream && g.toClient == f.toClient
  {
    var c := CtxAt(s, i).(flow := Cleared(s.core.flows[i], ClientSide));
    assert Allowed(c.flow, c.shared.gens, env.relayAt) == Allowance(USIZE_MAX, None);
    hide Relayed, Allowed, Stuck, Debited;
    StuckRelay(c, env);
  }

  /** Both pipes of capacity 0: after the event of the first byte the client's
      byte waits, nothing has been read, and neither a timer nor an edge is left. */
  lemma {:induction false} NoEventToCome() returns (x: World)
    ensures Reachable(x) && InWorld(x, 0, 0) && FlowIn(x, 0, 0).live && FlowIn(x, 0, 0).phase == Relaying
    ensures HasLink(FlowIn(x, 0, 0))
    ensures var f := FlowIn(x, 0, 0);
      var k := LinkOf(f, []);
      && f.retryAt.None? && Pending(k.out, k.client) && Pulled(k) == 0
      && k.client.unread == [LETTER] && k.out.pipe.capacity == 0 && !(k.out.buffered > 0 && DestFull(k.upstream))
  {
    hide Reachable, Launched, AdmitAt, EventAt, Stuck, Plain, Stats.Fresh, NewGeneration, AdmissionOf;
    var env := Willing(0, 0, 0);
    var start := Launched(Plain(None), 1, 0, {});
    LaunchSite(None, start);
    StartIsReachable(None);
    PlainGeneration(None);
    var y := Took(start, Work(0, Greeting([LETTER], env)));
    StepReaches(start, Work(0, Greeting([LETTER], env)));
    GreetingDone(start, [LETTER], env);
    GreetingIsWelcome(SiteOf(start, 0), [LETTER], env, None);
    AdmitStuck(SiteOf(start, 0), AdmissionOf(Greeting([LETTER], env)), env, None);
    var event := Event(0, ClientSide, false, true, env);
    x := Took(y, Work(0, event));
    StepReaches(y, Work(0, event));
    EmptyIsStuck();
    EdgeUsedUp(SiteOf(y, 0), 0, env);
    EventDone(y, event);
  }

  lemma EmptyIsStuck()
    ensures Stuck(NewPump(Pipe(0, [])), USIZE_MAX)
  {
  }

  lemma GreetingDone(x: World, bytes: seq<byte>, env: Env)
    requires |x.cores| == 1 && x.shared.gens != []
    ensures var y := Took(x, Work(0, Greeting(bytes, env)));
      |y.cores| == 1 && SiteOf(y, 0) == AdmitAt(SiteOf(x, 0), AdmissionOf(Greeting(bytes, env)), env)
  {
    hide AdmitAt;
  }

  lemma EventDone(x: World, job: Job)
    requires |x.cores| == 1 && x.shared.gens != [] && job.Event?
    ensures var y := Took(x, Work(0, job));
      && |y.cores| == 1
      && SiteOf(y, 0) == EventAt(SiteOf(x, 0), job.index, job.side, job.failed, job.consumed, job.env)
  {
    hide EventAt;
  }

  // ---- a pipe written off --------------------------------------------------------------------------------

  /** A connection that will be dialled directly as soon as it is accepted. */
  ghost predicate Dials(s: Site, a: Admission, env: Env) {
    && s.shared.gens != [] && s.shared.gens[Current(s.shared)].config == Plain(None)
    && HasRoom(s) && a.addOk && a.destination.Some? && a.mode == HttpMode && Speaks(a.client)
    && !env.peekFails && env.peeked == 1 && env.socketOk && env.addOk && env.connect != Refused
  }

  function DialledCtx(c: Ctx, env: Env): Ctx
    requires Admitted(c.flow, c.shared.gens)
  {
    var routed := Routed(c.(flow := c.flow.(lastActive := env.peekAt)), None);
    routed.(flow := Dialled(routed.flow, None, env))
  }

  function DialOutcome(c: Ctx, env: Env): Outcome
    requires Admitted(c.flow, c.shared.gens)
  {
    if env.connect == Connected then ConnectedUp(DialledCtx(c, env), false, env) else Outcome(DialledCtx(c, env), true)
  }

  lemma {:induction false} AdmitDials(s: Site, a: Admission, env: Env)
    requires Dials(s, a, env)
    ensures Admitted(Seated(s, a).flow, s.shared.gens)
    ensures AdmitAt(s, a, env) == Concluded(Born(s, a), NextSlot(s), DialOutcome(Seated(s, a), env))
  {
    var c := Seated(s, a);
    var d := c.(flow := c.flow.(lastActive := env.peekAt));
    PlainRoute(d, None);
    hide Handled, Routed, WayOut, Concluded, ConnectedUp, Plain, Parser.PeekVerdict;
    PeekDecides(c, env);
    assert Decided(d, None, env) == OpenedUp(Routed(d, None), None, env);
  }

  lemma {:induction false} DialledIs(c: Ctx, env: Env)
    requires Admitted(c.flow, c.shared.gens)
    ensures var d := DialledCtx(c, env);
      && d.flow.live == c.flow.live && d.flow.phase == Connecting && d.flow.source == c.flow.source
      && d.flow.client == c.flow.client && d.flow.toUpstream == c.flow.toUpstream && d.flow.toClient == c.flow.toClient
      && d.pool == c.pool && d.shared.gens == c.shared.gens
  {
    hide MatchRule, Stats.Begun, Stats.SlotFor;
  }

  /** No flow at all, and no idle pipe, but `n` pipes counted. */
  ghost predicate Worn(s: Site, n: nat) {
    && |s.core.flows| == 2 && !s.core.flows[0].live && !s.core.flows[1].live && s.core.free == [1, 0]
    && s.core.pool.idle == [] && s.core.pool.live == n && s.core.pool.limit == 4
    && |s.shared.gens| == 1 && s.shared.gens[0].config == Plain(None)
  }

  /** The kernel creates the first pipe and refuses the second. */
  function OnePipe(): Env { Willing(0, 65536, 0).(inPipe := None) }

  lemma {:induction false} GreetingDials(s: Site, env: Env)
    requires s.shared.gens != [] && s.shared.gens[Current(s.shared)].config == Plain(None) && HasRoom(s)
    requires !env.peekFails && env.peeked == 1 && env.socketOk && env.addOk && env.connect != Refused
    ensures Dials(s, AdmissionOf(Greeting([LETTER], env)), env)
  {
    hide Plain;
    assert [] + [LETTER] == [LETTER];
  }

  lemma {:induction false} OneMoreLost(s: Site, n: nat)
    requires Worn(s, n) && n < 4
    ensures Worn(AdmitAt(s, AdmissionOf(Greeting([LETTER], OnePipe())), OnePipe()), n + 1)
  {
    var env := OnePipe();
    var a := AdmissionOf(Greeting([LETTER], env));
    GreetingDials(s, env);
    hide Plain, AdmitAt, DialledCtx, Dials;
    AdmitDials(s, a, env);
    DialledIs(Seated(s, a), env);
    assert s.core.free[..1] + [0] == [1, 0];
  }

  lemma WornOut(s: Site)
    requires Worn(s, 4)
    ensures Spent(s.core)
  {
    hide Plain;
  }

  /** Up to four connections come and go, and each costs the pool a pipe: `n` are
      counted and none is left. After four there is none for anybody any more. */
  lemma {:induction false} PipesLost(n: nat) returns (x: World)
    requires n <= 4
    ensures Reachable(x) && |x.cores| == 1 && Worn(SiteOf(x, 0), n) && (n == 4 ==> Spent(x.cores[0]))
  {
    var start := Launched(Plain(None), 1, 0, {});
    var step := Work(0, Greeting([LETTER], OnePipe()));
    hide Reachable, Launched, AdmitAt, Plain, Stats.Fresh, NewGeneration, Greeting, AdmissionOf, OnePipe, Spent;
    if n == 0 {
      LaunchSite(None, start);
      StartIsReachable(None);
      PlainGeneration(None);
      x := start;
    } else {
      var y := PipesLost(n - 1);
      x := Took(y, step);
      OneMoreLost(SiteOf(y, 0), n - 1);
      StepReaches(y, step);
      GreetingDone(y, [LETTER], OnePipe());
      if n == 4 {
        WornOut(SiteOf(x, 0));
      }
    }
  }

  // ---- an event for an earlier flow ------------------------------------------------------------------------

  /** The connect is under way. */
  function UnderWay(): Env { Willing(0, 65536, 0).(connect := InProgress) }

  /** A connection that has sent nothing yet. */
  function Silent(source: bv32): Job { Accept(Arrival([], false, 0), source, ENDPOINT, HttpMode, 0, true, CALM_ENV) }

  function Failure(side: Side): Job { Event(0, side, true, false, CALM_ENV) }

  /** Slot 0 is to be used next, or is in use by a flow from `source`. */
  ghost predicate SlotZero(s: Site, used: bool) {
    && |s.core.flows| == 2 && s.core.flows[0].live == used && s.core.free == (if used then [1] else [1, 0])
    && |s.shared.gens| == 1 && s.shared.gens[0].config == Plain(None)
  }

  lemma {:induction false} FirstConnects(s: Site)
    requires SlotZero(s, false)
    ensures var t := AdmitAt(s, AdmissionOf(Greeting([LETTER], UnderWay())), UnderWay());
      SlotZero(t, true) && t.core.flows[0].phase == Connecting && t.core.flows[0].source == 0
  {
    var env := UnderWay();
    var a := AdmissionOf(Greeting([LETTER], env));
    GreetingDials(s, env);
    hide Plain, AdmitAt, DialledCtx, Dials;
    AdmitDials(s, a, env);
    DialledIs(Seated(s, a), env);
    assert s.core.free[..1] == [1];
  }

  lemma {:induction false} FailureEnds(s: Site, side: Side)
    requires SlotZero(s, true)
    requires s.core.flows[0].phase == Peeking || (s.core.flows[0].phase == Connecting && side == UpstreamSide)
    ensures SlotZero(JobDone(s, Failure(side)), false)
  {
    hide Plain, Peeked, Relayed;
    assert [1] + [0] == [1, 0];
  }

  lemma NothingToPeek(c: Ctx)
    requires c.flow.phase == Peeking && c.flow.client.Some?
    requires c.flow.client.value.unread == [] && !c.flow.client.value.closed
    ensures Handled(c, ClientSide, false, CALM_ENV) == Outcome(c, true)
  {
    hide Decided, Parser.PeekVerdict;
  }

  /** A newcomer that has sent nothing stays as it was seated. */
  lemma {:induction false} AdmitWaits(s: Site, a: Admission)
    requires s.shared.gens != [] && HasRoom(s) && a.addOk && a.destination.Some?
    requires a.client.unread == [] && !a.client.closed
    ensures AdmitAt(s, a, CALM_ENV).core.flows == Born(s, a).core.flows
    ensures AdmitAt(s, a, CALM_ENV).core.free == Born(s, a).core.free
    ensures AdmitAt(s, a, CALM_ENV).shared == s.shared
  {
    hide Handled;
    NothingToPeek(Seated(s, a));
  }

  lemma SilentSaysNothing(source: bv32)
    ensures var a := AdmissionOf(Silent(source));
      && a.addOk && a.destination.Some? && a.source == source && a.client.unread == [] && !a.client.closed
  {
  }

  lemma {:induction false} SilentIsSeated(s: Site, a: Admission)
    requires SlotZero(s, false) && a.addOk && a.destination.Some? && a.client.unread == [] && !a.client.closed
    ensures var t := AdmitAt(s, a, CALM_ENV);
      && SlotZero(t, true) && t.core.flows[0].phase == Peeking && t.core.flows[0].source == a.source
      && t.core.flows[0].client == Some(a.client)
  {
    hide Plain, AdmitAt;
    AdmitWaits(s, a);
    assert s.core.free[..1] == [1];
  }

  lemma SilentDone(s: Site, source: bv32)
    requires SlotZero(s, false)
    ensures s.shared.gens != [] && Silent(source).Accept?
    ensures JobDone(s, Silent(source)) == AdmitAt(s, AdmissionOf(Silent(source)), CALM_ENV)
  {
    hide AdmitAt, AdmissionOf, CALM_ENV;
  }

  lemma {:induction false} SilentIsPeeked(s: Site, source: bv32)
    requires SlotZero(s, false)
    ensures var t := JobDone(s, Silent(source));
      && SlotZero(t, true) && t.core.flows[0].phase == Peeking && t.core.flows[0].source == source
      && t.core.flows[0].client.Some? && !t.core.flows[0].client.value.closed
  {
    hide *;
    SilentDone(s, source);
    SilentSaysNothing(source);
    SilentIsSeated(s, AdmissionOf(Silent(source)));
  }

  lemma JobIsDone(x: World, job: Job)
    requires |x.cores| == 1 && x.shared.gens != []
    ensures var y := Took(x, Work(0, job)); |y.cores| == 1 && SiteOf(y, 0) == JobDone(SiteOf(x, 0), job)
  {
    hide JobDone;
  }

  /** Both sockets of a connecting flow fail. The event of the one ends it, a new
      connection gets its index, and the event of the other then ends the newcomer,
      with whose socket nothing is wrong. */
  lemma {:induction false} StaleEventEnds() returns (x: World)
    ensures Reachable(x) && InWorld(x, 0, 0)
    ensures FlowIn(x, 0, 0).live && FlowIn(x, 0, 0).phase == Connecting && FlowIn(x, 0, 0).source == 0
    ensures x.shared.gens != []
    ensures var y := Took(x, Work(0, Failure(UpstreamSide)));
      && InWorld(y, 0, 0) && !FlowIn(y, 0, 0).live && y.shared.gens != []
      && var z := Took(y, Work(0, Silent(1)));
         && InWorld(z, 0, 0) && FlowIn(z, 0, 0).live && FlowIn(z, 0, 0).phase == Peeking && FlowIn(z, 0, 0).source == 1
         && FlowIn(z, 0, 0).client.Some? && !FlowIn(z, 0, 0).client.value.closed && z.shared.gens != []
         && var end := Took(z, Work(0, Failure(ClientSide))); InWorld(end, 0, 0) && !FlowIn(end, 0, 0).live
  {
    var start := Launched(Plain(None), 1, 0, {});
    var first := Work(0, Greeting([LETTER], UnderWay()));
    hide Reachable, Launched, AdmitAt, JobDone, Plain, Stats.Fresh, NewGeneration, Greeting, AdmissionOf, UnderWay,
         Silent, Failure;
    LaunchSite(None, start);
    StartIsReachable(None);
    PlainGeneration(None);
    FirstConnects(SiteOf(start, 0));
    GreetingDone(start, [LETTER], UnderWay());
    StepReaches(start, first);
    x := Took(start, first);
    FailureEnds(SiteOf(x, 0), UpstreamSide);
    JobIsDone(x, Failure(UpstreamSide));
    var y := Took(x, Work(0, Failure(UpstreamSide)));
    SilentIsPeeked(SiteOf(y, 0), 1);
    JobIsDone(y, Silent(1));
    var z := Took(y, Work(0, Silent(1)));
    FailureEnds(SiteOf(z, 0), ClientSide);
    JobIsDone(z, Failure(ClientSide));
  }

  // ---- a generation left behind ----------------------------------------------------------------------------

  /** A connection whose registration fails. */
  function Unregistered(): Job { Accept(Arrival([], false, 0), 0, ENDPOINT, HttpMode, 0, false, CALM_ENV) }

  /** A vacant slot that holds on to a generation. */
  lemma {:induction false} GenerationLeft() returns (x: World)
    ensures Reachable(x) && InWorld(x, 0, 0) && VacantWithGeneration(FlowIn(x, 0, 0))
    ensures FlowIn(x, 0, 0).generation == Some(0) && 0 in x.cores[0].free
  {
    var start := Launched(Plain(None), 1, 0, {});
    hide Reachable, Launched, Plain, Stats.Fresh, NewGeneration;
    LaunchSite(None, start);
    StartIsReachable(None);
    StepReaches(start, Work(0, Unregistered()));
    JobIsDone(start, Unregistered());
    x := Took(start, Work(0, Unregistered()));
    assert x.cores[0].free[1] == 0;
  }
}
