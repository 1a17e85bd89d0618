/** Two flows of one rule, of which the second never gets its share; and a pass
    whose bytes are never counted. */
module Starvation {
  import opened Basics
  import opened Kernel
  import opened Relay
  import opened Pass
  import opened PassTheorems
  import opened Server
  import opened Flows
  import opened FlowTheorems
  import opened Workers
  import opened Worlds
  import opened Guarantees
  import opened Sharing
  import opened Witnesses
  import Stats
  import Throttle

  // ---- passes that use up their budget ---------------------------------------------------------------

  /** A direction that can take its whole budget through in one step. */
  predicate Clear(l: Lane, n: nat) {
    && l.wire.script == [] && 0 < n <= U64_MAX
    && l.pump.buffered == 0 && l.pump.pipe.content == [] && !l.pump.sourceEof && l.pump.pipe.capacity >= n
    && |l.wire.src.unread| >= n && l.wire.dst.room >= n
  }

  /** What such a step, or a pass of such steps, does to its direction. */
  predicate Through(l: Lane, m: Lane, n: nat) {
    && |m.wire.src.unread| + n == |l.wire.src.unread| && |m.wire.src.read| == |l.wire.src.read| + n
    && m.wire.dst.room + n == l.wire.dst.room && m.wire.script == []
    && m.pump.pipe == l.pump.pipe && m.pump.buffered == 0 && !m.pump.sourceEof
  }

  lemma {:induction false} ClearStep(l: Lane, n: nat)
    requires Clear(l, n)
    ensures var s := StepLane(l, n); s.ok && s.progress && s.moved == n && Through(l, s.lane, n)
  {
    ClearFill(l, n);
    var f := Fill(l, n).lane;
    hide Fill, Drain, Arrive;
    ClearDrain(f, n);
  }

  lemma {:induction false} ClearFill(l: Lane, n: nat)
    requires Clear(l, n)
    ensures var f := Fill(l, n);
      && f.step == Ok(Moved(n)) && f.lane.wire.script == [] && f.lane.wire.dst == l.wire.dst
      && |f.lane.wire.src.unread| + n == |l.wire.src.unread| && |f.lane.wire.src.read| == |l.wire.src.read| + n
      && f.lane.pump.pipe.capacity == l.pump.pipe.capacity && |f.lane.pump.pipe.content| == n == f.lane.pump.buffered
      && !f.lane.pump.sourceEof
  {
    NothingArrives(l.wire.src);
    NothingArrives(l.wire.dst);
    hide Arrive;
  }

  lemma {:induction false} ClearDrain(l: Lane, n: nat)
    requires l.wire.script == [] && 0 < n <= U64_MAX && l.pump.buffered == n == |l.pump.pipe.content|
    requires l.wire.dst.room >= n
    ensures var d := Drain(l);
      && d.step == Ok(Moved(n)) && d.lane.wire.src == l.wire.src && d.lane.wire.script == []
      && d.lane.wire.dst.room + n == l.wire.dst.room
      && d.lane.pump.pipe == Pipe(l.pump.pipe.capacity, []) && d.lane.pump.buffered == 0
      && d.lane.pump.sourceEof == l.pump.sourceEof
  {
    NothingArrives(l.wire.src);
    NothingArrives(l.wire.dst);
    hide Arrive;
  }

  /** Such a pass uses up its budget. */
  lemma {:induction false} ClearPass(r: Run)
    requires r.ok && Clear(OutLane(r.link), r.budget) && r.link.back.buffered == 0 && !r.link.back.sourceEof
    ensures var q := Passed(r);
      && q.ok && q.budget == 0 && q.movedOut == r.movedOut + r.budget && q.link.back == r.link.back
      && Through(OutLane(r.link), OutLane(q.link), r.budget)
  {
    ClearStep(OutLane(r.link), r.budget);
    StuckStep(BackLane(FirstLink(r)), 0);
    TurnMeasure(r);
    hide StepLane, Measure, Clear;
    var t := Turn(r);
    assert t.ok && t.budget == 0 && Progressed(r);
    assert Stuck(t.link.out, 0) && Stuck(t.link.back, 0);
    StuckPass(t);
  }

  // ---- two flows, one bucket --------------------------------------------------------------------------

  /** A flow that has taken `n` bytes from its client through, and nothing the other way. */
  predicate Fetched(f: Flow, g: Flow, n: nat)
    requires HasLink(f)
  {
    && HasLink(g) && g.toClient == f.toClient
    && Through(OutLane(LinkOf(f, [])), OutLane(LinkOf(g, [])), n)
  }

  lemma {:induction false} PaidConfigs(c: Ctx, env: Env)
    requires HasLink(c.flow)
    ensures SameConfigs(c.shared.gens, Paid(c, env))
  {
    hide Passed, Allowed, Limited, PulledBy;
  }

  /** A pass that reads all it was granted, and has more to read. */
  lemma {:induction false} BurstRelay(c: Ctx, env: Env)
    requires HasLink(c.flow) && Limited(c.flow, c.shared.gens)
    requires Clear(OutLane(LinkOf(c.flow, env.script)), Allowed(c.flow, c.shared.gens, env.relayAt).bytes)
    requires c.flow.toClient.value.buffered == 0 && !c.flow.toClient.value.sourceEof
    ensures var o := Relayed(c, env);
      && o.ok && HasLink(o.ctx.flow) && o.ctx.flow.live == c.flow.live && o.ctx.flow.phase == c.flow.phase
      && o.ctx.flow.generation == c.flow.generation && o.ctx.flow.rule == c.flow.rule && o.ctx.pool == c.pool
      && o.ctx.flow.retryAt == Some(env.relayAt + Allowed(c.flow, c.shared.gens, env.relayAt).retryAfter.value)
      && o.ctx.flow.lastActive == env.relayAt
      && Fetched(c.flow, o.ctx.flow, Allowed(c.flow, c.shared.gens, env.relayAt).bytes)
      && SameConfigs(c.shared.gens, o.ctx.shared.gens)
  {
    ClearPass(StartOf(c, env));
    assert Allowed(c.flow, c.shared.gens, env.relayAt).retryAfter.Some?;
    hide Passed, Clear, Allowed, Limited, Tallied, Through, Debited, WithPulled, PulledBy;
    PaidConfigs(c, env);
  }

  /** A pump that holds nothing and whose source may have more. */
  predicate Ready(p: PumpState, capacity: nat) { p.buffered == 0 && p.pipe == Pipe(capacity, []) && !p.sourceEof }

  /** What a first pass of `n` bytes from the client leaves. */
  predicate Started(f: Flow, client: Sock, env: Env, n: nat) {
    && HasLink(f) && f.lastActive == env.relayAt && env.outPipe.Some? && env.inPipe.Some?
    && |f.client.value.read| == |client.read| + n && |f.client.value.unread| + n == |client.unread|
    && f.upstream.value.room + n == env.room
    && Ready(f.toUpstream.value, env.outPipe.value) && Ready(f.toClient.value, env.inPipe.value)
  }

  lemma FetchedFirst(f: Flow, g: Flow, env: Env, n: nat)
    requires HasLink(f) && Fetched(f, g, n) && env.outPipe.Some? && env.inPipe.Some? && g.lastActive == env.relayAt
    requires f.toUpstream == Some(NewPump(Pipe(env.outPipe.value, [])))
    requires f.toClient == Some(NewPump(Pipe(env.inPipe.value, [])))
    requires f.upstream == Some(Kernel.Opened(env.room, None))
    ensures Started(g, f.client.value, env, n)
  {
  }

  lemma {:induction false} TalkBurst(c: Ctx, env: Env, rate: Option<nat>)
    requires c.flow.client.Some? && c.pool.idle == [] && c.pool.live + 2 <= c.pool.limit && Plentiful(env)
    requires Admitted(c.flow, c.shared.gens) && c.shared.gens[c.flow.generation.value].config == Plain(rate)
    requires rate.Some? && env.script == []
    requires var f := c.flow.(rule := Some(0));
      && Limited(f, c.shared.gens)
      && var b := Allowed(f, c.shared.gens, env.relayAt).bytes;
         0 < b <= U64_MAX && env.outPipe.value >= b && env.room >= b && |c.flow.client.value.unread| >= b
    ensures PipesGiven(c, env)
    ensures var o := Relayed(Talking(c, env), env);
      var f := o.ctx.flow;
      && o.ok && HasLink(f) && f.live == c.flow.live && f.phase == Relaying && f.generation == c.flow.generation
      && f.rule == Some(0) && f.retryAt == Some(env.relayAt + Allowed(f, c.shared.gens, env.relayAt).retryAfter.value)
      && o.ctx.pool.idle == [] && o.ctx.pool.live == c.pool.live + 2 && o.ctx.pool.limit == c.pool.limit
      && SameConfigs(c.shared.gens, o.ctx.shared.gens)
      && Started(f, c.flow.client.value, env, Allowed(f, c.shared.gens, env.relayAt).bytes)
      && Limited(f, c.shared.gens) && Drawn(f, c.shared.gens, o.ctx.shared.gens, env.relayAt)
  {
    TalkingIs(c, env, rate);
    var d, f := Talking(c, env), c.flow.(rule := Some(0));
    AllowedAlike(d.flow, f, c.shared.gens, c.shared.gens, env.relayAt);
    hide Talking, Relayed, Plain, Limited, Allowed, Debited, PipesGiven, Drawn;
    assert Clear(OutLane(LinkOf(d.flow, env.script)), Allowed(d.flow, d.shared.gens, env.relayAt).bytes);
    hide Clear, Fetched, Started;
    BurstRelay(d, env);
    FetchedFirst(d.flow, Relayed(d, env).ctx.flow, env, Allowed(f, c.shared.gens, env.relayAt).bytes);
    var g := Relayed(d, env).ctx.flow;
    AllowedAlike(d.flow, g, c.shared.gens, c.shared.gens, env.relayAt);
    RelayDraws(d, env, g);
  }

  lemma {:induction false} AdmitBurst(s: Site, a: Admission, env: Env, rate: Option<nat>)
    requires Welcomes(s, a, env, rate) && rate.Some?
    requires var f := Seated(s, a).flow.(rule := Some(0));
      && Limited(f, s.shared.gens)
      && var b := Allowed(f, s.shared.gens, env.relayAt).bytes;
         0 < b <= U64_MAX && env.outPipe.value >= b && env.room >= b && |a.client.unread| >= b
    ensures var t := AdmitAt(s, a, env);
      && JustAdmitted(s, a, env, rate, t)
      && var f := t.core.flows[NextSlot(s)];
         && HasLink(f) && f.retryAt == Some(env.relayAt + Allowed(f, s.shared.gens, env.relayAt).retryAfter.value)
         && Started(f, a.client, env, Allowed(f, s.shared.gens, env.relayAt).bytes)
         && Limited(f, s.shared.gens) && Drawn(f, s.shared.gens, t.shared.gens, env.relayAt)
  {
    hide Talking, Relayed, AdmitAt, Plain, Limited, Allowed, Debited, PipesGiven, Drawn, Started;
    AdmitTalks(s, a, env, rate);
    TalkBurst(Seated(s, a), env, rate);
  }

  /** A rule's bucket of 16 KiB, filling at 1000 bytes a second. */
  function SlowBucket(tokens: nat, last: nat): Throttle.Bucket { Throttle.Bucket(1000, 16384, tokens, last) }

  /** What such a bucket grants is the tokens it has and what it has earned since. */
  lemma SlowDraws(tokens: nat, last: nat, now: nat, earned: nat)
    requires tokens + earned <= 16384 && now >= last
    requires earned * MILLISECOND <= now - last < (earned + 1) * MILLISECOND
    ensures Throttle.Granted(SlowBucket(tokens, last), USIZE_MAX, now) == tokens + earned
    ensures Throttle.Taken(SlowBucket(tokens, last), USIZE_MAX, now) == SlowBucket(0, if earned > 0 then now else last)
    ensures Throttle.WaitHint(SlowBucket(tokens, last)) == Throttle.MAX_WAIT
  {
    assert Throttle.Gain(SlowBucket(tokens, last), now) == earned;
  }

  ghost predicate HasSlow(f: Flow, gens: seq<Generation>, tokens: nat, last: nat) {
    Limited(f, gens) && BucketOf(f, gens).bucket == SlowBucket(tokens, last)
  }

  lemma SlowAllows(f: Flow, gens: seq<Generation>, tokens: nat, last: nat, now: nat, earned: nat)
    requires HasSlow(f, gens, tokens, last) && tokens + earned <= 16384 && now >= last
    requires earned * MILLISECOND <= now - last < (earned + 1) * MILLISECOND
    ensures Limited(f, gens) && Allowed(f, gens, now) == Allowance(tokens + earned, Some(Throttle.MAX_WAIT))
  {
    hide SlowBucket, Throttle.Granted, Throttle.Taken, Throttle.WaitHint;
    SlowDraws(tokens, last, now, earned);
    var kept := if earned > 0 then now else last;
    SlowDraws(0, kept, kept, 0);
  }

  lemma {:induction false} SlowAtFirst(f: Flow, gens: seq<Generation>)
    requires gens == [NewGeneration(Plain(Some(8)), 0, {})] && f.generation == Some(0) && f.rule == Some(0)
    ensures HasSlow(f, gens, 16384, 0)
  {
    assert Throttle.Full(8, 0) == SlowBucket(16384, 0);
    assert gens[0].buckets[0] == Some(Throttle.Opened(8, 0));
  }

  lemma SlowDrawn(
      f: Flow, before: seq<Generation>, after: seq<Generation>, tokens: nat, last: nat, now: nat, earned: nat)
    requires HasSlow(f, before, tokens, last) && tokens + earned <= 16384 && now >= last
    requires earned * MILLISECOND <= now - last < (earned + 1) * MILLISECOND
    requires Drawn(f, before, after, now)
    ensures HasSlow(f, after, 0, if earned > 0 then now else last)
  {
    SlowDraws(tokens, last, now, earned);
    hide Throttle.Taken;
  }

  lemma SlowAlike(f: Flow, g: Flow, gens: seq<Generation>, tokens: nat, last: nat)
    requires HasSlow(f, gens, tokens, last) && SameBucket(f, g)
    ensures HasSlow(g, gens, tokens, last)
  {
  }

  /** The housekeeping comes every 101 ms, the first time after 101 ms. */
  function At(k: nat): nat { 101 * MILLISECOND * k }

  /** The sweep that finds the second flow idle for more than two minutes. */
  const ROUNDS: nat := 1190

  /** What the first flow has had after `k` rounds. */
  function Share(k: nat): nat { 16384 + 101 * k }

  /** A throttled flow whose moment comes at most a millisecond, the unit the loop
      sleeps in, before the next housekeeping. */
  predicate Waits(f: Flow, k: nat) {
    f.live && f.phase == Relaying && f.generation == Some(0) && f.rule == Some(0)
    && f.retryAt.Some? && f.retryAt.value <= At(k + 1) <= f.retryAt.value + MILLISECOND
  }

  /** The first flow of the rule: it has had all there was and has more to send. */
  ghost predicate Greedy(f: Flow, k: nat) { Waits(f, k) && Supplied(f, k) }

  ghost predicate Supplied(f: Flow, k: nat) {
    && HasLink(f) && f.lastActive == At(k)
    && Ready(f.toUpstream.value, 65536) && Ready(f.toClient.value, 65536)
    && |f.client.value.read| == Share(k)
    && |f.client.value.unread| + Share(k) >= Share(ROUNDS) && f.upstream.value.room + Share(k) >= Share(ROUNDS)
  }

  /** The second: one byte waits, there is room for it, and it has read nothing. */
  ghost predicate Hungry(f: Flow, k: nat) {
    && Waits(f, k) && HasLink(f) && f.lastActive == 0
    && f.client.value.read == [] && f.client.value.unread == [LETTER] && !f.client.value.closed
    && f.upstream == Some(Kernel.Opened(200000, None))
    && f.toUpstream == f.toClient == Some(NewPump(Pipe(65536, [])))
  }

  ghost predicate FirstSeated(s: Site) {
    && |s.core.flows| == 2 && Greedy(s.core.flows[0], 0) && HasSlow(s.core.flows[0], s.shared.gens, 0, 0)
    && s.core.free == [1] && s.core.lastSweep == 0
    && s.core.pool.idle == [] && s.core.pool.live == 2 && s.core.pool.limit == 4
    && |s.shared.gens| == 1 && s.shared.gens[0].config == Plain(Some(8))
  }

  /** Both flows after `k` rounds, the last sweep having been at round `swept`. */
  ghost predicate Rationed(s: Site, k: nat, swept: nat) {
    && |s.core.flows| == 2 && Greedy(s.core.flows[0], k) && Hungry(s.core.flows[1], k)
    && HasSlow(s.core.flows[1], s.shared.gens, 0, At(k)) && s.core.lastSweep == At(swept)
    && |s.shared.gens| == 1 && s.shared.gens[0].config == Plain(Some(8))
  }

  lemma {:induction false} FirstTakesAll(s: Site, payload: seq<byte>)
    requires |payload| >= Share(ROUNDS) && payload[0] == LETTER
    requires s.core.flows == [Vacant(0), Vacant(0)] && s.core.free == [1, 0] && s.core.lastSweep == 0
    requires s.core.pool.idle == [] && s.core.pool.live == 0 && s.core.pool.limit == 4
    requires s.shared.gens == [NewGeneration(Plain(Some(8)), 0, {})]
    ensures var env := Willing(200000, 65536, 0);
      FirstSeated(AdmitAt(s, AdmissionOf(Greeting(payload, env)), env))
  {
    var env := Willing(200000, 65536, 0);
    var a := AdmissionOf(Greeting(payload, env));
    hide Plain, AdmitAt, NewGeneration, Welcomes, AdmissionOf, FirstSeated;
    PlainGeneration(Some(8));
    GreetingIsWelcome(s, payload, env, Some(8));
    BurstLeaves(s, a, env);
    GreedyIs(s, AdmitAt(s, a, env));
  }

  ghost predicate BurstLeft(s: Site, t: Site) {
    && |t.core.flows| == 2 && t.core.free == [1] && t.core.lastSweep == 0
    && t.core.pool.idle == [] && t.core.pool.live == 2 && t.core.pool.limit == 4
    && |t.shared.gens| == 1 && t.shared.gens[0].config == Plain(Some(8))
    && var f := t.core.flows[0];
       && f.live && f.phase == Relaying && f.generation == Some(0) && f.rule == Some(0)
       && Limited(f, s.shared.gens) && Drawn(f, s.shared.gens, t.shared.gens, 0)
       && f.retryAt == Some(Throttle.MAX_WAIT)
       && exists a: Admission, env: Env ::
            && Started(f, a.client, env, 16384) && env == Willing(200000, 65536, 0)
            && a.client.read == [] && |a.client.unread| >= Share(ROUNDS)
  }

  lemma {:induction false} BurstLeaves(s: Site, a: Admission, env: Env)
    requires Welcomes(s, a, env, Some(8)) && |a.client.unread| >= Share(ROUNDS) && a.client.read == []
    requires env == Willing(200000, 65536, 0)
    requires |s.core.flows| == 2 && s.core.free == [1, 0] && s.core.lastSweep == 0
    requires s.core.pool.live == 0 && s.core.pool.limit == 4
    requires s.shared.gens == [NewGeneration(Plain(Some(8)), 0, {})]
    ensures BurstLeft(s, AdmitAt(s, a, env))
  {
    hide Plain, AdmitAt, Allowed, Limited, HasSlow, NewGeneration, Drawn, Seated, Welcomes, Started;
    FirstMayDraw(s, a, env);
    PlainGeneration(Some(8));
    WelcomeHasRoom(s, a, env, Some(8));
    AdmitBurst(s, a, env, Some(8));
    var t, free := AdmitAt(s, a, env), s.core.free;
    assert free[..1] == [1];
    AllowedAlike(t.core.flows[0], Seated(s, a).flow.(rule := Some(0)), s.shared.gens, s.shared.gens, 0);
  }

  lemma WelcomeHasRoom(s: Site, a: Admission, env: Env, rate: Option<nat>)
    requires Welcomes(s, a, env, rate)
    ensures s.shared.gens != [] && HasRoom(s) && a.destination.Some?
    ensures Seated(s, a).flow.generation == Some(Current(s.shared))
  {
  }

  lemma {:induction false} FirstMayDraw(s: Site, a: Admission, env: Env)
    requires Welcomes(s, a, env, Some(8)) && s.shared.gens == [NewGeneration(Plain(Some(8)), 0, {})]
    ensures var f := Seated(s, a).flow.(rule := Some(0));
      Limited(f, s.shared.gens) && Allowed(f, s.shared.gens, 0) == Allowance(16384, Some(Throttle.MAX_WAIT))
  {
    hide Plain, Allowed, Limited, HasSlow, NewGeneration;
    var f := Seated(s, a).flow.(rule := Some(0));
    SlowAtFirst(f, s.shared.gens);
    SlowAllows(f, s.shared.gens, 16384, 0, 0, 0);
  }

  /** What the first admission leaves. */
  lemma {:induction false} GreedyIs(s: Site, t: Site)
    requires s.shared.gens == [NewGeneration(Plain(Some(8)), 0, {})] && BurstLeft(s, t)
    ensures FirstSeated(t)
  {
    hide Plain, Allowed, HasSlow, Drawn, Limited, NewGeneration;
    var g := t.core.flows[0];
    SlowAtFirst(g, s.shared.gens);
    SlowDrawn(g, s.shared.gens, t.shared.gens, 16384, 0, 0, 0);
  }

  lemma {:induction false} SecondGoesHungry(s: Site)
    requires FirstSeated(s)
    ensures var env := Willing(200000, 65536, 0);
      Rationed(AdmitAt(s, AdmissionOf(Greeting([LETTER], env)), env), 0, 0)
  {
    var env := Willing(200000, 65536, 0);
    var a := AdmissionOf(Greeting([LETTER], env));
    GreetingIsWelcome(s, [LETTER], env, Some(8));
    WelcomeHasRoom(s, a, env, Some(8));
    hide Plain, AdmitAt, Allowed, HasSlow, Welcomes, Drawn, Limited, Greeting, AdmissionOf, Rationed, Greedy, Seated;
    NoneLeft(s, Seated(s, a).flow.(rule := Some(0)));
    AdmitStuck(s, a, env, Some(8));
    HungryIs(s, AdmitAt(s, a, env));
  }

  lemma {:induction false} NoneLeft(s: Site, f: Flow)
    requires FirstSeated(s) && f.generation == Some(0) && f.rule == Some(0)
    ensures Limited(f, s.shared.gens) && Allowed(f, s.shared.gens, 0).bytes == 0
  {
    hide Plain, Allowed, HasSlow, Limited;
    SlowAlike(s.core.flows[0], f, s.shared.gens, 0, 0);
    SlowAllows(f, s.shared.gens, 0, 0, 0, 0);
  }

  /** What the second admission leaves. */
  lemma {:induction false} HungryIs(s: Site, t: Site)
    requires FirstSeated(s) && |t.core.flows| == 2 && t.core.flows[0] == s.core.flows[0] && t.core.lastSweep == 0
    requires |t.shared.gens| == 1 && t.shared.gens[0].config == Plain(Some(8))
    requires var f := t.core.flows[1];
      && f.live && f.phase == Relaying && f.generation == Some(0) && f.rule == Some(0) && f.lastActive == 0
      && f.client.Some? && f.client.value.read == [] && f.client.value.unread == [LETTER] && !f.client.value.closed
      && f.upstream == Some(Kernel.Opened(200000, None))
      && f.toUpstream == f.toClient == Some(NewPump(Pipe(65536, [])))
      && (Limited(f, s.shared.gens) && Allowed(f, s.shared.gens, 0).bytes == 0 ==>
            f.retryAt == Some(Allowed(f, s.shared.gens, 0).retryAfter.value))
      && (Limited(f, s.shared.gens) ==> Drawn(f, s.shared.gens, t.shared.gens, 0))
    ensures Rationed(t, 0, 0)
  {
    hide Plain, Allowed, HasSlow, Drawn, Limited;
    var g := t.core.flows[1];
    SlowAlike(s.core.flows[0], g, s.shared.gens, 0, 0);
    SlowAllows(g, s.shared.gens, 0, 0, 0, 0);
    SlowDrawn(g, s.shared.gens, t.shared.gens, 0, 0, 0, 0);
  }

  lemma {:induction false} Contended(payload: seq<byte>) returns (x: World)
    requires |payload| >= Share(ROUNDS) && payload[0] == LETTER
    ensures Reachable(x) && |x.cores| == 1 && Rationed(SiteOf(x, 0), 0, 0)
  {
    var env := Willing(200000, 65536, 0);
    var start := Launched(Plain(Some(8)), 1, 0, {});
    LaunchSite(Some(8), start);
    StartIsReachable(Some(8));
    hide Reachable, Launched, AdmitAt, Plain, Stats.Fresh, NewGeneration, Greeting, AdmissionOf, Greedy, HasSlow,
         Hungry;
    var first := Work(0, Greeting(payload, env));
    var y := Took(start, first);
    FirstTakesAll(SiteOf(start, 0), payload);
    StepReaches(start, first);
    GreetingDone(start, payload, env);
    var second := Work(0, Greeting([LETTER], env));
    x := Took(y, second);
    SecondGoesHungry(SiteOf(y, 0));
    StepReaches(y, second);
    GreetingDone(y, [LETTER], env);
  }

  // ---- the two flows from one housekeeping to the next ------------------------------------------------

  /** The kernel during a round: the second clock reading is a little later. */
  function RoundEnvs(now: nat): seq<Env> { [Willing(0, 0, now), Willing(0, 0, now + 1)] }

  /** Between the two turns of a round. */
  ghost predicate MidRound(s: Site, k: nat, swept: nat) {
    && |s.core.flows| == 2 && Greedy(s.core.flows[0], k + 1) && Hungry(s.core.flows[1], k)
    && HasSlow(s.core.flows[1], s.shared.gens, 0, At(k + 1)) && s.core.lastSweep == At(swept)
    && |s.shared.gens| == 1 && s.shared.gens[0].config == Plain(Some(8))
  }

  /** The first flow's turn: a byte for every millisecond since the last round. */
  lemma {:induction false} GreedyTurn(s: Site, k: nat, swept: nat)
    requires Rationed(s, k, swept) && k < ROUNDS
    ensures MidRound(ResumeAt(s, 0, Willing(0, 0, At(k + 1))), k, swept)
  {
    var env, c := Willing(0, 0, At(k + 1)), CtxAt(s, 0).(flow := s.core.flows[0].(retryAt := None));
    hide Plain, Allowed, HasSlow, Drawn, Limited, Relayed;
    SlowAlike(s.core.flows[1], c.flow, s.shared.gens, 0, At(k));
    SlowAllows(c.flow, s.shared.gens, 0, At(k), At(k + 1), 101);
    assert Clear(OutLane(LinkOf(c.flow, env.script)), 101);
    hide Clear, Fetched;
    BurstRelay(c, env);
    var o := Relayed(c, env);
    FetchedMore(c.flow, o.ctx.flow, k);
    RelayDraws(c, env, o.ctx.flow);
    SlowAlike(s.core.flows[1], o.ctx.flow, s.shared.gens, 0, At(k));
    SlowDrawn(o.ctx.flow, s.shared.gens, o.ctx.shared.gens, 0, At(k), At(k + 1), 101);
    SlowAlike(o.ctx.flow, s.core.flows[1], o.ctx.shared.gens, 0, At(k + 1));
  }

  lemma FetchedMore(f: Flow, g: Flow, k: nat)
    requires HasLink(f) && Supplied(f, k) && Fetched(f, g, 101) && g.lastActive == At(k + 1)
    ensures Supplied(g, k + 1)
  {
  }

  /** The second flow's turn, a nanosecond later: nothing. */
  lemma {:induction false} HungryTurn(t: Site, k: nat, swept: nat)
    requires MidRound(t, k, swept)
    ensures Rationed(ResumeAt(t, 1, Willing(0, 0, At(k + 1) + 1)), k + 1, swept)
  {
    hide Plain, HasSlow, Relayed, Greedy, Hungry, At, Willing;
    assert HasSlow(t.core.flows[1], t.shared.gens, 0, At(k + 1)) && Hungry(t.core.flows[1], k);
    HungryRelay(CtxAt(t, 1).(flow := t.core.flows[1].(retryAt := None)), t.core.flows[1], k);
  }

  lemma {:induction false} HungryRelay(c: Ctx, f: Flow, k: nat)
    requires c.flow == f.(retryAt := None) && Hungry(f, k) && HasSlow(f, c.shared.gens, 0, At(k + 1))
    ensures var o := Relayed(c, Willing(0, 0, At(k + 1) + 1));
      && o.ok && Hungry(o.ctx.flow, k + 1) && HasSlow(o.ctx.flow, o.ctx.shared.gens, 0, At(k + 1))
      && SameConfigs(c.shared.gens, o.ctx.shared.gens)
  {
    var now := At(k + 1) + 1;
    var env := Willing(0, 0, now);
    hide Plain, Allowed, HasSlow, Drawn, Limited, Relayed, Debited, SlowBucket;
    SlowAlike(f, c.flow, c.shared.gens, 0, At(k + 1));
    SlowAllows(c.flow, c.shared.gens, 0, At(k + 1), now, 0);
    FreshIsStuck(65536);
    hide Stuck;
    StuckRelay(c, env);
    var o := Relayed(c, env);
    SlowAlike(f, o.ctx.flow, c.shared.gens, 0, At(k + 1));
    SlowIsLimited(o.ctx.flow, c.shared.gens, 0, At(k + 1));
    RelayDraws(c, env, o.ctx.flow);
    SlowDrawn(o.ctx.flow, c.shared.gens, o.ctx.shared.gens, 0, At(k + 1), now, 0);
  }

  lemma FreshIsStuck(capacity: nat)
    ensures Stuck(NewPump(Pipe(capacity, [])), 0)
  {
  }

  lemma SlowIsLimited(f: Flow, gens: seq<Generation>, tokens: nat, last: nat)
    requires HasSlow(f, gens, tokens, last)
    ensures Limited(f, gens)
  {
  }

  lemma {:induction false} BothAreDue(s: Site, k: nat, swept: nat)
    requires Rationed(s, k, swept)
    ensures |s.core.flows| == 2 && Due(s.core.flows, At(k + 1)) == [0, 1]
  {
    hide At, HasSlow, Plain;
    var f := s.core.flows;
    assert f[..1] == [f[0]] && f[..1][..0] == [];
    assert Due(f[..1], At(k + 1)) == [0];
  }

  lemma EnvsAre(now: nat)
    ensures EnvFor(RoundEnvs(now), 0) == Willing(0, 0, now) && EnvFor(RoundEnvs(now), 1) == Willing(0, 0, now + 1)
  {
    hide Willing;
  }

  /** Both turns of a round. */
  lemma {:induction false} BothTurns(s: Site, k: nat, swept: nat)
    requires Rationed(s, k, swept) && k < ROUNDS
    ensures Rationed(ResumeAll(s, Due(s.core.flows, At(k + 1)), RoundEnvs(At(k + 1))), k + 1, swept)
  {
    hide *;
    BothAreDue(s, k, swept);
    var now := At(k + 1);
    EnvsAre(now);
    TwoTurns(s, 0, 1, RoundEnvs(now));
    GreedyTurn(s, k, swept);
    HungryTurn(ResumeAt(s, 0, Willing(0, 0, now)), k, swept);
  }

  lemma {:induction false} IdleAt(s: Site, k: nat, swept: nat)
    requires Rationed(s, k, swept)
    ensures s.shared.gens != [] && IdleSecs(s.shared) == 120
    ensures Idlers(s.core.flows, At(k), 120 * SECOND) == if k < ROUNDS - 1 then [] else [1]
  {
    var f := s.core.flows;
    assert f[..1] == [f[0]] && f[..1][..0] == [];
    assert Idlers(f[..1], At(k), 120 * SECOND) == [];
  }

  /** The sweep comes with every tenth round and finds nobody idle but at the last. */
  lemma {:induction false} SweepsEveryTenth(s: Site, k: nat)
    requires 0 < k <= ROUNDS && Rationed(s, k, (k - 1) / 10 * 10)
    ensures s.shared.gens != []
    ensures k < ROUNDS ==> Rationed(Reaped(s, At(k)), k, k / 10 * 10)
    ensures var t := Reaped(s, At(k));
      k == ROUNDS ==> |t.core.flows| == 2 && t.core.flows[0] == s.core.flows[0] && !t.core.flows[1].live
  {
    var swept := (k - 1) / 10 * 10;
    assert Max(At(k) - At(swept), 0) >= SWEEP_INTERVAL <==> k % 10 == 0;
    IdleAt(s, k, swept);
    hide Greedy, Hungry, HasSlow, Idlers, IdleSecs, Plain;
    var t := s.(core := s.core.(lastSweep := At(k)));
    assert CloseAll(t, []) == t;
    assert k == ROUNDS ==> CloseAll(t, [1][..0]) == t && CloseAll(t, [1]) == CloseAt(t, 1);
    hide At;
  }

  lemma HousekeepingDone(x: World, now: nat, envs: seq<Env>)
    requires |x.cores| == 1 && x.shared.gens != []
    ensures var y := Took(x, Work(0, Housekeeping(now, envs)));
      |y.cores| == 1 && SiteOf(y, 0) == Maintained(SiteOf(x, 0), now, envs)
  {
    hide Maintained;
  }

  /** Each world follows from the one before by one housekeeping, 101 ms after the last. */
  ghost predicate KeptHouse(run: seq<World>) {
    forall k :: 0 <= k < |run| - 1 ==>
      run[k].shared.gens != [] && run[k + 1] == Took(run[k], Work(0, Housekeeping(At(k + 1), RoundEnvs(At(k + 1)))))
  }

  /** After `k` rounds: the first flow has had all the rule allows, the second, with a
      byte waiting and room for it, has had nothing since it was admitted. */
  ghost predicate Starving(x: World, k: nat) {
    && Reachable(x) && InWorld(x, 0, 0) && InWorld(x, 0, 1)
    && Greedy(FlowIn(x, 0, 0), k) && Hungry(FlowIn(x, 0, 1), k)
  }

  /** One housekeeping. */
  lemma {:induction false} NextHousekeeping(x: World, k: nat)
    requires Reachable(x) && |x.cores| == 1 && k < ROUNDS && Rationed(SiteOf(x, 0), k, k / 10 * 10)
    ensures x.shared.gens != []
    ensures var y := Took(x, Work(0, Housekeeping(At(k + 1), RoundEnvs(At(k + 1)))));
      && Reachable(y) && |y.cores| == 1
      && (k + 1 < ROUNDS ==> Rationed(SiteOf(y, 0), k + 1, (k + 1) / 10 * 10))
      && (k + 1 == ROUNDS ==>
            InWorld(y, 0, 0) && InWorld(y, 0, 1) && Greedy(FlowIn(y, 0, 0), k + 1) && !FlowIn(y, 0, 1).live)
  {
    var now, s := At(k + 1), SiteOf(x, 0);
    hide Reachable, Due, Reaped, ResumeAll, RoundEnvs, At, Greedy, Hungry, HasSlow, Plain;
    BothTurns(s, k, k / 10 * 10);
    SweepsEveryTenth(ResumeAll(s, Due(s.core.flows, now), RoundEnvs(now)), k + 1);
    StepReaches(x, Work(0, Housekeeping(now, RoundEnvs(now))));
    HousekeepingDone(x, now, RoundEnvs(now));
  }

  lemma {:induction false} KeepsHouse(payload: seq<byte>, n: nat) returns (run: seq<World>)
    requires |payload| >= Share(ROUNDS) && payload[0] == LETTER && n < ROUNDS
    ensures |run| == n + 1 && KeptHouse(run) && forall k :: 0 <= k <= n ==> Starving(run[k], k)
    ensures |run[n].cores| == 1 && Rationed(SiteOf(run[n], 0), n, n / 10 * 10)
  {
    hide Reachable, Took, RoundEnvs, At, Share, Greedy, Hungry, HasSlow, Plain;
    if n == 0 {
      var x := Contended(payload);
      run := [x];
    } else {
      var before := KeepsHouse(payload, n - 1);
      var x := before[n - 1];
      assert Starving(x, n - 1);
      NextHousekeeping(x, n - 1);
      run := before + [Took(x, Work(0, Housekeeping(At(n), RoundEnvs(At(n)))))];
    }
  }

  /** Two flows of one rule with bytes waiting and room for them, and a housekeeping
      every 101 ms, as the timers of both ask for. The first gets every byte the rule
      allows, the second none for two minutes, and then it is reaped as idle. */
  lemma {:induction false} OneOfTwoStarves(payload: seq<byte>) returns (run: seq<World>)
    requires |payload| >= Share(ROUNDS) && payload[0] == LETTER
    ensures |run| == ROUNDS + 1 && KeptHouse(run)
    ensures forall k :: 0 <= k < ROUNDS ==> Starving(run[k], k)
    ensures var y := run[ROUNDS];
      && Reachable(y) && InWorld(y, 0, 0) && InWorld(y, 0, 1)
      && Greedy(FlowIn(y, 0, 0), ROUNDS) && !FlowIn(y, 0, 1).live
  {
    hide Reachable, Took, RoundEnvs, At, Share, Greedy, Hungry, Rationed, Plain;
    var before := KeepsHouse(payload, ROUNDS - 1);
    var x := before[ROUNDS - 1];
    assert Starving(x, ROUNDS - 1);
    NextHousekeeping(x, ROUNDS - 1);
    run := before + [Took(x, Work(0, Housekeeping(At(ROUNDS), RoundEnvs(At(ROUNDS)))))];
  }

  // ---- bytes that are never counted ----------------------------------------------------------------------

  const GO := Choice(false, 1, NOTHING, NOTHING)
  const HALT := Choice(true, 0, NOTHING, NOTHING)

  /** One byte through, then a system call fails in the other direction. */
  lemma {:induction false} OneThenFails(r: Run)
    requires r.ok && r.budget >= 2 && r.link.script == [GO, GO, HALT]
    requires Waiting(r.link.out, r.link.client) && r.link.out.buffered == 0 && r.link.out.pipe.content == []
    requires r.link.upstream.room > 0 && !r.link.back.sourceEof && Space(r.link.back) > 0
    ensures !Passed(r).ok && Passed(r).link.upstream.sent == r.link.upstream.sent + [r.link.client.unread[0]]
  {
    OneGoes(OutLane(r.link), r.budget);
    var m := FirstLink(r);
    OtherHalts(BackLane(m), Left(r));
    TurnMeasure(r);
    hide StepLane, Measure, Waiting;
    assert !Progressed(r);
  }

  lemma {:induction false} OneGoes(l: Lane, budget: nat)
    requires budget >= 2 && l.wire.script == [GO, GO, HALT]
    requires Waiting(l.pump, l.wire.src) && l.pump.buffered == 0 && l.pump.pipe.content == [] && l.wire.dst.room > 0
    ensures var s := StepLane(l, budget);
      && s.ok && s.moved == 1 && s.lane.wire.script == [HALT]
      && s.lane.wire.dst.sent == l.wire.dst.sent + [l.wire.src.unread[0]]
  {
    NothingArrives(l.wire.src);
    NothingArrives(l.wire.dst);
    hide Arrive, Drain;
    var f := Fill(l, budget);
    assert f.step == Ok(Moved(1)) && f.lane.pump.buffered == 1 && f.lane.pump.pipe.content == [l.wire.src.unread[0]];
    assert f.lane.wire.dst == l.wire.dst && f.lane.wire.script == [GO, HALT];
    NothingArrives(f.lane.wire.src);
    OneDrains(f.lane);
  }

  lemma {:induction false} OneDrains(l: Lane)
    requires l.wire.script == [GO, HALT] && l.pump.buffered == 1 == |l.pump.pipe.content| && l.wire.dst.room > 0
    ensures var d := Drain(l);
      && d.step == Ok(Moved(1)) && d.lane.wire.script == [HALT]
      && d.lane.wire.dst.sent == l.wire.dst.sent + l.pump.pipe.content
  {
    NothingArrives(l.wire.dst);
    hide Arrive;
    assert l.pump.pipe.content[..1] == l.pump.pipe.content;
  }

  lemma {:induction false} OtherHalts(l: Lane, budget: nat)
    requires budget > 0 && l.wire.script == [HALT] && !l.pump.sourceEof && Space(l.pump) > 0
    ensures var s := StepLane(l, budget); !s.ok && s.lane.wire.src.sent == l.wire.src.sent
  {
    ArriveLater(l.wire.src, NOTHING);
    hide Arrive;
  }

  /** A pass that fails after delivering a byte: the byte is in no row. */
  lemma {:induction false} LostFromTheRows(payload: seq<byte>) returns (x: World, env: Env)
    requires |payload| >= Share(ROUNDS) && payload[0] == LETTER
    ensures Reachable(x) && InWorld(x, 0, 1) && FlowIn(x, 0, 1).live && HasLink(FlowIn(x, 0, 1))
    ensures FlowIn(x, 0, 1).upstream.value.sent == [] && FlowIn(x, 0, 1).statsSlot.Some?
    ensures var c := CtxAt(SiteOf(x, 0), 1);
      && !PassOf(c, env).ok && PassOf(c, env).link.upstream.sent == [LETTER]
      && Relayed(c, env).ctx.shared.ledger == c.shared.ledger
  {
    x := Contended(payload);
    env := Willing(0, 0, SECOND).(script := [GO, GO, HALT]);
    var s := SiteOf(x, 0);
    FieldsFitPhase(x, 0, 1);
    var c := CtxAt(s, 1);
    SlowAllows(c.flow, c.shared.gens, 0, 0, SECOND, 1000);
    hide Reachable, HasSlow, Allowed, GO, HALT, Debited;
    OneThenFails(StartOf(c, env));
    hide Passed, PulledBy, WithPulled;
  }
}
