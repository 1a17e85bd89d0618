/** Flows that share a token bucket: what one takes the others lack. */
module Sharing {
  import opened Basics
  import opened Kernel
  import opened Relay
  import opened Pass
  import opened PassTheorems
  import opened Server
  import opened Flows
  import opened FlowTheorems
  import opened Workers
  import opened SiteTheorems
  import opened Worlds
  import Guarantees
  import Throttle

  // ---- what a draw leaves ---------------------------------------------------------------------

  /** A rule's bucket, as every flow under it sees it. */
  predicate SameBucket(f: Flow, g: Flow) { f.generation == g.generation && f.rule == g.rule }

  lemma {:induction false} LimitedBalanced(f: Flow, s: Shared)
    requires SharedOk(s) && Limited(f, s.gens)
    ensures Throttle.Balanced(BucketOf(f, s.gens)) && BucketOf(f, s.gens).bucket.capacity > 0
  {
    var g, r := f.generation.value, f.rule.value;
    assert GenOk(s.gens[g]);
    assert BucketOk(s.gens[g].config.rules[r].rateKbps, s.gens[g].buckets[r], s.gens[g].pulled[r]);
  }

  /** Every draw asks for all there is, so a pass is granted a byte exactly when the
      bucket, once refilled, holds one; and it leaves the bucket empty. */
  lemma {:induction false} DrawTakesAll(f: Flow, s: Shared, now: nat)
    requires SharedOk(s) && Limited(f, s.gens)
    ensures Allowed(f, s.gens, now).bytes == Throttle.Refilled(BucketOf(f, s.gens).bucket, now).tokens
    ensures Limited(f, Debited(f, s.gens, now)) && BucketOf(f, Debited(f, s.gens, now)).bucket.tokens == 0
  {
    LimitedBalanced(f, s);
    hide SharedOk;
  }

  /** Too soon after a draw for the bucket to have earned a byte. */
  predicate TooSoon(d: Throttle.Bucket, asked: nat) { asked <= d.last || d.rate * (asked - d.last) < SECOND }

  /** The next flow of the same rule to ask gets nothing exactly if it asks before
      the bucket has earned a byte. */
  lemma {:induction false} NextGetsNothing(f: Flow, g: Flow, s: Shared, now: nat, asked: nat)
    requires SharedOk(s) && Limited(f, s.gens) && SameBucket(f, g)
    ensures var after := Debited(f, s.gens, now);
      && Limited(f, after) && Limited(g, after)
      && (Allowed(g, after, asked).bytes == 0 <==> TooSoon(BucketOf(f, after).bucket, asked))
  {
    DrawTakesAll(f, s, now);
    LimitedBalanced(f, s);
    var d := BucketOf(f, Debited(f, s.gens, now)).bucket;
    hide SharedOk;
    DrainedEarns(d, asked);
  }

  lemma DrainedEarns(d: Throttle.Bucket, asked: nat)
    requires d.tokens == 0 && d.capacity > 0
    ensures Throttle.Granted(d, USIZE_MAX, asked) == 0 <==> TooSoon(d, asked)
  {
    if asked > d.last {
      Throttle.GainBounds(d, asked);
    }
  }

  /** What a pass was granted is what it read plus what it left; and what it left
      is lost to the rule, since the bucket is empty. */
  lemma {:induction false} GrantIsReadOrLost(c: Ctx, env: Env)
    requires SharedOk(c.shared) && HasLink(c.flow) && Limited(c.flow, c.shared.gens) && PassOf(c, env).ok
    ensures Limited(c.flow, Relayed(c, env).ctx.shared.gens)
    ensures var before, after := BucketOf(c.flow, c.shared.gens), BucketOf(c.flow, Relayed(c, env).ctx.shared.gens);
      && after.granted - before.granted
           == Pulled(PassOf(c, env).link) - Pulled(LinkOf(c.flow, env.script)) + PassOf(c, env).budget
      && after.bucket.tokens == 0
  {
    DrawTakesAll(c.flow, c.shared, env.relayAt);
    PassPulls(StartOf(c, env));
    hide Passed, SharedOk, Pulled, Tallied, Throttle.Refilled, Throttle.Granted;
  }

  // ---- who reads --------------------------------------------------------------------------------

  /** A direction with bytes waiting and room for them. */
  predicate Waiting(p: PumpState, src: Sock) { !p.sourceEof && src.unread != [] && Space(p) > 0 }

  lemma {:induction false} WaitingReads(l: Lane, budget: nat)
    requires Waiting(l.pump, l.wire.src) && budget > 0 && StepLane(l, budget).ok
    ensures |StepLane(l, budget).lane.wire.src.read| > |l.wire.src.read|
  {
    StepPulls(l, budget);
    hide Drain;
  }

  lemma ArriveAdds(s: Sock, a: Arrival)
    requires s.unread != []
    ensures Arrive(s, a).unread != []
  {
  }

  lemma {:induction false} FillLeavesDest(l: Lane, limit: nat)
    requires l.wire.dst.unread != []
    ensures Fill(l, limit).lane.wire.dst.unread != []
  {
    hide Arrive;
    ArriveAdds(l.wire.dst, NextChoice(l.wire).dst);
  }

  lemma {:induction false} DrainLeavesDest(l: Lane)
    requires l.wire.dst.unread != []
    ensures Drain(l).lane.wire.dst.unread != []
  {
    hide Arrive;
    ArriveAdds(l.wire.dst, NextChoice(l.wire).dst);
  }

  /** One direction's step does not read what waits for the other. */
  lemma {:induction false} WaitsOn(l: Lane, q: PumpState, budget: nat)
    requires Waiting(q, l.wire.dst)
    ensures Waiting(q, StepLane(l, budget).lane.wire.dst)
  {
    hide Fill, Drain;
    FillLeavesDest(l, budget);
    DrainLeavesDest(if budget > 0 then Fill(l, budget).lane else l);
  }

  lemma {:induction false} TurnReads(r: Run)
    requires r.ok && Turn(r).ok && r.budget > 0
    requires Waiting(r.link.out, r.link.client) || Waiting(r.link.back, r.link.upstream)
    ensures Pulled(Turn(r).link) > Pulled(r.link)
  {
    hide StepLane, Waiting;
    TurnPulls(r);
    StepPulls(OutLane(r.link), r.budget);
    if Waiting(r.link.out, r.link.client) {
      WaitingReads(OutLane(r.link), r.budget);
    } else if FirstStep(r).moved == 0 {
      WaitsOn(OutLane(r.link), r.link.back, r.budget);
      WaitingReads(BackLane(FirstLink(r)), Left(r));
    }
    StepPulls(BackLane(FirstLink(r)), Left(r));
  }

  /** A pass over waiting bytes reads at least one, exactly if it has a budget. */
  lemma {:induction false} PassReadsIff(r: Run)
    requires r.ok && Passed(r).ok
    requires Waiting(r.link.out, r.link.client) || Waiting(r.link.back, r.link.upstream)
    ensures Pulled(Passed(r).link) > Pulled(r.link) <==> r.budget > 0
  {
    hide Waiting, StepLane;
    PassPulls(r);
    TurnMeasure(r);
    if r.budget > 0 {
      hide Measure, Turn, Pulled;
      if Progressed(r) {
        ProgressedIsOk(r);
        TurnReads(r);
        PassPulls(Turn(r));
      } else {
        TurnReads(r);
      }
    }
  }

  /** A rate-limited flow with bytes waiting and room for them reads something in a
      pass exactly when its rule's bucket, once refilled, holds a byte; otherwise
      it is no more active than before, and is left to its timer. */
  lemma {:induction false} ReadsIffTokens(c: Ctx, env: Env)
    requires SharedOk(c.shared) && HasLink(c.flow) && Limited(c.flow, c.shared.gens) && PassOf(c, env).ok
    requires Waiting(c.flow.toUpstream.value, c.flow.client.value)
      || Waiting(c.flow.toClient.value, c.flow.upstream.value)
    ensures var tokens := Throttle.Refilled(BucketOf(c.flow, c.shared.gens).bucket, env.relayAt).tokens;
      var after := Relayed(c, env).ctx.flow;
      && (Pulled(PassOf(c, env).link) > Pulled(LinkOf(c.flow, env.script)) <==> tokens > 0)
      && (tokens == 0 ==>
            Pulled(PassOf(c, env).link) == Pulled(LinkOf(c.flow, env.script))
            && after.lastActive == c.flow.lastActive && after.retryAt.Some?)
  {
    DrawTakesAll(c.flow, c.shared, env.relayAt);
    PassReadsIff(StartOf(c, env));
    PassPulls(StartOf(c, env));
    PassRefreshes(c, env);
    hide Passed, SharedOk, Waiting, Throttle.Refilled, Throttle.Granted, Tallied, Paid, Pulled;
  }

  // ---- one round of housekeeping ------------------------------------------------------------------

  /** What a flow may draw depends on its rule, its generation and the buckets. */
  lemma AllowedAlike(f: Flow, g: Flow, gens: seq<Generation>, after: seq<Generation>, now: nat)
    requires SameBucket(f, g) && |gens| == |after|
    requires forall k :: 0 <= k < |gens| ==> after[k].buckets == gens[k].buckets
    ensures Limited(f, gens) <==> Limited(g, after)
    ensures Allowed(f, gens, now) == Allowed(g, after, now)
  {
    hide Throttle.Granted, Throttle.Taken, Throttle.WaitHint;
  }

  lemma {:induction false} RelayedBuckets(c: Ctx, env: Env)
    requires HasLink(c.flow)
    ensures var gens, after := Debited(c.flow, c.shared.gens, env.relayAt), Relayed(c, env).ctx.shared.gens;
      |after| == |gens| && forall k :: 0 <= k < |gens| ==> after[k].buckets == gens[k].buckets
  {
    hide PassOf, PulledBy, Debited, Tallied;
  }

  /** The state in which flow `j` is resumed right after flow `i`. */
  function SecondTurn(s: Site, i: nat, j: nat, first: Env): Ctx
    requires i < |s.core.flows| && j < |s.core.flows| && j < |ResumeAt(s, i, first).core.flows|
  {
    var t := ResumeAt(s, i, first);
    CtxAt(t, j).(flow := t.core.flows[j].(retryAt := None))
  }

  /** The bucket of a flow's rule as a draw at `now` leaves it. */
  function Drained(f: Flow, gens: seq<Generation>, now: nat): Throttle.Bucket
    requires Limited(f, Debited(f, gens, now))
  {
    BucketOf(f, Debited(f, gens, now)).bucket
  }

  lemma StillLimited(f: Flow, gens: seq<Generation>, now: nat)
    requires Limited(f, gens)
    ensures Limited(f, Debited(f, gens, now))
  {
  }

  /** Two flows of one rule, resumed one after the other: the second is granted
      nothing exactly if it comes too soon, however long it has waited. */
  lemma {:induction false} SecondGetsNothing(s: Site, i: nat, j: nat, first: Env, asked: nat)
    requires SiteOk(s) && i < |s.core.flows| && j < |s.core.flows| && i != j
    requires s.core.flows[i].live && s.core.flows[i].phase == Relaying
    requires SameBucket(s.core.flows[i], s.core.flows[j]) && Limited(s.core.flows[i], s.shared.gens)
    ensures Limited(s.core.flows[i], Debited(s.core.flows[i], s.shared.gens, first.relayAt))
    ensures var t := ResumeAt(s, i, first);
      && SiteOk(t) && |t.core.flows| == |s.core.flows| && t.core.flows[j] == s.core.flows[j]
      && Limited(t.core.flows[j], t.shared.gens)
      && (Allowed(t.core.flows[j], t.shared.gens, asked).bytes == 0 <==>
            TooSoon(Drained(s.core.flows[i], s.shared.gens, first.relayAt), asked))
  {
    var c := CtxAt(s, i).(flow := s.core.flows[i].(retryAt := None));
    assert SharedOk(s.shared) && HasLink(c.flow) by {
      CtxIsOk(s, i);
      RelayingShape(s.core.flows[i], s.shared);
    }
    StillLimited(s.core.flows[i], s.shared.gens, first.relayAt);
    TimersDraw(s.core.flows[i], s.shared.gens, first.relayAt);
    hide SiteOk, SharedOk, Relayed, Debited, Allowed, Limited, SiteMoves, SlabKept, TooSoon;
    ResumeKeeps(s, i, first);
    SiteMovesOk(s, ResumeAt(s, i, first));
    AllowedAlike(s.core.flows[i], c.flow, s.shared.gens, s.shared.gens, asked);
    NextGetsNothing(c.flow, s.core.flows[j], s.shared, first.relayAt, asked);
    RelayedBuckets(c, first);
    AllowedAlike(s.core.flows[j], s.core.flows[j], Debited(c.flow, s.shared.gens, first.relayAt),
                 Relayed(c, first).ctx.shared.gens, asked);
    ConcludedGens(s, i, Relayed(c, first));
  }

  /** The timer has no part in what a flow draws. */
  lemma TimersDraw(f: Flow, gens: seq<Generation>, now: nat)
    ensures var g := f.(retryAt := None);
      && Debited(g, gens, now) == Debited(f, gens, now)
      && (Limited(f, Debited(f, gens, now)) ==>
            BucketOf(g, Debited(f, gens, now)) == BucketOf(f, Debited(f, gens, now)))
  {
  }

  lemma RelayingShape(f: Flow, s: Shared)
    requires FlowOk(f, s) && f.live && f.phase == Relaying
    ensures HasLink(f)
  {
  }

  lemma SiteMovesOk(s: Site, t: Site)
    requires SiteMoves(s, t)
    ensures SiteOk(t) && |t.core.flows| == |s.core.flows|
  {
  }

  lemma ConcludedGens(s: Site, i: nat, o: Outcome)
    requires i < |s.core.flows|
    ensures Concluded(s, i, o).shared.gens == o.ctx.shared.gens
  {
  }

  /** Without a budget no end of file is noticed. */
  lemma {:induction false} UnfedNoEof(r: Run)
    requires r.budget == 0
    ensures Passed(r).link.out.sourceEof == r.link.out.sourceEof
    ensures Passed(r).link.back.sourceEof == r.link.back.sourceEof
    decreases Measure(r.link)
  {
    TurnMeasure(r);
    UnfedStep(OutLane(r.link));
    UnfedStep(BackLane(FirstLink(r)));
    hide StepLane, Measure;
    if Progressed(r) {
      UnfedNoEof(Turn(r));
    }
  }

  lemma {:induction false} UnfedStep(l: Lane)
    ensures StepLane(l, 0).lane.pump.sourceEof == l.pump.sourceEof && StepLane(l, 0).moved == 0
  {
    hide SpliceOut;
  }

  /** A flow with bytes waiting and room for them, resumed after another flow of its
      rule and before the rule's bucket has earned another byte. */
  ghost predicate Overtaken(s: Site, i: nat, j: nat, first: Env, second: Env) {
    && i < |s.core.flows| && j < |s.core.flows| && i != j
    && s.core.flows[i].live && s.core.flows[i].phase == Relaying
    && s.core.flows[j].live && s.core.flows[j].phase == Relaying
    && SameBucket(s.core.flows[i], s.core.flows[j]) && Limited(s.core.flows[i], s.shared.gens)
    && Limited(s.core.flows[i], Debited(s.core.flows[i], s.shared.gens, first.relayAt))
    && TooSoon(Drained(s.core.flows[i], s.shared.gens, first.relayAt), second.relayAt)
    && (var f := s.core.flows[j];
        HasLink(f)
        && (Waiting(f.toUpstream.value, f.client.value) || Waiting(f.toClient.value, f.upstream.value)))
    && j < |ResumeAt(s, i, first).core.flows| && HasLink(SecondTurn(s, i, j, first).flow)
    && PassOf(SecondTurn(s, i, j, first), second).ok
  }

  lemma {:induction false} SecondTurnIs(s: Site, i: nat, j: nat, first: Env, second: Env)
    requires SiteOk(s) && Overtaken(s, i, j, first, second)
    ensures var t, c := ResumeAt(s, i, first), SecondTurn(s, i, j, first);
      && SiteOk(t) && SharedOk(t.shared) && |t.core.flows| == |s.core.flows| && t.core.flows[j] == s.core.flows[j]
      && Limited(c.flow, c.shared.gens) && Allowed(c.flow, c.shared.gens, second.relayAt).bytes == 0
  {
    SecondGetsNothing(s, i, j, first, second.relayAt);
    var t, c := ResumeAt(s, i, first), SecondTurn(s, i, j, first);
    hide ResumeAt, Allowed, Limited, PassOf, Overtaken;
    SiteIsShared(t);
    AllowedAlike(t.core.flows[j], c.flow, t.shared.gens, t.shared.gens, second.relayAt);
  }

  /** A pass without a budget over waiting bytes. */
  lemma {:induction false} UnfedRelay(c: Ctx, env: Env)
    requires SharedOk(c.shared) && HasLink(c.flow) && Limited(c.flow, c.shared.gens) && PassOf(c, env).ok
    requires Waiting(c.flow.toUpstream.value, c.flow.client.value)
      || Waiting(c.flow.toClient.value, c.flow.upstream.value)
    requires Allowed(c.flow, c.shared.gens, env.relayAt).bytes == 0
    ensures var o := Relayed(c, env);
      && o.ok && HasLink(o.ctx.flow) && o.ctx.flow.live == c.flow.live
      && o.ctx.flow.lastActive == c.flow.lastActive && o.ctx.flow.retryAt.Some?
      && Pulled(LinkOf(o.ctx.flow, [])) == Pulled(LinkOf(c.flow, []))
  {
    hide SharedOk, Waiting, Allowed, Limited, PassOf, Relayed, Throttle.Refilled;
    DrawTakesAll(c.flow, c.shared, env.relayAt);
    ReadsIffTokens(c, env);
    UnfedRests(c, env);
    assert Pulled(LinkOf(c.flow, env.script)) == Pulled(LinkOf(c.flow, []));
  }

  /** It reads nothing and counts as idle for as long as before; it is back where
      it was, with a timer for the next round. */
  lemma {:induction false} SecondStarves(s: Site, i: nat, j: nat, first: Env, second: Env)
    requires SiteOk(s) && Overtaken(s, i, j, first, second)
    ensures i < |s.core.flows| && j < |s.core.flows|
    ensures var u := ResumeAt(ResumeAt(s, i, first), j, second);
      && SiteOk(u) && |u.core.flows| == |s.core.flows|
      && var f, g := s.core.flows[j], u.core.flows[j];
         && g.live && HasLink(f) && HasLink(g) && g.lastActive == f.lastActive && g.retryAt.Some?
         && Pulled(LinkOf(g, [])) == Pulled(LinkOf(f, []))
  {
    SecondTurnIs(s, i, j, first, second);
    var t, c := ResumeAt(s, i, first), SecondTurn(s, i, j, first);
    hide SiteOk, SharedOk, ResumeAt, Waiting, Allowed, Limited, PassOf, SiteMoves, SlabKept, Relayed, SameBucket;
    UnfedRelay(c, second);
    ResumeKeeps(t, j, second);
    SiteMovesOk(t, ResumeAt(t, j, second));
    ResumedFlow(t, j, second);
    assert LinkOf(c.flow, []) == LinkOf(s.core.flows[j], []);
  }

  /** One more round of the housekeeping: flow `j`, resumed right after flow `i`. */
  datatype Round = Round(site: Site, i: nat, first: Env, second: Env)

  function RoundDone(r: Round, j: nat): Site { ResumeAt(ResumeAt(r.site, r.i, r.first), j, r.second) }

  /** Rounds in each of which the flow is overtaken, by the same flow or another; in
      between it has no event, whatever arrives for it and whatever else happens. */
  ghost predicate OvertakenThroughout(rounds: seq<Round>, j: nat) {
    && (forall k :: 0 <= k < |rounds| ==> OvertakenIn(rounds[k], j))
    && forall k :: 0 <= k < |rounds| - 1 ==> OnlyFed(rounds[k], rounds[k + 1], j)
  }

  ghost predicate OvertakenIn(r: Round, j: nat) { SiteOk(r.site) && Overtaken(r.site, r.i, j, r.first, r.second) }

  ghost predicate OnlyFed(r: Round, next: Round, j: nat) {
    && j < |RoundDone(r, j).core.flows| && j < |next.site.core.flows|
    && exists a, b :: next.site.core.flows[j] == Fed(RoundDone(r, j).core.flows[j], a, b)
  }

  /** The flow has read nothing since, and counts as idle for as long. */
  ghost predicate NoFurther(f: Flow, g: Flow) {
    HasLink(f) && HasLink(g) && g.lastActive == f.lastActive && Pulled(LinkOf(g, [])) == Pulled(LinkOf(f, []))
  }

  lemma FedReadsNothing(f: Flow, a: Arrival, b: Arrival)
    requires HasLink(f)
    ensures NoFurther(f, Fed(f, a, b))
  {
  }

  lemma {:induction false} RoundStarves(r: Round, j: nat)
    requires OvertakenIn(r, j)
    ensures j < |r.site.core.flows| && j < |RoundDone(r, j).core.flows|
    ensures var g := RoundDone(r, j).core.flows[j];
      NoFurther(r.site.core.flows[j], g) && g.live && g.retryAt.Some?
  {
    hide SiteOk, Overtaken, ResumeAt, Pulled, LinkOf;
    SecondStarves(r.site, r.i, j, r.first, r.second);
  }

  lemma {:induction false} BetweenRounds(r: Round, next: Round, j: nat)
    requires OnlyFed(r, next, j) && HasLink(RoundDone(r, j).core.flows[j])
    ensures NoFurther(RoundDone(r, j).core.flows[j], next.site.core.flows[j])
  {
    hide RoundDone, NoFurther, Fed;
    var before := RoundDone(r, j).core.flows[j];
    var a, b :| next.site.core.flows[j] == Fed(before, a, b);
    FedReadsNothing(before, a, b);
  }

  /** After any number of such rounds it has read nothing more and is as idle as it
      was before the first. */
  lemma {:induction false} StarvesThroughout(rounds: seq<Round>, j: nat)
    requires rounds != [] && OvertakenThroughout(rounds, j)
    ensures j < |rounds[0].site.core.flows| && j < |RoundDone(rounds[|rounds| - 1], j).core.flows|
    ensures var f, g := rounds[0].site.core.flows[j], RoundDone(rounds[|rounds| - 1], j).core.flows[j];
      NoFurther(f, g) && g.live && g.retryAt.Some?
  {
    var n := |rounds| - 1;
    hide OvertakenIn, OnlyFed, RoundDone;
    RoundStarves(rounds[n], j);
    if n > 0 {
      StarvesThroughout(rounds[..n], j);
      BetweenRounds(rounds[n - 1], rounds[n], j);
    }
    hide HasLink, Pulled, LinkOf;
  }

  lemma SiteIsShared(s: Site)
    requires SiteOk(s)
    ensures SharedOk(s.shared)
  {
  }

  /** A pass without a budget never ends a flow whose source still has bytes. */
  lemma {:induction false} UnfedRests(c: Ctx, env: Env)
    requires HasLink(c.flow) && PassOf(c, env).ok && Allowed(c.flow, c.shared.gens, env.relayAt).bytes == 0
    requires Waiting(c.flow.toUpstream.value, c.flow.client.value)
      || Waiting(c.flow.toClient.value, c.flow.upstream.value)
    ensures Relayed(c, env).ok && HasLink(Relayed(c, env).ctx.flow) && Relayed(c, env).ctx.flow.live == c.flow.live
    ensures Pulled(LinkOf(Relayed(c, env).ctx.flow, [])) == Pulled(PassOf(c, env).link)
  {
    UnfedNoEof(StartOf(c, env));
    hide Passed, Allowed, Tallied, Paid;
  }

  lemma {:induction false} ResumedFlow(s: Site, i: nat, env: Env)
    requires i < |s.core.flows| && Resumed(CtxAt(s, i), env).ok
    ensures |ResumeAt(s, i, env).core.flows| == |s.core.flows|
    ensures ResumeAt(s, i, env).core.flows[i]
         == Relayed(CtxAt(s, i).(flow := s.core.flows[i].(retryAt := None)), env).ctx.flow
  {
    hide Relayed;
  }

  lemma {:induction false} TwoTurns(s: Site, i: nat, j: nat, envs: seq<Env>)
    requires i < |s.core.flows| && j < |s.core.flows|
    ensures ResumeAll(s, [i, j], envs) == ResumeAt(ResumeAt(s, i, EnvFor(envs, i)), j, EnvFor(envs, j))
    ensures ResumeAll(s, [i, j], envs).core.lastSweep == s.core.lastSweep
  {
    hide Concluded, Resumed, EnvFor;
    assert [i, j][..1] == [i] && [i][..0] == [];
    assert ResumeAll(s, [], envs) == s;
    assert ResumeAll(s, [i], envs) == ResumeAt(s, i, EnvFor(envs, i));
    SweepStays(s, i, EnvFor(envs, i));
    SweepStays(ResumeAt(s, i, EnvFor(envs, i)), j, EnvFor(envs, j));
  }

  lemma {:induction false} SweepStays(s: Site, i: nat, env: Env)
    ensures ResumeAt(s, i, env).core.lastSweep == s.core.lastSweep
  {
    hide Resumed, Closed;
  }

  lemma {:induction false} SameIdleTime(s: Site, t: Site)
    requires s.shared.gens != [] && SharedLater(s.shared, t.shared) && |t.shared.gens| == |s.shared.gens|
    ensures t.shared.gens != [] && IdleSecs(t.shared) == IdleSecs(s.shared)
  {
  }

  /** And once it has been idle for long enough, the same housekeeping reaps it,
      bytes waiting or not. */
  lemma {:induction false} StarvedIsReaped(s: Site, i: nat, j: nat, now: nat, envs: seq<Env>)
    requires SiteOk(s) && s.shared.gens != [] && Overtaken(s, i, j, EnvFor(envs, i), EnvFor(envs, j))
    requires Due(s.core.flows, now) == [i, j]
    requires Max(now - s.core.lastSweep, 0) >= SWEEP_INTERVAL
    requires IsIdle(s.core.flows[j], now, IdleSecs(s.shared) * SECOND)
    ensures var u := ResumeAll(s, [i, j], envs);
      && |u.core.flows| == |s.core.flows| && HasLink(u.core.flows[j])
      && Pulled(LinkOf(u.core.flows[j], [])) == Pulled(LinkOf(s.core.flows[j], []))
    ensures |Maintained(s, now, envs).core.flows| == |s.core.flows| && !Maintained(s, now, envs).core.flows[j].live
  {
    hide SiteOk, ResumeAt, Overtaken, EnvFor, Due, Reaped, ResumeAll, Pulled, HasLink, LinkOf;
    var u := ResumeAll(s, [i, j], envs);
    SecondStarves(s, i, j, EnvFor(envs, i), EnvFor(envs, j));
    TwoTurns(s, i, j, envs);
    RoundKeepsIdleTime(s, now, envs);
    StaysIdle(s.core.flows[j], u.core.flows[j], now, IdleSecs(s.shared) * SECOND);
    hide IsIdle, IdleSecs;
    ReapsTheIdle(u, now, j);
  }

  lemma StaysIdle(f: Flow, g: Flow, now: nat, limit: nat)
    requires IsIdle(f, now, limit) && g.live && g.lastActive == f.lastActive
    ensures IsIdle(g, now, limit)
  {
  }

  lemma {:induction false} RoundKeepsIdleTime(s: Site, now: nat, envs: seq<Env>)
    requires SiteOk(s) && s.shared.gens != []
    ensures var u := ResumeAll(s, Due(s.core.flows, now), envs);
      u.shared.gens != [] && IdleSecs(u.shared) == IdleSecs(s.shared)
  {
    hide SiteOk, Due, ResumeAll, SlabKept, AreRelaying, SharedLater;
    DueAreRelaying(s, now);
    ResumeAllKeeps(s, Due(s.core.flows, now), envs);
    SameIdleTime(s, ResumeAll(s, Due(s.core.flows, now), envs));
  }

  lemma {:induction false} ReapsTheIdle(s: Site, now: nat, j: nat)
    requires SiteOk(s) && s.shared.gens != [] && j < |s.core.flows|
    requires Max(now - s.core.lastSweep, 0) >= SWEEP_INTERVAL
    requires IsIdle(s.core.flows[j], now, IdleSecs(s.shared) * SECOND)
    ensures |Reaped(s, now).core.flows| == |s.core.flows| && !Reaped(s, now).core.flows[j].live
  {
    hide SiteOk, Reaped, IsIdle;
    Guarantees.ReapsIdlers(s, now);
  }
}
