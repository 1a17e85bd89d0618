/** What gets done: a peek that shows enough is acted on, a decision opens the socket
    it allows, a completed connect relays, a pass that has delivered everything
    ends, a good file is published, a connection is admitted. Each is said of one
    call and, where it matters, of a step of the whole proxy. */
module Progress {
  import opened Basics
  import opened Hostnames
  import opened Rules
  import opened ConfigFile
  import opened Prelude
  import opened Kernel
  import opened Relay
  import opened Pass
  import opened PassTheorems
  import opened Server
  import opened Flows
  import opened FlowTheorems
  import opened Workers
  import opened SiteTheorems
  import opened Worlds
  import opened Guarantees
  import ConfigTheorems
  import Parser
  import Stats
  import Throttle

  // ---- a pass -----------------------------------------------------------------------------

  /** Both directions have ended and have nothing left to deliver. */
  predicate BothEnded(k: Link) {
    k.out.sourceEof && k.out.buffered == 0 && k.back.sourceEof && k.back.buffered == 0
  }

  /** A pass leaves the flow with the sockets and pumps it ended with, and goes on
      exactly if no call failed and a direction is still open. */
  lemma {:induction false} RelayActs(c: Ctx, env: Env)
    requires HasLink(c.flow)
    ensures var o, r := Relayed(c, env), PassOf(c, env);
      && (o.ok <==> r.ok && !BothEnded(r.link))
      && HasLink(o.ctx.flow) && LinkOf(o.ctx.flow, r.link.script) == r.link
      && o.ctx.pool == c.pool && o.ctx.flow.phase == c.flow.phase && o.ctx.flow.live == c.flow.live
      && o.ctx.flow.rule == c.flow.rule && o.ctx.flow.generation == c.flow.generation
      && o.ctx.flow.statsSlot == c.flow.statsSlot
      && |o.ctx.shared.gens| == |c.shared.gens|
  {
    hide PassOf, Debited, WithPulled, PulledBy, Allowed, Tallied;
  }

  lemma {:induction false} DrawPullsNothing(f: Flow, gens: seq<Generation>, now: nat)
    ensures forall g :: 0 <= g < |gens| ==> Debited(f, gens, now)[g].pulled == gens[g].pulled
  {
    hide Throttle.Charged;
  }

  lemma {:induction false} PulledUnder(f: Flow, gens: seq<Generation>, n: nat, g: nat, r: nat)
    requires g < |gens| && r < |gens[g].pulled|
    ensures |WithPulled(f, gens, n)[g].pulled| == |gens[g].pulled|
    ensures WithPulled(f, gens, n)[g].pulled[r]
         == gens[g].pulled[r] + if f.generation == Some(g) && f.rule == Some(r) then n else 0
  {
  }

  /** What a rule has pulled grows by the bytes that its flow's pass read. */
  lemma {:induction false} PassIsCharged(c: Ctx, env: Env, g: nat, r: nat)
    requires SharedOk(c.shared) && HasLink(c.flow) && g < |c.shared.gens| && r < |c.shared.gens[g].pulled|
    ensures |Relayed(c, env).ctx.shared.gens| == |c.shared.gens|
    ensures |Relayed(c, env).ctx.shared.gens[g].pulled| == |c.shared.gens[g].pulled|
    ensures Relayed(c, env).ctx.shared.gens[g].pulled[r] == c.shared.gens[g].pulled[r]
      + if c.flow.generation == Some(g) && c.flow.rule == Some(r)
        then Pulled(PassOf(c, env).link) - Pulled(LinkOf(c.flow, env.script)) else 0
  {
    hide SharedOk, Pulled, Allowed, Tallied, WithPulled, Debited, Passed;
    PassPulls(StartOf(c, env));
    DrawPullsNothing(c.flow, c.shared.gens, env.relayAt);
    PulledUnder(c.flow, Debited(c.flow, c.shared.gens, env.relayAt), PulledBy(c, env), g, r);
  }

  /** Housekeeping serves a flow that was due: it is left without a timer, or with
      one that is still to come. */
  lemma {:induction false} ResumedIsServed(c: Ctx, env: Env)
    requires SharedOk(c.shared) && HasLink(c.flow) && Resumed(c, env).ok
    ensures var f := Resumed(c, env).ctx.flow;
      f.retryAt.Some? ==> env.relayAt + 1_000_000 <= f.retryAt.value <= env.relayAt + 100_000_000
  {
    var d := c.(flow := c.flow.(retryAt := None));
    hide SharedOk, PassOf, Relayed;
    RelayActs(d, env);
    if Relayed(d, env).ctx.flow.retryAt.Some? {
      TimerIsShort(d, env);
    }
  }

  // ---- teardown ---------------------------------------------------------------------------------

  /** The pipe of a pump that holds nothing. */
  function Spare(p: Option<PumpState>): seq<Pipe> { if p.Some? && p.value.buffered == 0 then [p.value.pipe] else [] }

  function Lost(p: Option<PumpState>): nat { if p.Some? && p.value.buffered > 0 then 1 else 0 }

  /** Closing gives back the pipes that hold nothing, for the next flow, and drops
      those that hold bytes, making room for as many new ones. */
  lemma {:induction false} CloseActs(c: Ctx)
    requires CtxOk(c)
    ensures var f, d := c.flow, Flows.Closed(c);
      && d.pool.idle == c.pool.idle + Spare(f.toUpstream) + Spare(f.toClient)
      && d.pool.live == c.pool.live - Lost(f.toUpstream) - Lost(f.toClient)
      && d.pool.limit == c.pool.limit && !d.flow.live
      && d.shared.ledger.total == c.shared.ledger.total && d.shared.ledger.slots == c.shared.ledger.slots
      && d.shared.gens == c.shared.gens
  {
    assert c.pool.live >= HeldBy(c.flow);
    hide CtxOk;
  }

  // ---- connecting ----------------------------------------------------------------------------

  /** Two pipes can be had: idle ones first, then new ones within the limit. */
  predicate BothPipes(p: Pool, env: Env) {
    match |p.idle|
    case 0 => env.outPipe.Some? && env.inPipe.Some? && p.live + 2 <= p.limit
    case 1 => env.inPipe.Some? && p.live < p.limit
    case _ => true
  }

  /** What is left of the pool once `out` and `back` are taken from it. */
  predicate Takes(p: Pool, env: Env, out: Pipe, back: Pipe, q: Pool) {
    var n := |p.idle|;
    && q.limit == p.limit
    && match n
       case 0 => Some(out.capacity) == env.outPipe && out.content == []
                 && Some(back.capacity) == env.inPipe && back.content == []
                 && q.idle == [] && q.live == p.live + 2
       case 1 => out == p.idle[0] && Some(back.capacity) == env.inPipe && back.content == []
                 && q.idle == [] && q.live == p.live + 1
       case _ => out == p.idle[n - 1] && back == p.idle[n - 2] && q.idle == p.idle[..n - 2] && q.live == p.live
  }

  lemma {:induction false} PipesAreGiven(c: Ctx, env: Env)
    ensures PipesGiven(c, env) <==> BothPipes(c.pool, env)
    ensures PipesGiven(c, env) ==>
      Takes(c.pool, env, FirstPipe(c, env).pipe.value.value, SecondPipe(c, env).pipe.value.value,
            SecondPipe(c, env).pool)
  {
  }

  /** The upstream reports no error, the pipes can be had and both sockets watched. */
  predicate Completes(p: Pool, env: Env) {
    env.noSocketError && BothPipes(p, env) && env.clientWatched && env.upstreamWatched
  }

  /** The flow as it makes its first pass: fresh pumps on the pipes taken. */
  ghost predicate FirstPass(c: Ctx, env: Env, d: Ctx) {
    && d.flow.toUpstream.Some? && d.flow.toClient.Some?
    && var out, back := d.flow.toUpstream.value, d.flow.toClient.value;
       && out == PumpState(out.pipe, 0, false, false, 0) && back == PumpState(back.pipe, 0, false, false, 0)
       && Takes(c.pool, env, out.pipe, back.pipe, d.pool) && d.shared == c.shared
       && d.flow == c.flow.(phase := Relaying, toUpstream := Some(out), toClient := Some(back),
                            lastActive := env.pipedAt)
  }

  lemma {:induction false} PipedIsFirst(c: Ctx, env: Env)
    requires PipesGiven(c, env)
    ensures FirstPass(c, env, PipedCtx(c, env))
  {
    PipesAreGiven(c, env);
    hide FirstPipe, SecondPipe, Gave, Takes;
  }

  /** A connecting flow gets through exactly if its connect completes: then it relays
      at once, and otherwise it is given up. */
  lemma {:induction false} ConnectActs(c: Ctx, failed: bool, env: Env)
    requires c.flow.upstream.Some? && c.flow.client.Some?
    ensures var o := ConnectedUp(c, failed, env);
      if !failed && Completes(c.pool, env)
      then
        && o.ctx.flow.phase == Relaying && HasLink(o.ctx.flow)
        && exists d :: FirstPass(c, env, d) && o == Relayed(d, env)
      else !o.ok
  {
    PipesAreGiven(c, env);
    if PipesGiven(c, env) {
      var d := PipedCtx(c, env);
      PipedIsFirst(c, env);
      assert HasLink(d.flow) && d.flow.phase == Relaying;
      hide PipesGiven, PipedCtx, Relayed, FirstPass, BothPipes;
      RelayActs(d, env);
    }
    hide PipesGiven, PipedCtx, Relayed, FirstPass, BothPipes;
  }

  /** So does an event of the upstream's; one of the client's is nothing to it. */
  lemma {:induction false} ConnectingActs(c: Ctx, side: Side, failed: bool, env: Env)
    requires CtxOk(c) && c.flow.phase == Connecting
    ensures var o := Handled(c, side, failed, env);
      if side == ClientSide then o == Outcome(c, true)
      else if !failed && Completes(c.pool, env)
      then
        && o.ctx.flow.phase == Relaying && HasLink(o.ctx.flow)
        && exists d :: FirstPass(c, env, d) && o == Relayed(d, env)
      else !o.ok
  {
    assert c.flow.upstream.Some? && c.flow.client.Some?;
    hide CtxOk, ConnectedUp, Relayed, FirstPass, Completes;
    ConnectActs(c, failed, env);
  }

  // ---- deciding ---------------------------------------------------------------------------------

  /** The kernel lets a socket get as far as connecting, and watches it. */
  predicate Dials(env: Env) { env.socketOk && env.connect != Refused && env.addOk }

  /** A socket by this way out, under way or connected. */
  ghost predicate OpensBy(c: Ctx, pin: Option<string>, env: Env, o: Outcome) {
    && o.ctx.flow.upstream.Some? && o.ctx.flow.upstream.value.pin == pin
    && (env.connect == InProgress ==>
          && o.ok && o.ctx.pool == c.pool && o.ctx.flow.phase == Connecting
          && o.ctx.flow.lastActive == env.openedAt
          && o.ctx.flow.upstream == Some(Sock([], [], false, env.room, [], 0, false, false, pin)))
    && (env.connect == Connected ==>
          if Completes(c.pool, env) then o.ctx.flow.phase == Relaying && HasLink(o.ctx.flow) else !o.ok)
  }

  lemma {:induction false} FillKeepsPins(l: Lane, limit: nat)
    ensures var w := Fill(l, limit).lane.wire; w.src.pin == l.wire.src.pin && w.dst.pin == l.wire.dst.pin
  {
  }

  lemma {:induction false} DrainKeepsPins(l: Lane)
    ensures var w := Drain(l).lane.wire; w.src.pin == l.wire.src.pin && w.dst.pin == l.wire.dst.pin
  {
  }

  lemma {:induction false} StepKeepsPins(l: Lane, budget: nat)
    ensures var w := StepLane(l, budget).lane.wire; w.src.pin == l.wire.src.pin && w.dst.pin == l.wire.dst.pin
  {
    hide Fill, Drain;
    FillKeepsPins(l, budget);
    DrainKeepsPins(if budget > 0 then Fill(l, budget).lane else l);
  }

  lemma {:induction false} PassKeepsPin(r: Run)
    ensures Passed(r).link.upstream.pin == r.link.upstream.pin
    decreases Measure(r.link)
  {
    TurnMeasure(r);
    StepKeepsPins(OutLane(r.link), r.budget);
    StepKeepsPins(BackLane(FirstLink(r)), Max(r.budget - StepLane(OutLane(r.link), r.budget).moved, 0));
    hide StepLane, Measure;
    if Progressed(r) {
      PassKeepsPin(Turn(r));
    }
  }

  lemma {:induction false} RelayKeepsPin(c: Ctx, env: Env)
    requires HasLink(c.flow)
    ensures Relayed(c, env).ctx.flow.upstream.Some?
    ensures Relayed(c, env).ctx.flow.upstream.value.pin == c.flow.upstream.value.pin
  {
    PassKeepsPin(StartOf(c, env));
    hide Passed, Allowed, Paid, Tallied;
  }

  lemma {:induction false} OpeningActs(c: Ctx, pin: Option<string>, env: Env)
    requires c.flow.client.Some? && c.flow.upstream.None?
    ensures var o := OpenedUp(c, pin, env);
      if Dials(env) && (pin.Some? ==> env.bindOk) then OpensBy(c, pin, env, o) else !o.ok && o.ctx.flow.upstream.None?
  {
    var d := c.(flow := Dialled(c.flow, pin, env));
    ConnectActs(d, false, env);
    ConnectedPin(d, env);
    hide ConnectedUp, Completes, FirstPass, Relayed;
  }

  lemma {:induction false} ConnectedPin(c: Ctx, env: Env)
    requires c.flow.upstream.Some? && c.flow.client.Some?
    ensures var o := ConnectedUp(c, false, env);
      o.ctx.flow.upstream.Some? && o.ctx.flow.upstream.value.pin == c.flow.upstream.value.pin
  {
    if PipesGiven(c, env) {
      hide Relayed;
      RelayKeepsPin(PipedCtx(c, env), env);
    }
    hide Relayed;
  }

  // ---- deciding and peeking ------------------------------------------------------------------------

  /** The flows counted, in all and row by row, with one more in row `more`. */
  ghost predicate Counts(l: Stats.Ledger, m: Stats.Ledger, more: Option<nat>) {
    && m.total == l.total + (if more.Some? then 1 else 0) && |m.slots| == |l.slots|
    && forall k :: 0 <= k < |l.slots| ==> m.slots[k].flows == l.slots[k].flows + if more == Some(k) then 1 else 0
  }

  /** The flow has been counted and has the first rule that applies for this host. */
  ghost predicate Decides(c: Ctx, host: Option<Hostname>, o: Outcome) {
    && Admitted(c.flow, c.shared.gens) && o.ctx.flow.statsSlot.Some?
    && Counts(c.shared.ledger, o.ctx.shared.ledger, o.ctx.flow.statsSlot)
    && IsFirst(c.shared.gens[c.flow.generation.value].config.rules, c.flow.source, c.flow.destination, c.flow.dport,
               host, o.ctx.flow.rule)
  }

  /** Whatever rule that is, the flow leaves by the way it allows, if there is one
      and the kernel lets it. */
  ghost predicate Leaves(c: Ctx, env: Env, o: Outcome)
    requires Admitted(c.flow, c.shared.gens)
  {
    var g, rule := c.shared.gens[c.flow.generation.value], o.ctx.flow.rule;
    && (rule.Some? ==> rule.value < |g.config.rules|)
    && (forall pin :: Allows(g, rule, env, pin) && Dials(env) ==> OpensBy(c, pin, env, o))
    && ((forall pin :: !Allows(g, rule, env, pin)) || !Dials(env) ==> !o.ok && o.ctx.flow.upstream.None?)
  }

  lemma {:induction false} RelayCounts(c: Ctx, env: Env)
    ensures Counts(c.shared.ledger, Relayed(c, env).ctx.shared.ledger, None)
    ensures Relayed(c, env).ctx.flow.statsSlot == c.flow.statsSlot && Relayed(c, env).ctx.flow.rule == c.flow.rule
  {
    hide PassOf, Paid, Debited, Allowed;
  }

  lemma {:induction false} OpenCounts(c: Ctx, pin: Option<string>, env: Env)
    ensures var d := OpenedUp(c, pin, env).ctx;
      && Counts(c.shared.ledger, d.shared.ledger, None)
      && d.flow.statsSlot == c.flow.statsSlot && d.flow.rule == c.flow.rule
  {
    var d := c.(flow := Dialled(c.flow, pin, env));
    if PipesGiven(d, env) {
      RelayCounts(PipedCtx(d, env), env);
    }
    hide Relayed, PipesGiven;
  }

  lemma {:induction false} RoutedIs(c: Ctx, host: Option<Hostname>)
    requires SharedOk(c.shared) && Admitted(c.flow, c.shared.gens)
    ensures var d := Routed(c, host);
      && d.flow.statsSlot.Some? && Counts(c.shared.ledger, d.shared.ledger, d.flow.statsSlot)
      && d.flow.client == c.flow.client && d.flow.upstream == c.flow.upstream && d.pool == c.pool
      && d.flow.generation == c.flow.generation && d.shared.gens == c.shared.gens
      && (d.flow.rule.Some? ==> d.flow.rule.value < |c.shared.gens[c.flow.generation.value].config.rules|)
      && IsFirst(c.shared.gens[c.flow.generation.value].config.rules, c.flow.source, c.flow.destination, c.flow.dport,
                 host, d.flow.rule)
  {
    RuleIsFirst(c.shared, c.flow.(rule := Routed(c, host).flow.rule), host);
    hide SharedOk, MatchRule, IsFirst, Stats.SlotFor, TokenOf;
  }

  lemma {:induction false} WayAllows(g: Generation, rule: Option<nat>, env: Env, pin: Option<string>)
    requires rule.Some? ==> rule.value < |g.config.rules|
    ensures Allows(g, rule, env, pin) <==> WayOut(g, rule) == Ok(pin) && (pin.Some? ==> env.bindOk)
  {
  }

  /** Deciding counts the flow, gives it the first rule that applies, and opens the
      socket that rule allows. */
  lemma {:induction false} DecisionActs(c: Ctx, host: Option<Hostname>, env: Env)
    requires SharedOk(c.shared) && Admitted(c.flow, c.shared.gens) && c.flow.client.Some? && c.flow.upstream.None?
    ensures Decides(c, host, Decided(c, host, env)) && Leaves(c, env, Decided(c, host, env))
  {
    hide SharedOk, Routed, OpenedUp, WayOut, Allows, OpensBy, IsFirst, Dials, Counts;
    RoutedIs(c, host);
    var g, d := c.shared.gens[c.flow.generation.value], Routed(c, host);
    var way := WayOut(g, d.flow.rule);
    forall pin ensures Allows(g, d.flow.rule, env, pin) <==> way == Ok(pin) && (pin.Some? ==> env.bindOk) {
      WayAllows(g, d.flow.rule, env, pin);
    }
    if way.Ok? {
      OpenCounts(d, way.value, env);
      OpeningActs(d, way.value, env);
      OpensAlike(d, c, way.value, env, OpenedUp(d, way.value, env));
      CountsOn(c.shared.ledger, d.shared.ledger, OpenedUp(d, way.value, env).ctx.shared.ledger, d.flow.statsSlot);
    }
  }

  lemma CountsOn(l: Stats.Ledger, m: Stats.Ledger, n: Stats.Ledger, more: Option<nat>)
    requires Counts(l, m, more) && Counts(m, n, None)
    ensures Counts(l, n, more)
  {
  }

  lemma OpensAlike(c: Ctx, d: Ctx, pin: Option<string>, env: Env, o: Outcome)
    requires c.pool == d.pool
    ensures OpensBy(c, pin, env, o) == OpensBy(d, pin, env, o)
  {
  }

  /** A peek is acted on exactly when what it shows cannot be the beginning of
      anything more: then the flow is decided for the host those bytes name. A peek
      that shows too little leaves the flow to wait for more; one that finds
      nothing ends the flow if its client has closed, and one that fails ends it. */
  lemma {:induction false} PeekActs(c: Ctx, env: Env) returns (host: Option<Hostname>)
    requires CtxOk(c) && c.flow.phase == Peeking
    ensures c.flow.client.Some? && Admitted(c.flow, c.shared.gens)
    ensures var o, client := Peeked(c, env), c.flow.client.value;
      if env.peekFails then !o.ok && o.ctx == c
      else if client.unread == [] then o == Outcome(c, !client.closed)
      else
        var shown := client.unread[..Between(env.peeked, 1, Min(|client.unread|, 8192))];
        && (o.ctx.flow.statsSlot.Some? <==> !Parser.Begun(c.flow.mode, shown))
        && if Parser.Begun(c.flow.mode, shown) then o == Outcome(c.(flow := c.flow.(lastActive := env.peekAt)), true)
           else HostIs(c.flow.mode, shown, host) && Decides(c, host, o) && Leaves(c, env, o)
  {
    PeekingShape(c);
    hide *;
    host := None;
    if env.peekFails || c.flow.client.value.unread == [] {
      NothingShown(c, env);
    } else {
      host := ShownActs(c, env);
    }
  }

  lemma PeekingShape(c: Ctx)
    requires CtxOk(c) && c.flow.phase == Peeking
    ensures c.flow.client.Some? && Admitted(c.flow, c.shared.gens) && SharedOk(c.shared)
    ensures c.flow.upstream.None? && c.flow.statsSlot.None?
  {
  }

  lemma NothingShown(c: Ctx, env: Env)
    requires c.flow.client.Some? && (env.peekFails || c.flow.client.value.unread == [])
    ensures if env.peekFails then Peeked(c, env) == Outcome(c, false)
            else Peeked(c, env) == Outcome(c, !c.flow.client.value.closed)
  {
    hide Decided, Parser.PeekVerdict;
  }

  /** What the bytes shown lead to. */
  lemma {:induction false} ShownActs(c: Ctx, env: Env) returns (host: Option<Hostname>)
    requires c.flow.client.Some? && Admitted(c.flow, c.shared.gens) && SharedOk(c.shared)
    requires c.flow.upstream.None? && c.flow.statsSlot.None?
    requires !env.peekFails && c.flow.client.value.unread != []
    ensures var o, client := Peeked(c, env), c.flow.client.value;
      var shown := client.unread[..Between(env.peeked, 1, Min(|client.unread|, 8192))];
      && (o.ctx.flow.statsSlot.Some? <==> !Parser.Begun(c.flow.mode, shown))
      && if Parser.Begun(c.flow.mode, shown) then o == Outcome(c.(flow := c.flow.(lastActive := env.peekAt)), true)
         else HostIs(c.flow.mode, shown, host) && Decides(c, host, o) && Leaves(c, env, o)
  {
    hide SharedOk, Peeked, Decided, Parser.PeekVerdict, Parser.Begun, Decides, Leaves, HostIs;
    var client := c.flow.client.value;
    var shown := client.unread[..Between(env.peeked, 1, Min(|client.unread|, MAX_PEEK))];
    Parser.WaitsIff(c.flow.mode, shown);
    var verdict := Parser.PeekVerdict(c.flow.mode, shown);
    host := if verdict.HostFound? then Some(verdict.host) else None;
    VerdictIs(c.flow.mode, shown, host);
    var seen := c.(flow := c.flow.(lastActive := env.peekAt));
    PeekedIs(c, env, shown, seen);
    DecisionActs(seen, host, env);
    SeenAlike(c, seen, host, env, Decided(seen, host, env));
  }

  lemma {:induction false} PeekedIs(c: Ctx, env: Env, shown: seq<byte>, seen: Ctx)
    requires c.flow.client.Some? && !env.peekFails && c.flow.client.value.unread != []
    requires var client := c.flow.client.value;
      shown == client.unread[..Between(env.peeked, 1, Min(|client.unread|, MAX_PEEK))]
    requires seen == c.(flow := c.flow.(lastActive := env.peekAt))
    ensures Peeked(c, env) ==
      match Parser.PeekVerdict(c.flow.mode, shown)
      case HostFound(host) => Decided(seen, Some(host), env)
      case NoHostname => Decided(seen, None, env)
      case NeedMore => Outcome(seen, true)
  {
    hide Decided, Parser.PeekVerdict;
    if |shown| >= MAX_PEEK {
      Parser.ConclusiveAtLimit(c.flow.mode, shown);
    }
  }

  lemma {:induction false} VerdictIs(mode: PeekMode, shown: seq<byte>, host: Option<Hostname>)
    requires var verdict := Parser.PeekVerdict(mode, shown);
      host == if verdict.HostFound? then Some(verdict.host) else None
    ensures HostIs(mode, shown, host)
  {
    hide Parser.PeekVerdict, Parser.NamedBy;
    forall h ensures host == Some(h) <==> Parser.NamedBy(mode, shown, h) {
      Parser.HostFoundIff(mode, shown, h);
    }
  }

  /** When the flow was last seen makes no difference to how it is decided. */
  lemma SeenAlike(c: Ctx, d: Ctx, host: Option<Hostname>, env: Env, o: Outcome)
    requires d == c.(flow := d.flow) && d.flow == c.flow.(lastActive := d.flow.lastActive)
    requires Decides(d, host, o) && Leaves(d, env, o)
    ensures Decides(c, host, o) && o.ctx.flow.statsSlot.Some? && Leaves(c, env, o)
  {
    hide IsFirst, Allows, Counts;
  }

  // ---- a client that keeps talking --------------------------------------------------------------------

  /** Nothing more arrives, no call fails, and the client has not closed. */
  predicate Open(l: Lane) { l.wire.script == [] && !l.wire.src.closed }

  lemma {:induction false} FillStaysOpen(l: Lane, limit: nat)
    requires Open(l) && !l.pump.sourceEof
    ensures Open(Fill(l, limit).lane) && !Fill(l, limit).lane.pump.sourceEof
  {
  }

  lemma {:induction false} DrainStaysOpen(l: Lane)
    requires l.wire.script == []
    ensures Drain(l).lane.wire.src.closed == l.wire.src.closed && Drain(l).lane.wire.dst.closed == l.wire.dst.closed
    ensures Drain(l).lane.wire.script == [] && Drain(l).lane.pump.sourceEof == l.pump.sourceEof
  {
  }

  lemma {:induction false} FillLeavesOpen(l: Lane, limit: nat)
    requires l.wire.script == []
    ensures Fill(l, limit).lane.wire.dst.closed == l.wire.dst.closed && Fill(l, limit).lane.wire.script == []
  {
  }

  lemma {:induction false} StepStaysOpen(l: Lane, budget: nat)
    requires l.wire.script == []
    ensures var m := StepLane(l, budget).lane;
      && m.wire.script == [] && m.wire.dst.closed == l.wire.dst.closed
      && (Open(l) && !l.pump.sourceEof ==> Open(m) && !m.pump.sourceEof)
  {
    hide Fill, Drain;
    if budget > 0 {
      FillLeavesOpen(l, budget);
      if Open(l) && !l.pump.sourceEof {
        FillStaysOpen(l, budget);
      }
      DrainStaysOpen(Fill(l, budget).lane);
    } else {
      DrainStaysOpen(l);
    }
  }

  lemma {:induction false} PassStaysOpen(r: Run)
    requires r.link.script == [] && !r.link.client.closed && !r.link.out.sourceEof
    ensures !Passed(r).link.out.sourceEof
    decreases Measure(r.link)
  {
    TurnMeasure(r);
    StepStaysOpen(OutLane(r.link), r.budget);
    StepStaysOpen(BackLane(FirstLink(r)), Max(r.budget - StepLane(OutLane(r.link), r.budget).moved, 0));
    hide StepLane, Measure;
    if Progressed(r) {
      PassStaysOpen(Turn(r));
    }
  }

  /** While the client has more to say and no call fails, a pass does not end the flow. */
  lemma {:induction false} OpenGoesOn(c: Ctx, env: Env)
    requires HasLink(c.flow) && env.script == []
    requires !c.flow.client.value.closed && !c.flow.toUpstream.value.sourceEof
    ensures Relayed(c, env).ok
  {
    RelayActs(c, env);
    FlawlessPass(StartOf(c, env));
    PassStaysOpen(StartOf(c, env));
    hide Passed, Relayed;
  }

  // ---- the same, of a step ------------------------------------------------------------------------------

  /** The flow as its handler finds it: an event may use up its edge. */
  function Woken(f: Flow, side: Side, consumed: bool): Flow { if consumed then Cleared(f, side) else f }

  function WokenCtx(s: Site, i: nat, side: Side, consumed: bool): Ctx
    requires i < |s.core.flows|
  {
    CtxAt(s, i).(flow := Woken(s.core.flows[i], side, consumed))
  }

  /** A handler's outcome in its slot. */
  ghost predicate Lands(t: Site, i: nat, o: Outcome) {
    && i < |t.core.flows|
    && (if o.ok then t.core.flows[i] == o.ctx.flow else !t.core.flows[i].live)
    && t.shared.gens == o.ctx.shared.gens
    && t.shared.ledger.total == o.ctx.shared.ledger.total && t.shared.ledger.slots == o.ctx.shared.ledger.slots
  }

  lemma {:induction false} ConcludedLands(s: Site, i: nat, o: Outcome)
    requires i < |s.core.flows|
    ensures Lands(Concluded(s, i, o), i, o) && |Concluded(s, i, o).core.flows| == |s.core.flows|
  {
    hide Release;
  }

  lemma {:induction false} EventLands(s: Site, i: nat, side: Side, failed: bool, consumed: bool, env: Env)
    requires i < |s.core.flows| && s.core.flows[i].live
    ensures Lands(EventAt(s, i, side, failed, consumed, env), i,
                  Handled(WokenCtx(s, i, side, consumed), side, failed, env))
  {
    hide Handled, Concluded, Lands;
    if consumed {
      var t := s.(core := s.core.(flows := s.core.flows[i := Cleared(s.core.flows[i], side)]));
      ConcludedLands(t, i, Handled(CtxAt(t, i), side, failed, env));
      assert CtxAt(t, i) == WokenCtx(s, i, side, consumed);
    } else {
      ConcludedLands(s, i, Handled(CtxAt(s, i), side, failed, env));
      assert CtxAt(s, i) == WokenCtx(s, i, side, consumed);
    }
  }

  lemma {:induction false} WokenIsOk(s: Site, i: nat, side: Side, consumed: bool)
    requires SiteOk(s) && i < |s.core.flows| && s.core.flows[i].live && s.core.flows[i].phase != Relaying
    ensures CtxOk(WokenCtx(s, i, side, consumed))
    ensures WokenCtx(s, i, side, consumed).flow.phase == s.core.flows[i].phase
  {
    CtxIsOk(s, i);
    ClearedReady(s.core.flows[i], s.shared, side);
    hide SiteOk, FlowOk, SharedOk, PoolOk, Steady, PumpsOk, RelayReady, HeldBy, SlotsOf;
  }

  /** What the event of a connect comes to. */
  ghost predicate ConnectOutcome(f: Flow, pool: Pool, failed: bool, env: Env, o: Outcome) {
    if !failed && Completes(pool, env)
    then
      && o.ctx.flow.phase == Relaying && HasLink(o.ctx.flow)
      && (env.script == [] && f.client.Some? && !f.client.value.closed ==> o.ok)
    else !o.ok
  }

  lemma {:induction false} ConnectComesTo(s: Site, i: nat, failed: bool, consumed: bool, env: Env)
    requires SiteOk(s) && i < |s.core.flows| && s.core.flows[i].live && s.core.flows[i].phase == Connecting
    ensures ConnectOutcome(s.core.flows[i], s.core.pool, failed, env,
                           Handled(WokenCtx(s, i, UpstreamSide, consumed), UpstreamSide, failed, env))
  {
    hide SiteOk, Handled, Completes, FirstPass, Relayed, Cleared;
    var c := WokenCtx(s, i, UpstreamSide, consumed);
    var o := Handled(c, UpstreamSide, failed, env);
    WokenIsOk(s, i, UpstreamSide, consumed);
    ConnectingActs(c, UpstreamSide, failed, env);
    ConnectingHasClient(c);
    StillOpen(s.core.flows[i], consumed);
    if !failed && Completes(s.core.pool, env) && env.script == [] && !c.flow.client.value.closed {
      var d :| FirstPass(c, env, d) && o == Relayed(d, env);
      FirstIsOpen(c, env, d);
      OpenGoesOn(d, env);
    }
  }

  /** When the event of a completed connect comes, the flow relays: it is live if its
      client has more to say and no call fails, and if it is live at all it is
      relaying. If the connect has not completed it is closed. It never stays as it
      was. */
  lemma {:induction false} ConnectCompletes(x: World, w: nat, i: nat, failed: bool, consumed: bool, env: Env)
    requires WorldOk(x) && InWorld(x, w, i) && x.shared.gens != []
    requires FlowIn(x, w, i).live && FlowIn(x, w, i).phase == Connecting
    ensures var f, y := FlowIn(x, w, i), Took(x, Work(w, Event(i, UpstreamSide, failed, consumed, env)));
      InWorld(y, w, i)
      && var g := FlowIn(y, w, i);
         if !failed && Completes(x.cores[w].pool, env)
         then
           && (g.live ==> g.phase == Relaying && HasLink(g))
           && (env.script == [] && f.client.Some? && !f.client.value.closed ==> g.live)
         else !g.live
  {
    var s := SiteOf(x, w);
    var o := Handled(WokenCtx(s, i, UpstreamSide, consumed), UpstreamSide, failed, env);
    hide WorldOk, SiteOk, Handled, EventAt, Completes, Lands, Took, WokenCtx;
    SiteIsOk(x, w);
    ConnectComesTo(s, i, failed, consumed, env);
    EventLands(s, i, UpstreamSide, failed, consumed, env);
    LandsInWorld(x, w, Event(i, UpstreamSide, failed, consumed, env), i, o);
    StaysLive(s, i, failed, consumed, env);
  }

  lemma {:induction false} StaysLive(s: Site, i: nat, failed: bool, consumed: bool, env: Env)
    requires SiteOk(s) && i < |s.core.flows| && s.core.flows[i].live && s.core.flows[i].phase == Connecting
    ensures Handled(WokenCtx(s, i, UpstreamSide, consumed), UpstreamSide, failed, env).ctx.flow.live
  {
    hide SiteOk, Handled, CtxOk;
    WokenIsOk(s, i, UpstreamSide, consumed);
    HandledKeeps(WokenCtx(s, i, UpstreamSide, consumed), UpstreamSide, failed, env);
  }

  lemma StillOpen(f: Flow, consumed: bool)
    ensures Woken(f, UpstreamSide, consumed).client == f.client
  {
  }

  lemma ConnectingHasClient(c: Ctx)
    requires CtxOk(c)
    ensures c.flow.client.Some?
  {
  }

  lemma FirstIsOpen(c: Ctx, env: Env, d: Ctx)
    requires FirstPass(c, env, d) && c.flow.client.Some? && c.flow.upstream.Some?
    ensures HasLink(d.flow) && d.flow.client == c.flow.client && !d.flow.toUpstream.value.sourceEof
  {
    hide Takes;
  }

  lemma LandsInWorld(x: World, w: nat, job: Job, i: nat, o: Outcome)
    requires w < |x.cores| && x.shared.gens != [] && Lands(JobDone(SiteOf(x, w), job), i, o)
    ensures var y := Took(x, Work(w, job));
      && InWorld(y, w, i)
      && (if o.ok then FlowIn(y, w, i) == o.ctx.flow else !FlowIn(y, w, i).live)
      && y.shared.gens == o.ctx.shared.gens
      && y.shared.ledger.total == o.ctx.shared.ledger.total && y.shared.ledger.slots == o.ctx.shared.ledger.slots
  {
    hide JobDone;
  }

  /** The flow has been decided for this host, and is what that makes of it. */
  ghost predicate DecidedAs(c: Ctx, host: Option<Hostname>, env: Env, g: Flow) {
    Admitted(c.flow, c.shared.gens)
    && exists o: Outcome :: Decides(c, host, o) && Leaves(c, env, o) && if o.ok then g == o.ctx.flow else !g.live
  }

  /** When an event comes for a flow that is still peeked at, it is decided exactly
      if the bytes shown cannot be the beginning of anything more. */
  lemma {:induction false} PeekDecides(x: World, w: nat, i: nat, side: Side, consumed: bool, env: Env)
      returns (host: Option<Hostname>)
    requires WorldOk(x) && InWorld(x, w, i) && x.shared.gens != []
    requires FlowIn(x, w, i).live && FlowIn(x, w, i).phase == Peeking
    requires !env.peekFails && FlowIn(x, w, i).client.Some? && FlowIn(x, w, i).client.value.unread != []
    ensures var f, y := FlowIn(x, w, i), Took(x, Work(w, Event(i, side, false, consumed, env)));
      && InWorld(y, w, i)
      && var g := FlowIn(y, w, i);
         var shown := f.client.value.unread[..Between(env.peeked, 1, Min(|f.client.value.unread|, 8192))];
         if Parser.Begun(f.mode, shown)
         then g == Woken(f, side, consumed).(lastActive := env.peekAt) && y.shared.ledger.total == x.shared.ledger.total
         else
           && HostIs(f.mode, shown, host) && y.shared.ledger.total == x.shared.ledger.total + 1
           && DecidedAs(WokenCtx(SiteOf(x, w), i, side, consumed), host, env, g)
  {
    var s := SiteOf(x, w);
    hide WorldOk, SiteOk, Peeked, EventAt, Lands, Parser.Begun, Decides, Leaves, HostIs, Cleared, Took;
    SiteIsOk(x, w);
    var c := WokenCtx(s, i, side, consumed);
    WokenIsOk(s, i, side, consumed);
    WokenClient(s.core.flows[i], side, consumed);
    EventLands(s, i, side, false, consumed, env);
    host := PeekActs(c, env);
    LandsInWorld(x, w, Event(i, side, false, consumed, env), i, Peeked(c, env));
    DecidesCounts(c, host, Peeked(c, env));
  }

  lemma WokenClient(f: Flow, side: Side, consumed: bool)
    requires f.client.Some?
    ensures Woken(f, side, consumed).client.Some? && Woken(f, side, consumed).mode == f.mode
    ensures Woken(f, side, consumed).client.value.unread == f.client.value.unread
    ensures Woken(f, side, consumed).client.value.closed == f.client.value.closed
  {
    if consumed && side == ClientSide {
      assert Woken(f, side, consumed) == f.(client := Unedged(f.client));
    }
  }

  lemma DecidesCounts(c: Ctx, host: Option<Hostname>, o: Outcome)
    requires Admitted(c.flow, c.shared.gens)
    ensures Decides(c, host, o) ==> o.ctx.shared.ledger.total == c.shared.ledger.total + 1
  {
    hide IsFirst;
  }

  // ---- admission ------------------------------------------------------------------------------------------

  /** A newcomer: seen just now, under the newest configuration, with nothing done yet. */
  function Arrived(a: Admission, newest: nat): Flow
    requires a.destination.Some?
  {
    Flow(true, Peeking, Some(a.client), None, a.source, a.destination.value.0, a.destination.value.1, a.mode,
         Some(newest), None, None, None, None, a.now, None, 0)
  }

  /** A connection that was redirected here is admitted whenever a slot is free and it
      can be watched, and peeked at once; otherwise nobody is, and nothing is lost. */
  lemma {:induction false} AdmitActs(s: Site, a: Admission, env: Env)
    requires SiteOk(s) && s.shared.gens != []
    ensures var t := AdmitAt(s, a, env);
      if a.destination.None? || s.core.free == [] then t == s
      else
        var n := |s.core.free| - 1;
        var i := s.core.free[n];
        && i < |s.core.flows|
        && if !a.addOk then |t.core.flows| == |s.core.flows| && !t.core.flows[i].live && t.core.free == s.core.free
           else Lands(t, i, Peeked(Ctx(Arrived(a, |s.shared.gens| - 1), s.core.pool, s.shared), env))
  {
    if s.core.free != [] {
      FreeIsVacant(s);
      hide SiteOk, Peeked, ReadyAt, Lands;
      if a.destination.Some? && a.addOk {
        NewcomerIsPeeked(s, a, env);
      }
    }
  }

  lemma FreeIsVacant(s: Site)
    requires SiteOk(s) && s.core.free != []
    ensures var i := s.core.free[|s.core.free| - 1]; i < |s.core.flows| && !s.core.flows[i].live
  {
    hide FlowsOk, PipesOk, SharedOk;
  }

  lemma {:induction false} NewcomerIsPeeked(s: Site, a: Admission, env: Env)
    requires s.shared.gens != [] && HasRoom(s) && a.destination.Some? && a.addOk
    ensures Lands(ReadyAt(Born(s, a), NextSlot(s), ClientSide, false, env), NextSlot(s),
                  Peeked(Ctx(Arrived(a, |s.shared.gens| - 1), s.core.pool, s.shared), env))
  {
    var i, t := NextSlot(s), Born(s, a);
    var c := Ctx(Arrived(a, |s.shared.gens| - 1), s.core.pool, s.shared);
    assert CtxAt(t, i) == c;
    assert Handled(c, ClientSide, false, env) == Peeked(c, env);
    hide Peeked, Handled, Concluded, Lands;
    ConcludedLands(t, i, Peeked(c, env));
  }

  // ---- reloading ----------------------------------------------------------------------------------------------

  /** A generation just made of a configuration: a full bucket for each limited rule,
      a flag for each exit, nothing pulled. */
  ghost predicate Fresh(g: Generation, config: Config, now: nat, up: set<string>) {
    && g.config == config
    && |g.buckets| == |config.rules| == |g.pulled| && |g.exitUp| == |config.exits|
    && (forall r :: 0 <= r < |config.rules| ==>
          && g.pulled[r] == 0
          && match config.rules[r].rateKbps
             case None => g.buckets[r] == None
             case Some(kbps) =>
               g.buckets[r].Some?
               && g.buckets[r].value.start == now
               && g.buckets[r].value.bucket
                    == Throttle.Bucket(125 * kbps, Throttle.Burst(kbps), Throttle.Burst(kbps), now))
    && forall k :: 0 <= k < |config.exits| ==> g.exitUp[k] == (config.exits[k].ifname in up)
  }

  lemma {:induction false} MadeFresh(config: Config, now: nat, up: set<string>)
    requires ConfigTheorems.WellFormed(config)
    ensures Fresh(NewGeneration(config, now, up), config, now, up)
  {
    forall r | 0 <= r < |config.rules| && config.rules[r].rateKbps.Some?
      ensures Throttle.Opened(config.rules[r].rateKbps.value, now).bucket
           == Throttle.Bucket(125 * config.rules[r].rateKbps.value, Throttle.Burst(config.rules[r].rateKbps.value),
                              Throttle.Burst(config.rules[r].rateKbps.value), now)
    {
      assert ConfigTheorems.RateOk(config.rules[r]);
      Throttle.BucketIs(config.rules[r].rateKbps.value, now);
    }
    hide ConfigTheorems.WellFormed, Throttle.Full, Throttle.Burst;
  }

  /** A text that says a configuration. */
  ghost predicate SaysSo(text: Option<string>, config: Config) {
    text.Some? && ConfigTheorems.Says(TextLines(text.value), config)
  }

  /** A reload of a file that says a configuration publishes exactly that, once, as
      the newest; any other reload changes nothing. */
  lemma {:induction false} ReloadPublishes(x: World, text: Option<string>, now: nat, up: set<string>)
    requires WorldOk(x) && x.shared.gens != []
    ensures var y := Took(x, Reload(text, now, up));
      && y.cores == x.cores && y.shared.ledger == x.shared.ledger
      && (forall config :: SaysSo(text, config) ==>
            && |y.shared.gens| == |x.shared.gens| + 1 && y.shared.gens[..|x.shared.gens|] == x.shared.gens
            && Fresh(y.shared.gens[|x.shared.gens|], config, now, up))
      && ((forall config :: !SaysSo(text, config)) ==> y == x)
  {
    hide WorldOk, ParseLines, ConfigTheorems.Says, NewGeneration, Fresh, TextLines;
    if text.Some? {
      var lines := TextLines(text.value);
      forall config ensures ParseLines(lines) == Ok(config) <==> SaysSo(text, config) {
        ConfigTheorems.ReadsWhatItSays(lines, config);
      }
      if ParseLines(lines).Ok? {
        ConfigTheorems.AcceptedIsWellFormed(lines);
        MadeFresh(ParseLines(lines).value, now, up);
      }
    }
  }

  // Between two publications the newest configuration stays the newest.

  lemma {:induction false} RelayAddsNone(c: Ctx, env: Env)
    ensures |Relayed(c, env).ctx.shared.gens| == |c.shared.gens|
  {
    hide PassOf, Debited, WithPulled, PulledBy, Allowed, Tallied;
  }

  lemma {:induction false} OpenAddsNone(c: Ctx, pin: Option<string>, env: Env)
    ensures |OpenedUp(c, pin, env).ctx.shared.gens| == |c.shared.gens|
  {
    var d := c.(flow := Dialled(c.flow, pin, env));
    if PipesGiven(d, env) {
      RelayAddsNone(PipedCtx(d, env), env);
    }
    hide Relayed, PipesGiven;
  }

  lemma {:induction false} DecideAddsNone(c: Ctx, host: Option<Hostname>, env: Env)
    ensures |Decided(c, host, env).ctx.shared.gens| == |c.shared.gens|
  {
    hide OpenedUp, MatchRule, Stats.SlotFor, Stats.Begun, WayOut;
    if Admitted(c.flow, c.shared.gens) {
      var d := Routed(c, host);
      var way := WayOut(c.shared.gens[c.flow.generation.value], d.flow.rule);
      if way.Ok? {
        OpenAddsNone(d, way.value, env);
      }
    }
  }

  lemma {:induction false} HandlerAddsNone(c: Ctx, side: Side, failed: bool, env: Env)
    ensures |Handled(c, side, failed, env).ctx.shared.gens| == |c.shared.gens|
  {
    if c.flow.phase == Connecting && PipesGiven(c, env) {
      RelayAddsNone(PipedCtx(c, env), env);
    }
    RelayAddsNone(c, env);
    hide Relayed, PipesGiven, Decided, Parser.PeekVerdict;
    forall host ensures |Decided(c.(flow := c.flow.(lastActive := env.peekAt)), host, env).ctx.shared.gens|
                     == |c.shared.gens| {
      DecideAddsNone(c.(flow := c.flow.(lastActive := env.peekAt)), host, env);
    }
  }

  lemma {:induction false} ConcludedAddsNone(s: Site, i: nat, o: Outcome)
    requires i < |s.core.flows|
    ensures |Concluded(s, i, o).shared.gens| == |o.ctx.shared.gens|
  {
    hide Release;
  }

  lemma {:induction false} ReadyAddsNone(s: Site, i: nat, side: Side, failed: bool, env: Env)
    ensures |ReadyAt(s, i, side, failed, env).shared.gens| == |s.shared.gens|
  {
    hide Handled, Concluded;
    if i < |s.core.flows| && s.core.flows[i].live {
      HandlerAddsNone(CtxAt(s, i), side, failed, env);
      ConcludedAddsNone(s, i, Handled(CtxAt(s, i), side, failed, env));
    }
  }

  lemma {:induction false} CloseAddsNone(s: Site, pending: seq<nat>)
    ensures |CloseAll(s, pending).shared.gens| == |s.shared.gens|
    decreases |pending|
  {
    hide Release;
    if pending != [] {
      CloseAddsNone(s, pending[..|pending| - 1]);
    }
  }

  lemma {:induction false} ReapAddsNone(s: Site, now: nat)
    requires s.shared.gens != []
    ensures |Reaped(s, now).shared.gens| == |s.shared.gens|
  {
    hide CloseAll, Idlers;
    var t := s.(core := s.core.(lastSweep := now));
    CloseAddsNone(t, Idlers(t.core.flows, now, IdleSecs(s.shared) * SECOND));
  }

  lemma {:induction false} JobAddsNone(s: Site, job: Job)
    requires s.shared.gens != []
    ensures |JobDone(s, job).shared.gens| == |s.shared.gens|
  {
    hide ReadyAt, Reaped, ResumeAt, ResumeAll, Due, AdmissionOf;
    match job {
      case Accept(_, _, _, _, _, _, env) =>
        var a := AdmissionOf(job);
        if a.destination.Some? && HasRoom(s) {
          ReadyAddsNone(Born(s, a), NextSlot(s), ClientSide, false, env);
        }
      case Event(i, side, failed, _, env) =>
        ReadyAddsNone(s, i, side, failed, env);
        if i < |s.core.flows| {
          var t := s.(core := s.core.(flows := s.core.flows[i := Cleared(s.core.flows[i], side)]));
          ReadyAddsNone(t, i, side, failed, env);
        }
      case Housekeeping(now, envs) => ReapAddsNone(ResumeAll(s, Due(s.core.flows, now), envs), now);
      case Resuming(_, _, _) =>
      case Reaping(now) => ReapAddsNone(s, now);
      case Arrivals(_, _, _) =>
    }
  }

  /** A step that publishes no configuration. */
  ghost predicate PublishesNone(step: Happening) { step.Reload? ==> forall config :: !SaysSo(step.text, config) }

  lemma {:induction false} StepAddsNone(x: World, step: Happening)
    requires WorldOk(x) && PublishesNone(step)
    ensures x.shared.gens != [] && WorldOk(Took(x, step))
    ensures Took(x, step).shared.gens != []
    ensures |Took(x, step).shared.gens| == |x.shared.gens|
    ensures forall g :: 0 <= g < |x.shared.gens| ==> Took(x, step).shared.gens[g].config == x.shared.gens[g].config
  {
    hide WorldOk, JobDone, Reloaded, SaysSo;
    StepKeeps(x, step);
    match step
    case Work(w, job) =>
      if w < |x.cores| {
        JobAddsNone(SiteOf(x, w), job);
      }
    case Reload(text, now, up) => ReloadPublishes(x, text, now, up);
    case Sweep(_, _) =>
  }

  /** The configuration that a reload published is the newest until the next one. */
  lemma {:induction false} NewestStays(x: World, steps: seq<Happening>)
    requires WorldOk(x) && x.shared.gens != [] && forall k :: 0 <= k < |steps| ==> PublishesNone(steps[k])
    ensures var y := Ran(x, steps);
      |y.shared.gens| == |x.shared.gens|
      && forall g :: 0 <= g < |x.shared.gens| ==> y.shared.gens[g].config == x.shared.gens[g].config
    decreases |steps|
  {
    hide WorldOk, Took, PublishesNone;
    if steps != [] {
      var before, last := steps[..|steps| - 1], steps[|steps| - 1];
      NewestStays(x, before);
      StepAddsNone(Ran(x, before), last);
    }
  }

  /** Whoever is admitted after a reload and before the next one that says a
      configuration is routed by what the first one said, whatever happens in between
      and however long the flow lives. */
  lemma {:induction false} AdmittedUnderIt(
      x: World, text: Option<string>, now: nat, up: set<string>, config: Config, steps: seq<Happening>,
      w: nat, job: Job, i: nat)
    requires WorldOk(x) && SaysSo(text, config) && forall k :: 0 <= k < |steps| ==> PublishesNone(steps[k])
    requires x.shared.gens != [] && WorldOk(Took(x, Reload(text, now, up)))
    requires var y := Ran(Took(x, Reload(text, now, up)), steps);
      && job.Accept? && y.shared.gens != [] && InWorld(y, w, i) && !FlowIn(y, w, i).live
      && InWorld(Took(y, Work(w, job)), w, i) && FlowIn(Took(y, Work(w, job)), w, i).live
    ensures var y := Ran(Took(x, Reload(text, now, up)), steps);
      var z := Took(y, Work(w, job));
      var f := FlowIn(z, w, i);
      Admitted(f, z.shared.gens) && z.shared.gens[f.generation.value].config == config
  {
    hide WorldOk, Took, SaysSo, PublishesNone, Fresh;
    var start := Took(x, Reload(text, now, up));
    ReloadPublishes(x, text, now, up);
    FreshIs(start.shared.gens[|x.shared.gens|], config, now, up);
    NewestStays(start, steps);
    var y := Ran(start, steps);
    var z := Took(y, Work(w, job));
    NewcomersGeneration(y, w, job, i);
    NoReload(w, job);
    StepAddsNone(y, Work(w, job));
  }

  lemma FreshIs(g: Generation, config: Config, now: nat, up: set<string>)
    requires Fresh(g, config, now, up)
    ensures g.config == config
  {
  }

  lemma NoReload(w: nat, job: Job)
    ensures PublishesNone(Work(w, job))
  {
  }

  lemma {:induction false} NewcomersGeneration(x: World, w: nat, job: Job, i: nat)
    requires WorldOk(x) && x.shared.gens != [] && job.Accept? && InWorld(x, w, i) && !FlowIn(x, w, i).live
    requires InWorld(Took(x, Work(w, job)), w, i) && FlowIn(Took(x, Work(w, job)), w, i).live
    ensures FlowIn(Took(x, Work(w, job)), w, i).generation == Some(|x.shared.gens| - 1)
  {
    hide WorldOk, AdmitAt, AdmissionOf, SiteOk, FreshClient;
    SiteIsOk(x, w);
    AcceptedIsFresh(job);
    var s, a := SiteOf(x, w), AdmissionOf(job);
    assert JobDone(s, job) == AdmitAt(s, a, job.env);
    AdmittedSize(s, a, job.env);
    AdmittedAsAsked(s, a, job.env, i);
  }

  lemma AcceptedIsFresh(job: Job)
    requires job.Accept?
    ensures FreshClient(AdmissionOf(job).client)
  {
  }

  lemma {:induction false} AdmittedSize(s: Site, a: Admission, env: Env)
    requires SiteOk(s) && s.shared.gens != [] && FreshClient(a.client)
    ensures |AdmitAt(s, a, env).core.flows| == |s.core.flows|
  {
    hide SiteOk, AdmitAt, FreshClient;
    AdmitKeeps(s, a, env);
  }
}
