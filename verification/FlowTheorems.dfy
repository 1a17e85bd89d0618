/** What every handler keeps: the shape of a flow in each phase, its route, its
    streams, its wakeups, and the shared accounts. */
module FlowTheorems {
  import opened Basics
  import opened Hostnames
  import opened Rules
  import opened ConfigFile
  import opened Prelude
  import opened Kernel
  import opened Relay
  import opened Pass
  import opened PassTheorems
  import opened Stats
  import opened Server
  import opened Flows
  import ConfigTheorems
  import Throttle
  import Parser

  // ---- the route --------------------------------------------------------------------------

  /** What can be peeked of a stream, however far it has been read. */
  function Head(s: Sock): seq<byte> { Stream(s)[..Min(|Stream(s)|, MAX_PEEK)] }

  predicate Conclusive(mode: PeekMode, client: Sock) { Parser.PeekVerdict(mode, Head(client)) != NeedMore }

  /** The host name the client's own bytes give. */
  function HostSeen(mode: PeekMode, client: Sock): Option<Hostname> {
    match Parser.PeekVerdict(mode, Head(client))
    case HostFound(host) => Some(host)
    case _ => None
  }

  /** An exit pins its interface, a direct flow is not pinned, a blocked flow has
      no socket at all. */
  ghost predicate PinFits(config: Config, action: Action, pin: Option<string>) {
    match action
    case Block => false
    case Direct => pin == None
    case Exit(k) => k < |config.exits| && pin == Some(config.exits[k].ifname)
  }

  /** The rule is the first that matches in the generation the flow was admitted
      under, for the host name its own bytes give. */
  ghost predicate RuledBy(f: Flow, gens: seq<Generation>) {
    && f.client.Some? && Admitted(f, gens)
    && Conclusive(f.mode, f.client.value)
    && f.rule == MatchRule(gens[f.generation.value].config.rules, KeyFor(f, HostSeen(f.mode, f.client.value)))
  }

  ghost predicate PinIs(f: Flow, gens: seq<Generation>, pin: Option<string>)
    requires RuledBy(f, gens)
  {
    var config := gens[f.generation.value].config;
    PinFits(config, ActionOf(config, f.rule), pin)
  }

  ghost predicate Pinned(f: Flow, gens: seq<Generation>) {
    f.upstream.Some? && RuledBy(f, gens) && PinIs(f, gens, f.upstream.value.pin)
  }

  // ---- the shape of a flow -------------------------------------------------------------------

  ghost predicate Untouched(s: Sock) { s.read == [] && s.sent == [] && s.halfCloses == 0 }

  /** The fields of each phase, and no others. */
  ghost predicate Shape(f: Flow) {
    if !f.live then
      f.client.None? && f.upstream.None? && f.statsSlot.None? && f.rule.None? && f.retryAt.None?
      && f.toUpstream.None? && f.toClient.None?
    else
      && f.client.Some? && f.generation.Some?
      && match f.phase
         case Peeking =>
           f.upstream.None? && f.statsSlot.None? && f.rule.None? && f.retryAt.None?
           && f.toUpstream.None? && f.toClient.None?
         case Connecting =>
           f.upstream.Some? && f.statsSlot.Some? && f.retryAt.None?
           && f.toUpstream.None? && f.toClient.None?
         case Relaying =>
           f.upstream.Some? && f.statsSlot.Some? && f.toUpstream.Some? && f.toClient.Some?
  }

  ghost predicate SlotKnown(f: Flow, l: Ledger) { f.statsSlot.Some? ==> f.statsSlot.value < |l.table.entries| }

  /** Nothing is left undone that neither an event nor the flow's own timer will
      bring back, short of a pass that has read 2^64 - 1 bytes. */
  ghost predicate Awake(f: Flow)
    requires HasLink(f)
  {
    LinkQuiet(LinkOf(f, []), f.retryAt.Some? || f.lastRead >= USIZE_MAX)
  }

  ghost predicate Carries(f: Flow) { HasLink(f) && LinkFaithful(LinkOf(f, [])) }

  ghost predicate FlowOk(f: Flow, s: Shared) {
    && Shape(f) && SlotKnown(f, s.ledger)
    && (f.live ==>
          && Admitted(f, s.gens)
          && match f.phase
             case Peeking => Untouched(f.client.value)
             case Connecting => Untouched(f.client.value) && Untouched(f.upstream.value) && Pinned(f, s.gens)
             case Relaying => Carries(f) && Settled(LinkOf(f, [])) && Awake(f) && Pinned(f, s.gens))
  }

  // ---- what a handler may do -----------------------------------------------------------------

  function HeldBy(f: Flow): nat { (if f.toUpstream.Some? then 1 else 0) + (if f.toClient.Some? then 1 else 0) }

  function SlotsOf(f: Flow): nat { if f.statsSlot.Some? then 1 else 0 }

  ghost predicate PoolOk(p: Pool) {
    p.live <= p.limit && |p.idle| <= p.live && forall k :: 0 <= k < |p.idle| ==> p.idle[k].content == []
  }

  /** Pipes accounted for neither as idle nor as held by this flow. */
  function Elsewhere(c: Ctx): int { c.pool.live - |c.pool.idle| - HeldBy(c.flow) }

  ghost predicate PumpsOk(f: Flow) {
    (f.toUpstream.Some? ==> PumpOk(f.toUpstream.value)) && (f.toClient.Some? ==> PumpOk(f.toClient.value))
  }

  ghost predicate Plentiful(env: Env) { env.outPipe.Some? && env.inPipe.Some? }

  /** A flow keeps its generation, and once it has an upstream its rule, its stats
      row and the interface of its socket. */
  ghost predicate Steady(f: Flow, g: Flow) {
    && g.live && g.generation == f.generation
    && g.source == f.source && g.destination == f.destination && g.dport == f.dport && g.mode == f.mode
    && f.client.Some? && g.client.Some? && Later(f.client.value, g.client.value)
    && (f.upstream.Some? ==>
          && g.upstream.Some? && Later(f.upstream.value, g.upstream.value)
          && g.rule == f.rule && g.statsSlot == f.statsSlot)
  }

  ghost predicate Moves(c: Ctx, env: Env, d: Ctx) {
    && SharedOk(d.shared) && SharedLater(c.shared, d.shared)
    && d.shared.ledger.active - c.shared.ledger.active == SlotsOf(d.flow) - SlotsOf(c.flow)
    && PoolOk(d.pool) && d.pool.limit == c.pool.limit && Elsewhere(d) >= Elsewhere(c)
    && (Plentiful(env) && c.pool.limit >= Elsewhere(c) + 2 ==> Elsewhere(d) == Elsewhere(c))
    && PumpsOk(d.flow)
    && Steady(c.flow, d.flow)
  }

  ghost predicate Effect(c: Ctx, env: Env, o: Outcome) {
    Moves(c, env, o.ctx) && (o.ok ==> FlowOk(o.ctx.flow, o.ctx.shared))
  }

  lemma {:induction false} MovesTrans(c: Ctx, env: Env, d: Ctx, e: Ctx)
    requires Moves(c, env, d) && Moves(d, env, e)
    ensures Moves(c, env, e)
  {
    hide Stream, SharedOk, LedgerOk, PoolOk, PumpsOk, Grows, HeldBy, SlotsOf, SharedLater;
    SharedLaterTrans(c.shared, d.shared, e.shared);
    LaterTrans(c.flow.client.value, d.flow.client.value, e.flow.client.value);
    if c.flow.upstream.Some? {
      LaterTrans(c.flow.upstream.value, d.flow.upstream.value, e.flow.upstream.value);
    }
  }

  ghost predicate CtxOk(c: Ctx) {
    SharedOk(c.shared) && PoolOk(c.pool) && c.flow.live && FlowOk(c.flow, c.shared) && Elsewhere(c) >= 0
  }

  lemma {:induction false} HeadStable(mode: PeekMode, s: Sock, t: Sock)
    requires Later(s, t) && Conclusive(mode, s)
    ensures Parser.PeekVerdict(mode, Head(t)) == Parser.PeekVerdict(mode, Head(s))
  {
    hide Parser.PeekVerdict;
    var more := Head(t)[|Head(s)|..];
    assert Head(t) == Head(s) + more;
    Parser.VerdictStable(mode, Head(s), more);
  }

  /** A route, once found, fits the flow at every later time. */
  lemma {:induction false} RuledLater(f: Flow, g: Flow, s: seq<Generation>, t: seq<Generation>)
    requires RuledBy(f, s) && Steady(f, g) && g.rule == f.rule
    requires |s| <= |t| && forall k :: 0 <= k < |s| ==> t[k].config == s[k].config
    ensures RuledBy(g, t)
    ensures forall pin :: PinIs(f, s, pin) ==> PinIs(g, t, pin)
  {
    hide Parser.PeekVerdict, Head, MatchRule, Later;
    HeadStable(f.mode, f.client.value, g.client.value);
  }

  lemma {:induction false} PinnedLater(f: Flow, g: Flow, s: seq<Generation>, t: seq<Generation>)
    requires Pinned(f, s) && Steady(f, g)
    requires |s| <= |t| && forall k :: 0 <= k < |s| ==> t[k].config == s[k].config
    ensures Pinned(g, t)
  {
    hide RuledBy, PinIs;
    RuledLater(f, g, s, t);
    assert PinIs(f, s, f.upstream.value.pin);
  }

  // ---- the budget ------------------------------------------------------------------------------

  /** Charging a bucket for a pass keeps its account balanced, and a pass never
      pulls more than it was granted. */
  lemma {:induction false} PaidOk(f: Flow, s: Shared, now: nat, pulled: nat)
    requires SharedOk(s) && pulled <= Allowed(f, s.gens, now).bytes
    ensures var t := s.(gens := WithPulled(f, Debited(f, s.gens, now), pulled)); SharedOk(t) && SharedLater(s, t)
  {
    hide LedgerOk, Throttle.Granted, Throttle.Taken, Throttle.WaitHint, Throttle.Full, Throttle.Balanced;
    if f.rule.Some? && Admitted(f, s.gens) && f.rule.value < |s.gens[f.generation.value].buckets| {
      var g, r := f.generation.value, f.rule.value;
      assert GenOk(s.gens[g]);
      assert BucketOk(s.gens[g].config.rules[r].rateKbps, s.gens[g].buckets[r], s.gens[g].pulled[r]);
      if Limited(f, s.gens) {
        ChargedOk(s.gens[g].config.rules[r].rateKbps.value, BucketOf(f, s.gens), s.gens[g].pulled[r], now, pulled);
      }
      hide BucketOk;
      assert GenOk(WithPulled(f, Debited(f, s.gens, now), pulled)[g]);
    }
  }

  lemma {:induction false} ChargedOk(rate: nat, a: Throttle.Account, before: nat, now: nat, pulled: nat)
    requires BucketOk(Some(rate), Some(a), before)
    requires pulled <= Throttle.Granted(a.bucket, USIZE_MAX, now)
    ensures BucketOk(Some(rate), Some(Throttle.Charged(a, Throttle.Call(USIZE_MAX, now))), before + pulled)
  {
    Throttle.ChargeKeepsBalance(a, Throttle.Call(USIZE_MAX, now));
    hide Throttle.Balanced, Throttle.Full, Throttle.Granted, Throttle.Gain;
  }

  lemma {:induction false} TalliedOk(l: Ledger, slot: Option<nat>, movedIn: nat, movedOut: nat)
    requires LedgerOk(l) && (slot.Some? ==> slot.value < |l.table.entries|)
    ensures var m := Tallied(l, slot, movedIn, movedOut);
      LedgerOk(m) && m.table == l.table && m.active == l.active
  {
    hide LedgerOk, Total;
    if slot.Some? {
      if movedIn > 0 {
        AppliedKeeps(l, In(slot.value, movedIn));
      }
      if movedOut > 0 {
        AppliedKeeps(if movedIn > 0 then AddedIn(l, slot.value, movedIn) else l, Out(slot.value, movedOut));
      }
    }
  }

  // ---- relaying ----------------------------------------------------------------------------------

  /** A flow about to make a pass: its links carry faithfully, and it may have
      anything left to do. */
  ghost predicate RelayReady(f: Flow, s: Shared) {
    && f.live && f.phase == Relaying && Shape(f) && SlotKnown(f, s.ledger)
    && Carries(f) && Pinned(f, s.gens)
  }

  /** The flow a pass leaves, whether or not the pass succeeded. */
  lemma {:induction false} PassKeepsFlow(c: Ctx, env: Env)
    requires RelayReady(c.flow, c.shared)
    ensures var f, r := c.flow, PassOf(c, env);
      && Steady(f, WithLink(f, r.link)) && Carries(WithLink(f, r.link)) && PumpsOk(WithLink(f, r.link))
      && (r.ok ==> Settled(r.link))
      && (r.ok ==> LinkQuiet(r.link, r.budget == 0))
      && Counted(StartOf(c, env), r)
  {
    var f, start := c.flow, StartOf(c, env);
    assert LinkFaithful(start.link) by {
      assert LinkFaithful(LinkOf(f, []));
    }
    PassFaithful(start);
    PassPulls(start);
    var r := Passed(start);
    if r.ok {
      PassQuiet(start);
    }
    hide Passed, LinkQuiet, Settled, Counted, Later, StartOf;
    assert LinkLater(start.link, r.link);
    assert LinkFaithful(r.link);
    hide Faithful;
    assert LinkFaithful(LinkOf(WithLink(f, r.link), []));
  }

  /** When the budget is gone, either the flow is rate-limited and set its timer,
      or it has moved as much as a budget can say. */
  lemma {:induction false} RestedAwake(c: Ctx, env: Env)
    requires HasLink(c.flow)
    requires var r := PassOf(c, env); r.ok && Counted(StartOf(c, env), r) && LinkQuiet(r.link, r.budget == 0)
    ensures Awake(RestedCtx(c, env).flow)
  {
    hide Throttle.Granted, Throttle.Taken, Throttle.WaitHint, DrainQuiet, FillQuiet, Limited, Passed, Paid, Tallied;
    var g, r := RestedCtx(c, env).flow, PassOf(c, env);
    assert LinkOf(g, []) == r.link.(script := []);
    if r.budget == 0 && g.retryAt.None? {
      assert Allowed(c.flow, c.shared.gens, env.relayAt) == Allowance(USIZE_MAX, None);
    }
  }

  /** What a pass did, as far as the accounts go. */
  ghost predicate PassDone(c: Ctx, env: Env) {
    && HasLink(c.flow)
    && SharedOk(c.shared.(gens := Paid(c, env))) && SharedLater(c.shared, c.shared.(gens := Paid(c, env)))
    && var g := WithLink(c.flow, PassOf(c, env).link);
       Steady(c.flow, g) && Carries(g) && PumpsOk(g) && Pinned(g, Paid(c, env))
  }

  lemma {:induction false} PassIsPaid(c: Ctx, env: Env)
    requires SharedOk(c.shared) && HasLink(c.flow) && Counted(StartOf(c, env), PassOf(c, env))
    ensures SharedOk(c.shared.(gens := Paid(c, env))) && SharedLater(c.shared, c.shared.(gens := Paid(c, env)))
  {
    hide SharedOk, SharedLater, Allowed, Pulled, PassOf, Debited, WithPulled;
    PaidOk(c.flow, c.shared, env.relayAt, PulledBy(c, env));
  }

  lemma {:induction false} PassIsDone(c: Ctx, env: Env)
    requires SharedOk(c.shared) && RelayReady(c.flow, c.shared)
    ensures PassDone(c, env)
  {
    PassKeepsFlow(c, env);
    hide PassOf, Counted, Settled, LinkQuiet, Finished;
    PassIsPaid(c, env);
    hide SharedOk, Paid, Carries, Steady, RuledBy, PinIs, PumpsOk, Grows, Shape;
    PinnedLater(c.flow, WithLink(c.flow, PassOf(c, env).link), c.shared.gens, Paid(c, env));
  }

  lemma {:induction false} FailedMoves(c: Ctx, env: Env)
    requires PassDone(c, env) && PoolOk(c.pool)
    ensures Moves(c, env, FailedCtx(c, env))
  {
    hide PassOf, Paid, SharedOk, PoolOk, Steady, PumpsOk, Pinned, Carries, SharedLater;
  }

  /** The timer and the clock have no part in a flow's route, streams or accounts. */
  lemma {:induction false} TimersAside(f: Flow, g: Flow, h: Flow, gens: seq<Generation>)
    requires h == g.(lastActive := h.lastActive, retryAt := h.retryAt, lastRead := h.lastRead)
    requires Steady(f, g) && PumpsOk(g) && Carries(g) && Pinned(g, gens)
    ensures Steady(f, h) && PumpsOk(h) && Carries(h) && Pinned(h, gens)
    ensures LinkOf(h, []) == LinkOf(g, []) && HeldBy(h) == HeldBy(g) && SlotsOf(h) == SlotsOf(g)
    ensures g.phase == Relaying && Shape(g) ==> Shape(h)
  {
    hide Later, PumpOk, Faithful;
  }

  lemma {:induction false} TalliedShared(c: Ctx, env: Env)
    requires PassDone(c, env) && SlotKnown(c.flow, c.shared.ledger)
    ensures var t := RestedCtx(c, env).shared;
      SharedOk(t) && SharedLater(c.shared, t) && t.ledger.active == c.shared.ledger.active
  {
    var r := PassOf(c, env);
    TalliedOk(c.shared.ledger, c.flow.statsSlot, r.movedIn, r.movedOut);
    hide GenOk, LedgerOk, Tallied, Rested, Allowed, Grows, PassOf, Paid, Steady, PumpsOk, Carries, Pinned;
  }

  lemma {:induction false} RestedMoves(c: Ctx, env: Env)
    requires PassDone(c, env) && PoolOk(c.pool) && SlotKnown(c.flow, c.shared.ledger)
    ensures Moves(c, env, RestedCtx(c, env))
  {
    TalliedShared(c, env);
    var d := RestedCtx(c, env);
    hide SharedOk, SharedLater, Tallied, Allowed, PassOf, Paid, Steady, PumpsOk, Carries, Pinned, PoolOk;
    TimersAside(c.flow, WithLink(c.flow, PassOf(c, env).link), d.flow, Paid(c, env));
    hide Rested;
  }

  lemma {:induction false} RestedOk(c: Ctx, env: Env)
    requires PassDone(c, env) && RelayReady(c.flow, c.shared) && LedgerOk(c.shared.ledger)
    requires var r := PassOf(c, env);
      r.ok && Settled(r.link) && LinkQuiet(r.link, r.budget == 0) && Counted(StartOf(c, env), r)
    ensures var d := RestedCtx(c, env); FlowOk(d.flow, d.shared)
  {
    var f, w, d := c.flow, WithLink(c.flow, PassOf(c, env).link), RestedCtx(c, env);
    RestedAwake(c, env);
    TalliedOk(c.shared.ledger, f.statsSlot, PassOf(c, env).movedIn, PassOf(c, env).movedOut);
    hide PassOf, Paid, Counted, LinkQuiet, LedgerOk, Tallied, Awake, SharedOk, SharedLater, Steady, PumpsOk, Carries,
      RuledBy, PinIs, Allowed;
    assert Shape(w) && Settled(LinkOf(w, []));
    TimersAside(f, w, d.flow, Paid(c, env));
    hide Settled, Rested, Shape;
  }

  lemma {:induction false} RelayedKeeps(c: Ctx, env: Env)
    requires SharedOk(c.shared) && PoolOk(c.pool) && RelayReady(c.flow, c.shared)
    ensures Effect(c, env, Relayed(c, env))
  {
    PassIsDone(c, env);
    PassKeepsFlow(c, env);
    hide PassOf, PassDone, Moves, FlowOk, PoolOk, Steady, Carries, PumpsOk, Settled, LinkQuiet, Counted, RestedCtx,
         FailedCtx, Pinned, Shape, GenOk, LedgerOk;
    FailedMoves(c, env);
    RestedMoves(c, env);
    if PassOf(c, env).ok {
      RestedOk(c, env);
    }
  }

  /** Whatever flow makes it, a pass that succeeds and ends the flow has delivered
      both streams whole and told both ends so. */
  lemma {:induction false} DoneDelivers(c: Ctx, env: Env)
    requires RelayReady(c.flow, c.shared) && PassOf(c, env).ok && !Relayed(c, env).ok
    ensures var k := PassOf(c, env).link;
      && k.client.closed && k.upstream.sent == Stream(k.client) && k.upstream.halfCloses == 1
      && k.upstream.closed && k.client.sent == Stream(k.upstream) && k.client.halfCloses == 1
  {
    hide PassOf, FailedCtx, RestedCtx, Faithful, Carries, Stream;
    PassKeepsFlow(c, env);
    var k := PassOf(c, env).link;
    hide RelayReady;
    CarriesIsFaithful(WithLink(c.flow, k), k);
    DoneIsDelivered(k);
  }

  lemma CarriesIsFaithful(f: Flow, k: Link)
    requires Carries(f) && f == WithLink(f, k)
    ensures LinkFaithful(k)
  {
  }

  // ---- connecting --------------------------------------------------------------------------------

  lemma {:induction false} AcquireKeeps(p: Pool, made: Option<nat>)
    requires PoolOk(p)
    ensures var a := Acquire(p, made);
      && PoolOk(a.pool) && a.pool.limit == p.limit
      && (Gave(a) ==> a.pipe.value.value.content == [])
      && a.pool.live - |a.pool.idle| == p.live - |p.idle| + (if Gave(a) then 1 else 0)
      && (made.Some? && p.limit > p.live - |p.idle| ==> Gave(a))
  {
  }

  /** Both pipes at once. With room for two and a willing kernel neither is
      refused. */
  lemma {:induction false} PipesKeep(c: Ctx, env: Env)
    requires PoolOk(c.pool)
    ensures var a, b := FirstPipe(c, env), SecondPipe(c, env);
      && PoolOk(b.pool) && b.pool.limit == c.pool.limit
      && b.pool.live - |b.pool.idle|
           == c.pool.live - |c.pool.idle| + (if Gave(a) then 1 else 0) + (if Gave(b) then 1 else 0)
      && (Gave(a) ==> a.pipe.value.value.content == []) && (Gave(b) ==> b.pipe.value.value.content == [])
      && (Plentiful(env) && c.pool.limit >= c.pool.live - |c.pool.idle| + 2 ==> PipesGiven(c, env))
  {
    hide PoolOk, Acquire;
    AcquireKeeps(c.pool, env.outPipe);
    AcquireKeeps(FirstPipe(c, env).pool, env.inPipe);
  }

  /** What can be seen beforehand of a connecting flow that is given one pipe and
      refused the other. */
  predicate OneIsGiven(p: Pool, env: Env) {
    var room := Max(p.limit - p.live, 0);
    match |p.idle|
    case 0 =>
      || (env.outPipe.Some? && env.inPipe.None? && room > 0)
      || (env.outPipe.None? && env.inPipe.Some? && room > 0)
      || (env.outPipe.Some? && env.inPipe.Some? && room == 1)
    case 1 => env.inPipe.None? || room == 0
    case _ => false
  }

  /** A refusal writes off a pipe exactly then, and writes off just the one. */
  lemma {:induction false} WrittenOffIff(c: Ctx, env: Env)
    requires c.flow.toUpstream.None? && c.flow.toClient.None? && !PipesGiven(c, env)
    ensures Gave(FirstPipe(c, env)) || Gave(SecondPipe(c, env)) <==> OneIsGiven(c.pool, env)
    ensures Elsewhere(c.(pool := SecondPipe(c, env).pool))
         == Elsewhere(c) + (if OneIsGiven(c.pool, env) then 1 else 0)
  {
  }

  lemma {:induction false} StaySteady(f: Flow)
    requires f.live && f.client.Some?
    ensures Steady(f, f)
  {
  }

  lemma {:induction false} PipedReady(f: Flow, s: Shared, out: Pipe, back: Pipe, now: nat)
    requires f.live && f.phase == Connecting && FlowOk(f, s) && out.content == [] && back.content == []
    ensures var g := Piped(f, out, back, now); RelayReady(g, s) && Steady(f, g) && PumpsOk(g)
  {
    hide RuledBy, PinIs;
    var g := Piped(f, out, back, now);
    assert f.upstream.value.sent + out.content == f.client.value.read;
    assert f.client.value.sent + back.content == f.upstream.value.read;
    PipedPinned(f, s.gens, g);
  }

  lemma {:induction false} PipedPinned(f: Flow, gens: seq<Generation>, g: Flow)
    requires Pinned(f, gens)
    requires g == f.(toUpstream := g.toUpstream, toClient := g.toClient, phase := g.phase, lastActive := g.lastActive)
    ensures Pinned(g, gens)
  {
  }

  lemma {:induction false} RefusedMoves(c: Ctx, env: Env)
    requires CtxOk(c) && c.flow.phase == Connecting && !PipesGiven(c, env)
    ensures Moves(c, env, c.(pool := SecondPipe(c, env).pool))
  {
    PipesKeep(c, env);
    StaySteady(c.flow);
    assert HeldBy(c.flow) == 0 && PumpsOk(c.flow);
    hide FirstPipe, SecondPipe, Gave, FlowOk, SharedOk, PoolOk, Steady, PumpsOk;
  }

  lemma {:induction false} PipedMoves(c: Ctx, env: Env)
    requires CtxOk(c) && c.flow.phase == Connecting && PipesGiven(c, env)
    ensures Moves(c, env, PipedCtx(c, env))
    ensures var d := PipedCtx(c, env); RelayReady(d.flow, d.shared) && SharedOk(d.shared) && PoolOk(d.pool)
  {
    PipesKeep(c, env);
    PipedReady(c.flow, c.shared, FirstPipe(c, env).pipe.value.value, SecondPipe(c, env).pipe.value.value, env.pipedAt);
    assert HeldBy(c.flow) == 0;
    hide FirstPipe, SecondPipe, Gave, FlowOk, RelayReady, SharedOk, PoolOk, Steady, PumpsOk;
  }

  lemma {:induction false} ConnectedKeeps(c: Ctx, failed: bool, env: Env)
    requires CtxOk(c) && c.flow.phase == Connecting
    ensures Effect(c, env, ConnectedUp(c, failed, env))
  {
    hide PipesGiven, PipedCtx, SecondPipe, FlowOk, Moves, Relayed, RelayReady, SharedOk, PoolOk;
    NothingMoves(c, env);
    if PipesGiven(c, env) {
      PipedMoves(c, env);
      RelayedKeeps(PipedCtx(c, env), env);
      MovesTrans(c, env, PipedCtx(c, env), Relayed(PipedCtx(c, env), env).ctx);
    } else {
      RefusedMoves(c, env);
    }
  }

  lemma {:induction false} NothingMoves(c: Ctx, env: Env)
    requires CtxOk(c)
    ensures Moves(c, env, c)
  {
    StaySteady(c.flow);
    assert PumpsOk(c.flow);
    hide FlowOk, SharedOk, PoolOk, Steady, PumpsOk;
  }

  // ---- opening and deciding ------------------------------------------------------------------------

  /** A flow that has been decided for `pin` and not yet dialled. */
  ghost predicate DialReady(f: Flow, s: Shared, pin: Option<string>) {
    && f.live && f.client.Some? && Untouched(f.client.value) && f.statsSlot.Some? && SlotKnown(f, s.ledger)
    && f.upstream.None? && f.retryAt.None? && f.toUpstream.None? && f.toClient.None?
    && RuledBy(f, s.gens) && PinIs(f, s.gens, pin)
  }

  lemma {:induction false} DialledKeeps(c: Ctx, pin: Option<string>, env: Env)
    requires SharedOk(c.shared) && PoolOk(c.pool) && DialReady(c.flow, c.shared, pin) && Elsewhere(c) >= 0
    ensures var d := c.(flow := Dialled(c.flow, pin, env));
      CtxOk(d) && d.flow.phase == Connecting && Moves(c, env, d) && Moves(c, env, c)
  {
    var f, g := c.flow, Dialled(c.flow, pin, env);
    assert Pinned(g, c.shared.gens) by {
      RuledDial(f, c.shared.gens, g);
    }
    StaySteady(f);
    hide SharedOk, PoolOk, RuledBy, PinIs, Later;
    assert Steady(f, g);
    assert FlowOk(g, c.shared);
    hide Steady, FlowOk, Pinned;
  }

  lemma RuledDial(f: Flow, gens: seq<Generation>, g: Flow)
    requires RuledBy(f, gens)
    requires g == f.(upstream := g.upstream, phase := g.phase, lastActive := g.lastActive)
    ensures RuledBy(g, gens)
    ensures forall pin :: PinIs(f, gens, pin) ==> PinIs(g, gens, pin)
  {
  }

  lemma {:induction false} OpenedKeeps(c: Ctx, pin: Option<string>, env: Env)
    requires SharedOk(c.shared) && PoolOk(c.pool) && DialReady(c.flow, c.shared, pin) && Elsewhere(c) >= 0
    ensures Effect(c, env, OpenedUp(c, pin, env))
  {
    hide SharedOk, PoolOk, DialReady, Moves, FlowOk, ConnectedUp, Dialled;
    DialledKeeps(c, pin, env);
    var d := c.(flow := Dialled(c.flow, pin, env));
    ConnectedKeeps(d, false, env);
    MovesTrans(c, env, d, ConnectedUp(d, false, env).ctx);
  }

  /** Deciding counts the flow, gives it a stats row and its rule. */
  lemma {:induction false} RoutedKeeps(c: Ctx, env: Env, host: Option<Hostname>)
    requires CtxOk(c) && c.flow.phase == Peeking
    requires Conclusive(c.flow.mode, c.flow.client.value) && host == HostSeen(c.flow.mode, c.flow.client.value)
    ensures var d := Routed(c, host);
      && Moves(c, env, d) && PoolOk(d.pool) && SharedOk(d.shared) && Elsewhere(d) >= 0
      && RuledBy(d.flow, d.shared.gens)
      && (forall pin :: PinIs(d.flow, d.shared.gens, pin) ==> DialReady(d.flow, d.shared, pin))
  {
    RoutedLedger(c, host);
    var d := Routed(c, host);
    StaySteady(c.flow);
    hide LedgerOk, GenOk, Begun, SlotFor, Parser.PeekVerdict, Head, Later, PoolOk, Grows, HostSeen, MatchRule, TokenOf;
    assert Steady(c.flow, d.flow);
    assert Elsewhere(d) == Elsewhere(c);
    hide Steady, PinIs;
  }

  lemma {:induction false} RoutedLedger(c: Ctx, host: Option<Hostname>)
    requires SharedOk(c.shared) && Admitted(c.flow, c.shared.gens)
    ensures var l, d := c.shared.ledger, Routed(c, host);
      && LedgerOk(d.shared.ledger) && Grows(l.table, d.shared.ledger.table)
      && d.shared.ledger.active == l.active + 1
      && d.flow.statsSlot.Some? && d.flow.statsSlot.value < |d.shared.ledger.table.entries|
  {
    hide LedgerOk, SlotFor, MatchRule, GenOk, TableOk;
    var config := c.shared.gens[c.flow.generation.value].config;
    var token := TokenOf(config, MatchRule(config.rules, KeyFor(c.flow, host)));
    AppliedKeeps(c.shared.ledger, Start(KeyOf(host), token));
    assert TableOk(c.shared.ledger.table) by {
      LedgerTable(c.shared.ledger);
    }
    SlotForKeeps(c.shared.ledger.table, KeyOf(host), token);
  }

  lemma LedgerTable(l: Ledger)
    requires LedgerOk(l)
    ensures TableOk(l.table)
  {
  }

  lemma {:induction false} DecidedKeeps(c: Ctx, host: Option<Hostname>, env: Env)
    requires CtxOk(c) && c.flow.phase == Peeking
    requires Conclusive(c.flow.mode, c.flow.client.value) && host == HostSeen(c.flow.mode, c.flow.client.value)
    ensures Effect(c, env, Decided(c, host, env))
  {
    RoutedKeeps(c, env, host);
    var d := Routed(c, host);
    var g := c.shared.gens[c.flow.generation.value];
    assert d.flow.generation == c.flow.generation && d.shared.gens == c.shared.gens;
    var way := WayOut(c.shared.gens[c.flow.generation.value], d.flow.rule);
    if way.Ok? {
      assert PinIs(d.flow, d.shared.gens, way.value);
      hide Routed, SharedOk, PoolOk, DialReady, Moves, FlowOk, OpenedUp, RuledBy, MatchRule, Conclusive, HostSeen,
           WayOut, PinIs;
      OpenedKeeps(d, way.value, env);
      MovesTrans(c, env, d, OpenedUp(d, way.value, env).ctx);
    }
  }

  // ---- peeking ---------------------------------------------------------------------------------------

  /** However little of the waiting stream one peek shows, a conclusive verdict on
      it is the verdict on all that could be shown; and a full buffer is always
      conclusive. */
  lemma {:induction false} GlimpseIsHead(mode: PeekMode, client: Sock, n: nat)
    requires client.read == [] && n <= Min(|client.unread|, MAX_PEEK)
    ensures var verdict := Parser.PeekVerdict(mode, client.unread[..n]);
      && (verdict != NeedMore ==> Parser.PeekVerdict(mode, Head(client)) == verdict)
      && (n >= MAX_PEEK ==> verdict != NeedMore)
  {
    hide Parser.PeekVerdict;
    assert Stream(client) == client.unread;
    var seen, more := client.unread[..n], Head(client)[n..];
    assert Head(client) == seen + more;
    if Parser.PeekVerdict(mode, seen) != NeedMore {
      Parser.VerdictStable(mode, seen, more);
    }
    if n >= MAX_PEEK {
      Parser.ConclusiveAtLimit(mode, seen);
    }
  }

  lemma {:induction false} SeenKeeps(c: Ctx, env: Env)
    requires CtxOk(c) && c.flow.phase == Peeking
    ensures var d := c.(flow := c.flow.(lastActive := env.peekAt));
      CtxOk(d) && Moves(c, env, d) && Elsewhere(d) == Elsewhere(c)
  {
    StaySteady(c.flow);
    var g := c.flow.(lastActive := env.peekAt);
    assert FlowOk(g, c.shared) && PumpsOk(g);
    assert Steady(c.flow, g) by {
      hide Later;
    }
    hide FlowOk, Steady, SharedOk, PoolOk, PumpsOk;
  }

  lemma {:induction false} PeekedKeeps(c: Ctx, env: Env)
    requires CtxOk(c) && c.flow.phase == Peeking
    ensures Effect(c, env, Peeked(c, env))
  {
    NothingMoves(c, env);
    SeenKeeps(c, env);
    var client := c.flow.client.value;
    assert client.read == [];
    var d := c.(flow := c.flow.(lastActive := env.peekAt));
    assert FlowOk(c.flow, c.shared) && FlowOk(d.flow, d.shared);
    hide CtxOk, Moves, FlowOk, Decided, Parser.PeekVerdict, Head;
    if client.unread != [] {
      var n := Between(env.peeked, 1, Min(|client.unread|, MAX_PEEK));
      GlimpseIsHead(c.flow.mode, client, n);
      match Parser.PeekVerdict(c.flow.mode, client.unread[..n])
      case HostFound(host) =>
        DecidedKeeps(d, Some(host), env);
        MovesTrans(c, env, d, Decided(d, Some(host), env).ctx);
      case NoHostname =>
        DecidedKeeps(d, None, env);
        MovesTrans(c, env, d, Decided(d, None, env).ctx);
      case NeedMore =>
    }
  }

  /** The flow as dialled by the way out that its rule names. */
  function DialledFor(c: Ctx, host: Option<Hostname>, env: Env): Ctx
    requires Admitted(c.flow, c.shared.gens)
    requires WayOut(c.shared.gens[c.flow.generation.value], Routed(c, host).flow.rule).Ok?
  {
    var routed := Routed(c, host);
    routed.(flow := Dialled(routed.flow, WayOut(c.shared.gens[c.flow.generation.value], routed.flow.rule).value, env))
  }

  /** The state from which a handler called at `c` makes a pass: `c` itself while
      relaying, or what connecting makes of it, later or in the deciding handler. */
  ghost predicate RelaysFrom(c: Ctx, env: Env, d: Ctx) {
    match c.flow.phase
    case Relaying => d == c
    case Connecting => PipesGiven(c, env) && d == PipedCtx(c, env)
    case Peeking =>
      && c.flow.client.Some? && Admitted(c.flow, c.shared.gens) && Conclusive(c.flow.mode, c.flow.client.value)
      && var host := HostSeen(c.flow.mode, c.flow.client.value);
         var seen := c.(flow := c.flow.(lastActive := env.peekAt));
         && WayOut(c.shared.gens[c.flow.generation.value], Routed(seen, host).flow.rule).Ok?
         && PipesGiven(DialledFor(seen, host, env), env) && d == PipedCtx(DialledFor(seen, host, env), env)
  }

  lemma {:induction false} RelaysReady(c: Ctx, env: Env, d: Ctx)
    requires CtxOk(c) && RelaysFrom(c, env, d)
    ensures RelayReady(d.flow, d.shared)
  {
    if c.flow.phase == Connecting {
      hide CtxOk, FlowOk, PipesGiven, PipedCtx, RelayReady, Moves;
      PipedMoves(c, env);
    } else if c.flow.phase == Peeking {
      var seen, host := c.(flow := c.flow.(lastActive := env.peekAt)), HostSeen(c.flow.mode, c.flow.client.value);
      hide CtxOk, FlowOk, PipesGiven, PipedCtx, RelayReady, Moves, Routed, WayOut, HostSeen, Conclusive, DialledFor;
      DialledIsOk(c, env);
      PipedMoves(DialledFor(seen, host, env), env);
    } else {
      hide Pinned, Carries, Settled, Awake;
    }
  }

  /** And there is no other: a handler that gets a flow to relay, both its sockets
      being watched, ends in a pass from such a state. */
  lemma {:induction false} HandlerRelays(c: Ctx, side: Side, failed: bool, env: Env)
    requires CtxOk(c) && env.clientWatched && env.upstreamWatched
    requires Handled(c, side, failed, env).ctx.flow.phase == Relaying
    ensures exists d :: RelaysFrom(c, env, d) && Handled(c, side, failed, env) == Relayed(d, env)
  {
    match c.flow.phase {
      case Relaying =>
        assert RelaysFrom(c, env, c);
      case Connecting =>
        assert c.flow.client.Some?;
        hide CtxOk, Relayed, PipesGiven;
        assert RelaysFrom(c, env, PipedCtx(c, env));
      case Peeking =>
        PeekerRelays(c, env);
    }
  }

  lemma {:induction false} PeekerRelays(c: Ctx, env: Env)
    requires CtxOk(c) && env.clientWatched && env.upstreamWatched
    requires c.flow.phase == Peeking && Peeked(c, env).ctx.flow.phase == Relaying
    ensures exists d :: RelaysFrom(c, env, d) && Peeked(c, env) == Relayed(d, env)
  {
    var client := c.flow.client.value;
    assert client.read == [] && Admitted(c.flow, c.shared.gens);
    var d := c.(flow := c.flow.(lastActive := env.peekAt));
    hide CtxOk, Decided, Parser.PeekVerdict, Head;
    var n := Between(env.peeked, 1, Min(|client.unread|, MAX_PEEK));
    GlimpseIsHead(c.flow.mode, client, n);
    var host := HostSeen(c.flow.mode, client);
    assert Conclusive(c.flow.mode, client) && Peeked(c, env) == Decided(d, host, env);
    hide Peeked, HostSeen, Conclusive;
    DecidedRelays(d, host, env);
    var dialled := DialledFor(d, host, env);
    assert RelaysFrom(c, env, PipedCtx(dialled, env)) by {
      hide Routed, WayOut, DialledFor, PipesGiven, PipedCtx;
    }
  }

  lemma {:induction false} DecidedRelays(c: Ctx, host: Option<Hostname>, env: Env)
    requires c.flow.phase == Peeking && c.flow.client.Some? && Admitted(c.flow, c.shared.gens)
    requires env.clientWatched && env.upstreamWatched && Decided(c, host, env).ctx.flow.phase == Relaying
    ensures WayOut(c.shared.gens[c.flow.generation.value], Routed(c, host).flow.rule).Ok?
    ensures PipesGiven(DialledFor(c, host, env), env)
    ensures Decided(c, host, env) == Relayed(PipedCtx(DialledFor(c, host, env), env), env)
  {
    hide WayOut, MatchRule, SlotFor, Begun, Relayed, PipesGiven;
  }

  lemma {:induction false} DialledIsOk(c: Ctx, env: Env)
    requires CtxOk(c) && c.flow.phase == Peeking && Conclusive(c.flow.mode, c.flow.client.value)
    requires var seen := c.(flow := c.flow.(lastActive := env.peekAt));
      && Admitted(c.flow, c.shared.gens)
      && WayOut(c.shared.gens[c.flow.generation.value],
                Routed(seen, HostSeen(c.flow.mode, c.flow.client.value)).flow.rule).Ok?
    ensures var seen := c.(flow := c.flow.(lastActive := env.peekAt));
      var dialled := DialledFor(seen, HostSeen(c.flow.mode, c.flow.client.value), env);
      CtxOk(dialled) && dialled.flow.phase == Connecting
  {
    SeenKeeps(c, env);
    var seen := c.(flow := c.flow.(lastActive := env.peekAt));
    var host := HostSeen(c.flow.mode, c.flow.client.value);
    RoutedKeeps(seen, env, host);
    var routed := Routed(seen, host);
    var way := WayOut(c.shared.gens[c.flow.generation.value], routed.flow.rule);
    assert routed.flow.generation == c.flow.generation && routed.shared.gens == c.shared.gens;
    assert PinIs(routed.flow, routed.shared.gens, way.value);
    hide Routed, SharedOk, PoolOk, DialReady, Moves, CtxOk, RuledBy, MatchRule, Conclusive, HostSeen, WayOut, PinIs,
         Dialled;
    DialledKeeps(routed, way.value, env);
  }

  // ---- events and teardown -----------------------------------------------------------------------------

  lemma {:induction false} HandledKeeps(c: Ctx, side: Side, failed: bool, env: Env)
    requires CtxOk(c)
    ensures Effect(c, env, Handled(c, side, failed, env))
  {
    NothingMoves(c, env);
    if c.flow.phase == Relaying {
      assert RelayReady(c.flow, c.shared);
      hide RelayReady, FlowOk, Moves, Relayed;
      RelayedKeeps(c, env);
    } else if c.flow.phase == Connecting {
      hide FlowOk, Moves, ConnectedUp;
      ConnectedKeeps(c, failed, env);
    } else {
      hide FlowOk, Moves, Peeked;
      PeekedKeeps(c, env);
    }
  }

  /** Taking a flow off its timer leaves it fit for a pass. */
  lemma {:induction false} UntimedReady(c: Ctx, env: Env)
    requires CtxOk(c) && c.flow.phase == Relaying
    ensures var d := c.(flow := c.flow.(retryAt := None)); RelayReady(d.flow, d.shared) && Moves(c, env, d)
  {
    var f := c.flow;
    var d := c.(flow := f.(retryAt := None));
    NothingMoves(c, env);
    hide RuledBy, PinIs, Awake, Settled, Faithful, Later, PumpOk;
    TimersAside(f, f, d.flow, c.shared.gens);
    hide SharedOk, PoolOk, Steady, Carries, Pinned, PumpsOk, HeldBy, SlotsOf, SharedLater;
  }

  lemma {:induction false} ResumedKeeps(c: Ctx, env: Env)
    requires CtxOk(c) && c.flow.phase == Relaying
    ensures Effect(c, env, Resumed(c, env))
  {
    hide RelayReady, FlowOk, Moves, Relayed, SharedOk, PoolOk;
    var d := c.(flow := c.flow.(retryAt := None));
    UntimedReady(c, env);
    RelayedKeeps(d, env);
    MovesTrans(c, env, d, Relayed(d, env).ctx);
  }

  /** A flow that a handler has given up on. */
  ghost predicate Doomed(c: Ctx) {
    && SharedOk(c.shared) && PoolOk(c.pool) && PumpsOk(c.flow) && Elsewhere(c) >= 0
    && c.shared.ledger.active >= SlotsOf(c.flow)
  }

  lemma {:induction false} ReleaseKeeps(p: Pool, pump: Option<PumpState>)
    requires PoolOk(p) && (pump.Some? ==> PumpOk(pump.value) && p.live > |p.idle|)
    ensures var q := Recycled(p, pump);
      PoolOk(q) && q.limit == p.limit && q.live - |q.idle| == p.live - |p.idle| - (if pump.Some? then 1 else 0)
  {
  }

  /** Closing gives back what the flow held: its pipes, emptied or dropped, its
      place in the gauge. No pipe that holds bytes is ever kept. */
  lemma {:induction false} ClosedKeeps(c: Ctx)
    requires Doomed(c)
    ensures var d := Closed(c);
      && SharedOk(d.shared) && SharedLater(c.shared, d.shared) && PoolOk(d.pool) && d.pool.limit == c.pool.limit
      && !d.flow.live && Shape(d.flow) && FlowOk(d.flow, d.shared)
      && HeldBy(d.flow) == 0 && SlotsOf(d.flow) == 0 && Elsewhere(d) == Elsewhere(c)
      && d.shared.ledger.active == c.shared.ledger.active - SlotsOf(c.flow)
  {
    var f := c.flow;
    assert SharedOk(Closed(c).shared) by {
      hide GenOk, TableOk, Total;
    }
    hide PoolOk, GenOk, LedgerOk, Recycled, PumpOk;
    ReleaseKeeps(c.pool, f.toUpstream);
    ReleaseKeeps(Recycled(c.pool, f.toUpstream), f.toClient);
    hide SharedOk;
  }

  // ---- what one handler achieves -----------------------------------------------------------------------

  /** A pass is accounted to the byte: what it read from the client is added to the
      bytes out of the flow's row and what it read from the upstream to the bytes
      in, and no other row changes. A pass that fails is not accounted at all,
      whatever it moved. */
  lemma {:induction false} PassIsTallied(c: Ctx, env: Env)
    requires HasLink(c.flow) && c.flow.statsSlot.Some? && c.flow.statsSlot.value < |c.shared.ledger.slots|
    ensures var k := c.flow.statsSlot.value;
      var before, after, m := c.shared.ledger, Relayed(c, env).ctx.shared.ledger, PassOf(c, env).link;
      && (!PassOf(c, env).ok ==> after == before)
      && (PassOf(c, env).ok ==>
            && |after.slots| == |before.slots|
            && after.slots[k].bytesOut - before.slots[k].bytesOut == |m.client.read| - |c.flow.client.value.read|
            && after.slots[k].bytesIn - before.slots[k].bytesIn == |m.upstream.read| - |c.flow.upstream.value.read|
            && after.slots[k].flows == before.slots[k].flows
            && forall j :: 0 <= j < |before.slots| && j != k ==> after.slots[j] == before.slots[j])
  {
    PassPulls(StartOf(c, env));
    hide PassOf, Paid, Allowed, Pulled;
  }

  /** So what a pass reads is in its row exactly if it succeeds, as it does when no
      system call fails, or read nothing. */
  lemma {:induction false} CountedIff(c: Ctx, env: Env)
    requires HasLink(c.flow) && c.flow.statsSlot.Some? && c.flow.statsSlot.value < |c.shared.ledger.slots|
    ensures |Relayed(c, env).ctx.shared.ledger.slots| == |c.shared.ledger.slots|
    ensures var k := c.flow.statsSlot.value;
      var before, after, m := c.shared.ledger.slots[k], Relayed(c, env).ctx.shared.ledger.slots[k], PassOf(c, env).link;
      (&& after.bytesOut - before.bytesOut == |m.client.read| - |c.flow.client.value.read|
       && after.bytesIn - before.bytesIn == |m.upstream.read| - |c.flow.upstream.value.read|)
      <==> PassOf(c, env).ok
           || (|m.client.read| == |c.flow.client.value.read| && |m.upstream.read| == |c.flow.upstream.value.read|)
    ensures Flawless(env.script) ==> PassOf(c, env).ok
  {
    if Flawless(env.script) {
      FlawlessPass(StartOf(c, env));
    }
    hide PassOf, Relayed;
    PassIsTallied(c, env);
  }

  /** A pass that leaves a timer belongs to a rate-limited flow, and the timer is
      1 to 100 ms away. */
  lemma {:induction false} TimerIsShort(c: Ctx, env: Env)
    requires HasLink(c.flow) && PassOf(c, env).ok && Relayed(c, env).ctx.flow.retryAt.Some?
    ensures Limited(c.flow, c.shared.gens)
    ensures env.relayAt + Throttle.MIN_WAIT <= Relayed(c, env).ctx.flow.retryAt.value <= env.relayAt + Throttle.MAX_WAIT
    ensures PassOf(c, env).budget == 0
  {
    hide Passed, Paid, Tallied, Limited, Throttle.Granted, Throttle.Taken;
  }

  /** The row a decided flow is given: its own host and action; or the fold row of
      its action; or, once the table is full, the one fold row there is. It carries
      the flow's own action exactly when the table could still do so. */
  lemma {:induction false} RoutedRow(c: Ctx, host: Option<Hostname>)
    requires SharedOk(c.shared) && Admitted(c.flow, c.shared.gens)
    ensures TableOk(c.shared.ledger.table)
    ensures var d := Routed(c, host);
      var before, t, k := c.shared.ledger.table, d.shared.ledger.table, d.flow.statsSlot.value;
      var config, rule := c.shared.gens[c.flow.generation.value].config, d.flow.rule;
      var token := if rule.Some? then config.rules[rule.value].token else config.defaultToken;
      var key := if host.Some? then host.value.bytes[..Min(|host.value.bytes|, 253)] else [45];
      var other, full := [111, 116, 104, 101, 114], before.named == 511;
      && k < |t.entries|
      && (|| Owns(t, k, key, token)
          || (full && Owns(t, k, other, token))
          || (full && k == 511 && t.entries[k].host == other))
      && (t.entries[k].token == token <==> LabelKept(before, key, token))
  {
    hide SlotFor, MatchRule, GenOk, TableOk, Owns, Literal, LabelKept;
    LedgerTable(c.shared.ledger);
    KeysAre(host);
    var config := c.shared.gens[c.flow.generation.value].config;
    var token := TokenOf(config, MatchRule(config.rules, KeyFor(c.flow, host)));
    SlotForKeeps(c.shared.ledger.table, KeyOf(host), token);
    LabelIff(c.shared.ledger.table, KeyOf(host), token);
  }

  lemma KeysAre(host: Option<Hostname>)
    ensures KeyOf(host) == if host.Some? then host.value.bytes[..Min(|host.value.bytes|, 253)] else [45]
    ensures Literal(OTHER_HOST) == [111, 116, 104, 101, 114]
  {
  }

  /** The ways out that a rule allows while its exit is up and accepts the binding. */
  ghost predicate Allows(g: Generation, rule: Option<nat>, env: Env, pin: Option<string>)
    requires rule.Some? ==> rule.value < |g.config.rules|
  {
    match if rule.Some? then g.config.rules[rule.value].action else g.config.defaultAction
    case Block => false
    case Direct => pin == None
    case Exit(k) => k < |g.exitUp| && g.exitUp[k] && env.bindOk
                    && k < |g.config.exits| && pin == Some(g.config.exits[k].ifname)
  }

  /** Whatever becomes of a decided flow, even one torn down on the spot: if a
      socket connects for it, its rule allows one, its exit is up and accepted the
      binding, and the socket is bound to that exit. And the only socket it can be
      left with is the one that did. There is no other way out. */
  lemma {:induction false} NoOtherWayOut(c: Ctx, host: Option<Hostname>, env: Env)
    requires CtxOk(c) && c.flow.phase == Peeking
    requires Conclusive(c.flow.mode, c.flow.client.value) && host == HostSeen(c.flow.mode, c.flow.client.value)
    ensures var g := c.shared.gens[c.flow.generation.value];
      var rule := MatchRule(g.config.rules, KeyFor(c.flow, host));
      var attempt := Attempt(c, host, env);
      && (attempt.Some? ==> Allows(g, rule, env, attempt.value))
      && (Decided(c, host, env).ctx.flow.upstream.Some? ==>
            attempt == Some(Decided(c, host, env).ctx.flow.upstream.value.pin))
  {
    RoutedKeeps(c, env, host);
    var d := Routed(c, host);
    var g := c.shared.gens[c.flow.generation.value];
    assert d.flow.upstream.None? && d.flow.rule == MatchRule(g.config.rules, KeyFor(c.flow, host));
    var way := WayOut(g, d.flow.rule);
    if way.Ok? {
      assert Connects(way.value, env) ==> Allows(g, d.flow.rule, env, way.value);
      assert PinIs(d.flow, d.shared.gens, way.value);
      hide Routed, SharedOk, PoolOk, DialReady, Moves, FlowOk, RuledBy, MatchRule, Conclusive, HostSeen, PinIs,
           Allows, WayOut;
      if OpenedUp(d, way.value, env).ctx.flow.upstream.Some? {
        OpenedPin(d, way.value, env);
      }
    }
  }

  lemma {:induction false} OpenedPin(c: Ctx, pin: Option<string>, env: Env)
    requires SharedOk(c.shared) && PoolOk(c.pool) && DialReady(c.flow, c.shared, pin) && Elsewhere(c) >= 0
    requires OpenedUp(c, pin, env).ctx.flow.upstream.Some?
    ensures OpenedUp(c, pin, env).ctx.flow.upstream.value.pin == pin && Connects(pin, env)
  {
    DialledKeeps(c, pin, env);
    var d := c.(flow := Dialled(c.flow, pin, env));
    assert c.flow.upstream.None? && d.flow.upstream.value.pin == pin;
    hide SharedOk, PoolOk, DialReady, Moves, FlowOk, ConnectedUp;
    ConnectedKeeps(d, false, env);
    EffectPin(d, env, ConnectedUp(d, false, env));
  }

  lemma EffectPin(c: Ctx, env: Env, o: Outcome)
    requires Effect(c, env, o) && c.flow.upstream.Some?
    ensures o.ctx.flow.upstream.Some? && o.ctx.flow.upstream.value.pin == c.flow.upstream.value.pin
  {
  }

  /** A flow counts as active at exactly the passes that read a byte. */
  lemma {:induction false} PassRefreshes(c: Ctx, env: Env)
    requires HasLink(c.flow) && PassOf(c, env).ok
    ensures Relayed(c, env).ctx.flow.lastActive
         == if Pulled(PassOf(c, env).link) > Pulled(LinkOf(c.flow, env.script)) then env.relayAt else c.flow.lastActive
  {
    PassPulls(StartOf(c, env));
    hide PassOf, Paid, Allowed, Tallied;
  }

  /** From a sweep to the next, and from a reload to the first, a flow may leave by
      an exit exactly if its interface was up. */
  lemma {:induction false} SweepDecides(s: Shared, g: nat, up: set<string>, rule: Option<nat>)
    requires SharedOk(s) && g < |s.gens|
    requires rule.Some? ==> rule.value < |s.gens[g].config.rules|
    requires ActionOf(s.gens[g].config, rule).Exit?
    ensures var exits, k := s.gens[g].config.exits, ActionOf(s.gens[g].config, rule).index;
      && k < |exits|
      && WayOut(Swept(s, g, up).gens[g], rule) == (if exits[k].ifname in up then Ok(Some(exits[k].ifname)) else Err(()))
      && forall now :: WayOut(NewGeneration(s.gens[g].config, now, up), rule) == WayOut(Swept(s, g, up).gens[g], rule)
  {
    hide LedgerOk, BucketOk;
    assert GenOk(s.gens[g]);
    ExitInRange(s.gens[g].config, rule);
    hide ConfigTheorems.WellFormed;
  }

  lemma ExitInRange(config: Config, rule: Option<nat>)
    requires ConfigTheorems.WellFormed(config) && (rule.Some? ==> rule.value < |config.rules|)
    ensures ActionOf(config, rule).Exit? ==> ActionOf(config, rule).index < |config.exits|
  {
    if rule.Some? {
      assert ConfigTheorems.InRange(config.rules[rule.value].action, config.exits);
    }
  }
}
