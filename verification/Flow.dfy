/** One flow's handlers (`worker.rs`) as functions of the flow, the worker's pipe
    pool and the shared state. Every answer the kernel can give is a field of
    `Env`; handlers finish within one call, so one record serves a whole chain. */
module Flows {
  import opened Basics
  import opened Hostnames
  import opened Rules
  import opened ConfigFile
  import opened Prelude
  import opened Kernel
  import opened Relay
  import opened Pass
  import opened Stats
  import opened Server
  import Throttle
  import Parser
  import PassTheorems

  const USIZE_MAX: nat := U64_MAX

  datatype Phase = Peeking | Connecting | Relaying

  /** `lastRead` is history: the bytes the flow's last successful pass read. */
  datatype Flow = Flow(
    live: bool, phase: Phase, client: Option<Sock>, upstream: Option<Sock>,
    source: bv32, destination: bv32, dport: nat, mode: PeekMode,
    generation: Option<nat>, statsSlot: Option<nat>, rule: Option<nat>,
    toUpstream: Option<PumpState>, toClient: Option<PumpState>,
    lastActive: nat, retryAt: Option<nat>, lastRead: nat)

  function Vacant(now: nat): Flow {
    Flow(false, Peeking, None, None, 0, 0, 0, TlsMode, None, None, None, None, None, now, None, 0)
  }

  datatype Connect = Refused | InProgress | Connected

  /** What the kernel and the clock answer during one handler. */
  datatype Env = Env(
    peekFails: bool, peeked: nat, peekAt: nat,
    socketOk: bool, bindOk: bool, connect: Connect, room: nat, addOk: bool, openedAt: nat,
    noSocketError: bool, outPipe: Option<nat>, inPipe: Option<nat>, pipedAt: nat,
    clientWatched: bool, upstreamWatched: bool,
    relayAt: nat, script: seq<Choice>)

  /** What a handler works on. */
  datatype Ctx = Ctx(flow: Flow, pool: Pool, shared: Shared)

  /** `ok` is false when the flow is to be torn down. */
  datatype Outcome = Outcome(ctx: Ctx, ok: bool)

  // ---- the budget -------------------------------------------------------------------------

  datatype Allowance = Allowance(bytes: nat, retryAfter: Option<nat>)

  predicate Admitted(f: Flow, gens: seq<Generation>) { f.generation.Some? && f.generation.value < |gens| }

  /** Does a token bucket apply to the flow? */
  predicate Limited(f: Flow, gens: seq<Generation>) {
    && f.rule.Some? && Admitted(f, gens)
    && f.rule.value < |gens[f.generation.value].buckets|
    && gens[f.generation.value].buckets[f.rule.value].Some?
  }

  function BucketOf(f: Flow, gens: seq<Generation>): Throttle.Account
    requires Limited(f, gens)
  {
    gens[f.generation.value].buckets[f.rule.value].value
  }

  /** The bucket is asked for everything it has. */
  function Allowed(f: Flow, gens: seq<Generation>, now: nat): Allowance {
    if !Limited(f, gens) then Allowance(USIZE_MAX, None)
    else
      var bucket := BucketOf(f, gens).bucket;
      Allowance(Throttle.Granted(bucket, USIZE_MAX, now),
                Some(Throttle.WaitHint(Throttle.Taken(bucket, USIZE_MAX, now))))
  }

  function Debited(f: Flow, gens: seq<Generation>, now: nat): (r: seq<Generation>)
    ensures |r| == |gens|
  {
    if !Limited(f, gens) then gens
    else
      var g, r := f.generation.value, f.rule.value;
      gens[g := gens[g].(buckets := gens[g].buckets[
        r := Some(Throttle.Charged(BucketOf(f, gens), Throttle.Call(USIZE_MAX, now)))])]
  }

  /** History: the bytes read by passes of flows under a rule. */
  function WithPulled(f: Flow, gens: seq<Generation>, n: nat): (r: seq<Generation>)
    ensures |r| == |gens|
  {
    if f.rule.None? || !Admitted(f, gens) || f.rule.value >= |gens[f.generation.value].pulled| then gens
    else
      var g, r := f.generation.value, f.rule.value;
      gens[g := gens[g].(pulled := gens[g].pulled[r := gens[g].pulled[r] + n])]
  }

  // ---- relaying -----------------------------------------------------------------------------

  predicate HasLink(f: Flow) { f.client.Some? && f.upstream.Some? && f.toUpstream.Some? && f.toClient.Some? }

  function LinkOf(f: Flow, script: seq<Choice>): Link
    requires HasLink(f)
  {
    Link(f.client.value, f.upstream.value, f.toUpstream.value, f.toClient.value, script)
  }

  function WithLink(f: Flow, k: Link): Flow {
    f.(client := Some(k.client), upstream := Some(k.upstream), toUpstream := Some(k.out), toClient := Some(k.back))
  }

  function StartOf(c: Ctx, env: Env): Run
    requires HasLink(c.flow)
  {
    Run(LinkOf(c.flow, env.script), true, Allowed(c.flow, c.shared.gens, env.relayAt).bytes, 0, 0)
  }

  /** The pass the flow makes. */
  function PassOf(c: Ctx, env: Env): Run
    requires HasLink(c.flow)
  {
    Passed(StartOf(c, env))
  }

  function PulledBy(c: Ctx, env: Env): nat
    requires HasLink(c.flow)
  {
    Max(PassTheorems.Pulled(PassOf(c, env).link) - PassTheorems.Pulled(StartOf(c, env).link), 0)
  }

  /** The generations once the pass is charged for. */
  function Paid(c: Ctx, env: Env): seq<Generation>
    requires HasLink(c.flow)
  {
    WithPulled(c.flow, Debited(c.flow, c.shared.gens, env.relayAt), PulledBy(c, env))
  }

  function Tallied(l: Ledger, slot: Option<nat>, movedIn: nat, movedOut: nat): Ledger {
    if slot.None? then l
    else
      var m := if movedIn > 0 then AddedIn(l, slot.value, movedIn) else l;
      if movedOut > 0 then AddedOut(m, slot.value, movedOut) else m
  }

  /** The flow after a pass that succeeded. */
  function Rested(f: Flow, r: Run, retryAfter: Option<nat>, now: nat): Flow {
    WithLink(f, r.link).(
      lastActive := if r.movedIn > 0 || r.movedOut > 0 then now else f.lastActive,
      retryAt := if retryAfter.Some? && r.budget == 0 then Some(now + retryAfter.value) else None,
      lastRead := r.movedIn + r.movedOut)
  }

  predicate Done(k: Link) { Finished(k.out) && Finished(k.back) }

  /** A pass that failed: nothing is tallied. */
  function FailedCtx(c: Ctx, env: Env): Ctx
    requires HasLink(c.flow)
  {
    Ctx(WithLink(c.flow, PassOf(c, env).link), c.pool, c.shared.(gens := Paid(c, env)))
  }

  function RestedCtx(c: Ctx, env: Env): Ctx
    requires HasLink(c.flow)
  {
    var r := PassOf(c, env);
    Ctx(Rested(c.flow, r, Allowed(c.flow, c.shared.gens, env.relayAt).retryAfter, env.relayAt), c.pool,
        Shared(Paid(c, env), Tallied(c.shared.ledger, c.flow.statsSlot, r.movedIn, r.movedOut)))
  }

  /** `relay`. A relaying flow always has its pumps (`FlowTheorems.Shape`), so a
      flow without them is simply refused here. */
  function Relayed(c: Ctx, env: Env): Outcome {
    if !HasLink(c.flow) then
      Outcome(c.(shared := c.shared.(gens := Debited(c.flow, c.shared.gens, env.relayAt))), false)
    else if !PassOf(c, env).ok then Outcome(FailedCtx(c, env), false)
    else Outcome(RestedCtx(c, env), !Done(PassOf(c, env).link))
  }

  // ---- connecting ---------------------------------------------------------------------------

  function Piped(f: Flow, out: Pipe, back: Pipe, now: nat): Flow {
    f.(toUpstream := Some(NewPump(out)), toClient := Some(NewPump(back)), phase := Relaying, lastActive := now)
  }

  predicate Gave(a: Acquired) { a.pipe.Ok? && a.pipe.value.Some? }

  function FirstPipe(c: Ctx, env: Env): Acquired { Acquire(c.pool, env.outPipe) }

  function SecondPipe(c: Ctx, env: Env): Acquired { Acquire(FirstPipe(c, env).pool, env.inPipe) }

  predicate PipesGiven(c: Ctx, env: Env) { Gave(FirstPipe(c, env)) && Gave(SecondPipe(c, env)) }

  function PipedCtx(c: Ctx, env: Env): Ctx
    requires PipesGiven(c, env)
  {
    Ctx(Piped(c.flow, FirstPipe(c, env).pipe.value.value, SecondPipe(c, env).pipe.value.value, env.pipedAt),
        SecondPipe(c, env).pool, c.shared)
  }

  /** `connected`. Both pipes are asked for even when the first is refused. */
  function ConnectedUp(c: Ctx, failed: bool, env: Env): Outcome {
    if c.flow.upstream.None? || failed || !env.noSocketError then Outcome(c, false)
    else if !PipesGiven(c, env) then Outcome(c.(pool := SecondPipe(c, env).pool), false)
    else
      var d := PipedCtx(c, env);
      if d.flow.client.None? || !env.clientWatched || !env.upstreamWatched then Outcome(d, false) else Relayed(d, env)
  }

  function Dialled(f: Flow, pin: Option<string>, env: Env): Flow {
    f.(upstream := Some(Kernel.Opened(env.room, pin)), phase := Connecting, lastActive := env.openedAt)
  }

  /** Does `open_upstream` get as far as connecting? */
  predicate Connects(pin: Option<string>, env: Env) { env.socketOk && (pin.Some? ==> env.bindOk) }

  /** `open_upstream`. `pin` is the exit's interface. */
  function OpenedUp(c: Ctx, pin: Option<string>, env: Env): Outcome {
    if !Connects(pin, env) || env.connect == Refused || !env.addOk then Outcome(c, false)
    else
      var dialled := c.(flow := Dialled(c.flow, pin, env));
      if env.connect == Connected then ConnectedUp(dialled, false, env) else Outcome(dialled, true)
  }

  // ---- deciding -----------------------------------------------------------------------------

  function KeyFor(f: Flow, host: Option<Hostname>): FlowKey {
    FlowKey(f.source, f.destination, f.dport, host)
  }

  function ActionOf(config: Config, rule: Option<nat>): Action
    requires rule.Some? ==> rule.value < |config.rules|
  {
    if rule.Some? then config.rules[rule.value].action else config.defaultAction
  }

  function TokenOf(config: Config, rule: Option<nat>): Label
    requires rule.Some? ==> rule.value < |config.rules|
  {
    if rule.Some? then config.rules[rule.value].token else config.defaultToken
  }

  /** The flow is counted before anything that can fail. */
  function Routed(c: Ctx, host: Option<Hostname>): Ctx
    requires Admitted(c.flow, c.shared.gens)
  {
    var config := c.shared.gens[c.flow.generation.value].config;
    var rule := MatchRule(config.rules, KeyFor(c.flow, host));
    var token := TokenOf(config, rule);
    var slot := SlotFor(c.shared.ledger.table, KeyOf(host), token).slot;
    Ctx(c.flow.(statsSlot := Some(slot), rule := rule), c.pool,
        c.shared.(ledger := Begun(c.shared.ledger, KeyOf(host), token)))
  }

  /** How the flow may leave: refused, unpinned, or pinned to an exit that is up.
      A dead exit is never replaced by another way out. */
  function WayOut(g: Generation, rule: Option<nat>): Result<Option<string>, ()>
    requires rule.Some? ==> rule.value < |g.config.rules|
  {
    match ActionOf(g.config, rule)
    case Block => Err(())
    case Direct => Ok(None)
    case Exit(k) =>
      if k < |g.exitUp| && g.exitUp[k] && k < |g.config.exits| then Ok(Some(g.config.exits[k].ifname)) else Err(())
  }

  /** `decide`. */
  function Decided(c: Ctx, host: Option<Hostname>, env: Env): Outcome {
    if !Admitted(c.flow, c.shared.gens) then Outcome(c, false)
    else
      var routed := Routed(c, host);
      match WayOut(c.shared.gens[c.flow.generation.value], routed.flow.rule)
      case Err(_) => Outcome(routed, false)
      case Ok(pin) => OpenedUp(routed, pin, env)
  }

  /** The interface of the socket that deciding the flow makes connect, if it makes
      any do so, whatever becomes of the attempt. */
  function Attempt(c: Ctx, host: Option<Hostname>, env: Env): Option<Option<string>> {
    if !Admitted(c.flow, c.shared.gens) then None
    else
      match WayOut(c.shared.gens[c.flow.generation.value], Routed(c, host).flow.rule)
      case Ok(pin) => if Connects(pin, env) then Some(pin) else None
      case Err(_) => None
  }

  // ---- peeking ------------------------------------------------------------------------------

  /** `peek`: at least one waiting byte and at most the scratch buffer is seen. */
  function Peeked(c: Ctx, env: Env): Outcome {
    if c.flow.client.None? || env.peekFails then Outcome(c, false)
    else
      var client := c.flow.client.value;
      if client.unread == [] then Outcome(c, !client.closed)
      else
        var n := Between(env.peeked, 1, Min(|client.unread|, MAX_PEEK));
        var seen := c.(flow := c.flow.(lastActive := env.peekAt));
        match Parser.PeekVerdict(c.flow.mode, client.unread[..n])
        case HostFound(host) => Decided(seen, Some(host), env)
        case NoHostname => Decided(seen, None, env)
        case NeedMore => if n >= MAX_PEEK then Decided(seen, None, env) else Outcome(seen, true)
  }

  // ---- events and teardown ------------------------------------------------------------------

  datatype Side = ClientSide | UpstreamSide

  /** `flow_ready` up to the teardown. `failed` is an error or hangup in the mask. */
  function Handled(c: Ctx, side: Side, failed: bool, env: Env): Outcome {
    match c.flow.phase
    case Peeking => if failed then Outcome(c, false) else Peeked(c, env)
    case Connecting => if side == UpstreamSide then ConnectedUp(c, failed, env) else Outcome(c, true)
    case Relaying => Relayed(c, env)
  }

  function Recycled(pool: Pool, pump: Option<PumpState>): Pool {
    if pump.None? then pool else Release(pool, pump.value.pipe, pump.value.buffered)
  }

  /** `close` of a live flow. */
  function Closed(c: Ctx): Ctx {
    Ctx(
      c.flow.(live := false, client := None, upstream := None, statsSlot := None, generation := None,
              rule := None, retryAt := None, toUpstream := None, toClient := None),
      Recycled(Recycled(c.pool, c.flow.toUpstream), c.flow.toClient),
      if c.flow.statsSlot.Some? then c.shared.(ledger := Ended(c.shared.ledger)) else c.shared)
  }

  /** `maintain`, resuming one throttled flow. */
  function Resumed(c: Ctx, env: Env): (o: Outcome)
    ensures |o.ctx.shared.gens| == |c.shared.gens|
  {
    Relayed(c.(flow := c.flow.(retryAt := None)), env)
  }
}
