/** One worker (`worker.rs`): a slab of flows with a free list, a pipe pool and the
    shared state. The functions say what each operation does to the worker as a
    value; the class does it in place. */
module Workers {
  import opened Basics
  import opened Hostnames
  import opened Rules
  import opened ConfigFile
  import opened Prelude
  import opened Kernel
  import opened Relay
  import opened Pass
  import opened Stats
  import opened Server
  import opened Flows
  import Throttle
  import Parser
  import PassTheorems

  const SWEEP_INTERVAL: nat := 1_000_000_000
  const MILLISECOND: nat := 1_000_000
  const MAX_SLEEP: nat := 200 * MILLISECOND

  // ---- event tokens ---------------------------------------------------------------------------

  const LISTENER_BIT: nat := 0x8000_0000_0000_0000

  function TokenFor(index: nat, side: Side): nat {
    (index * 2) % (U64_MAX + 1) + if side == ClientSide then 0 else 1
  }

  function DecodeToken(token: nat): (nat, Side) {
    (token / 2, if token % 2 == 0 then ClientSide else UpstreamSide)
  }

  predicate IsListenerToken(token: nat) { token / LISTENER_BIT % 2 == 1 }

  /** A flow's token comes back as the same index and side, and is not taken for a
      listener's, exactly when the index has two bits to spare. */
  lemma TokenRoundTrip(index: nat, side: Side)
    requires index <= U64_MAX
    ensures (!IsListenerToken(TokenFor(index, side)) && DecodeToken(TokenFor(index, side)) == (index, side))
      <==> index < 0x4000_0000_0000_0000
  {
    var wrapped := if index * 2 <= U64_MAX then index * 2 else index * 2 - (U64_MAX + 1);
    assert (index * 2) % (U64_MAX + 1) == wrapped;
  }

  datatype Core = Core(flows: seq<Flow>, free: seq<nat>, pool: Pool, lastSweep: nat)

  /** A worker and what it shares. */
  datatype Site = Site(core: Core, shared: Shared)

  // ---- the slab -----------------------------------------------------------------------------

  function CtxAt(s: Site, i: nat): Ctx
    requires i < |s.core.flows|
  {
    Ctx(s.core.flows[i], s.core.pool, s.shared)
  }

  function Stored(s: Site, i: nat, c: Ctx): Site
    requires i < |s.core.flows|
  {
    Site(s.core.(flows := s.core.flows[i := c.flow], pool := c.pool), c.shared)
  }

  function CloseAt(s: Site, i: nat): Site {
    if i >= |s.core.flows| || !s.core.flows[i].live then s
    else
      var t := Stored(s, i, Closed(CtxAt(s, i)));
      t.(core := t.core.(free := t.core.free + [i]))
  }

  function Concluded(s: Site, i: nat, o: Outcome): Site
    requires i < |s.core.flows|
  {
    if o.ok then Stored(s, i, o.ctx) else CloseAt(Stored(s, i, o.ctx), i)
  }

  /** `flow_ready`: an event may name any index, live or not. */
  function ReadyAt(s: Site, i: nat, side: Side, failed: bool, env: Env): Site {
    if i >= |s.core.flows| || !s.core.flows[i].live then s
    else Concluded(s, i, Handled(CtxAt(s, i), side, failed, env))
  }

  /** What comes with an accepted connection; no destination when it was not
      redirected here. */
  datatype Admission = Admission(
    client: Sock, source: bv32, destination: Option<(bv32, nat)>, mode: PeekMode, now: nat, addOk: bool)

  function Newcomer(a: Admission, generation: nat): Flow
    requires a.destination.Some?
  {
    Vacant(a.now).(
      live := a.addOk, client := if a.addOk then Some(a.client) else None,
      source := a.source, destination := a.destination.value.0, dport := a.destination.value.1,
      mode := a.mode, generation := Some(generation))
  }

  predicate HasRoom(s: Site) { s.core.free != [] && s.core.free[|s.core.free| - 1] < |s.core.flows| }

  /** The slot the next connection gets. */
  function NextSlot(s: Site): nat
    requires HasRoom(s)
  {
    s.core.free[|s.core.free| - 1]
  }

  /** The newcomer in its slot; a failed registration gives the slot back. */
  function Born(s: Site, a: Admission): Site
    requires s.shared.gens != [] && a.destination.Some? && HasRoom(s)
  {
    s.(core := s.core.(
      flows := s.core.flows[NextSlot(s) := Newcomer(a, Current(s.shared))],
      free := if a.addOk then s.core.free[..|s.core.free| - 1] else s.core.free))
  }

  /** `admit`: refused at the cap. */
  function AdmitAt(s: Site, a: Admission, env: Env): Site
    requires s.shared.gens != []
  {
    if a.destination.None? || !HasRoom(s) then s
    else if !a.addOk then Born(s, a)
    else ReadyAt(Born(s, a), NextSlot(s), ClientSide, false, env)
  }

  // ---- housekeeping -------------------------------------------------------------------------

  predicate IsDue(f: Flow, now: nat) { f.live && f.retryAt.Some? && f.retryAt.value <= now }

  predicate IsIdle(f: Flow, now: nat, limit: nat) { f.live && Max(now - f.lastActive, 0) > limit }

  /** Positions of the throttled flows whose time has come. */
  function Due(flows: seq<Flow>, now: nat): seq<nat> {
    if flows == [] then []
    else
      var last := |flows| - 1;
      Due(flows[..last], now) + if IsDue(flows[last], now) then [last] else []
  }

  function Idlers(flows: seq<Flow>, now: nat, limit: nat): seq<nat> {
    if flows == [] then []
    else
      var last := |flows| - 1;
      Idlers(flows[..last], now, limit) + if IsIdle(flows[last], now, limit) then [last] else []
  }

  const CALM_ENV := Env(false, 0, 0, true, true, InProgress, 0, true, 0, true, None, None, 0, true, true, 0, [])

  /** What the kernel answers while flow `i` is resumed. */
  function EnvFor(envs: seq<Env>, i: nat): Env { if i < |envs| then envs[i] else CALM_ENV }

  function ResumeAt(s: Site, i: nat, env: Env): (t: Site)
    ensures |t.shared.gens| == |s.shared.gens|
  {
    if i >= |s.core.flows| then s else Concluded(s, i, Resumed(CtxAt(s, i), env))
  }

  function ResumeAll(s: Site, pending: seq<nat>, envs: seq<Env>): (t: Site)
    ensures |t.shared.gens| == |s.shared.gens|
  {
    if pending == [] then s
    else
      var last := |pending| - 1;
      ResumeAt(ResumeAll(s, pending[..last], envs), pending[last], EnvFor(envs, pending[last]))
  }

  function CloseAll(s: Site, pending: seq<nat>): Site {
    if pending == [] then s
    else
      var last := |pending| - 1;
      CloseAt(CloseAll(s, pending[..last]), pending[last])
  }

  /** The sweep, at most once a second, by the idle time of the current
      configuration rather than each flow's own. */
  function Reaped(s: Site, now: nat): Site
    requires s.shared.gens != []
  {
    if Max(now - s.core.lastSweep, 0) < SWEEP_INTERVAL then s
    else
      var t := s.(core := s.core.(lastSweep := now));
      CloseAll(t, Idlers(t.core.flows, now, IdleSecs(s.shared) * SECOND))
  }

  /** `maintain`. */
  function Maintained(s: Site, now: nat, envs: seq<Env>): Site
    requires s.shared.gens != []
  {
    Reaped(ResumeAll(s, Due(s.core.flows, now), envs), now)
  }

  /** A new worker: every slot vacant, slot 0 first to be used, two pipes a flow. */
  function NewCore(capacity: nat, pipeBytes: nat, now: nat): Core {
    Core(seq(capacity, _ => Vacant(now)), seq(capacity, k requires 0 <= k < capacity => (capacity - 1 - k) as nat),
         EmptyPool(pipeBytes, 2 * capacity), now)
  }

  lemma SameBytes(f: Flow, k: Link, env: Env)
    requires HasLink(f)
    ensures PassTheorems.Pulled(LinkOf(f, [])) == PassTheorems.Pulled(LinkOf(f, env.script))
    ensures PassTheorems.Pulled(LinkOf(WithLink(f, k), [])) == PassTheorems.Pulled(k)
  {
  }

  // ---- the object -----------------------------------------------------------------------------

  class Worker {
    const shared: SharedState
    var flows: seq<Flow>
    var free: seq<nat>
    const pool: PipePool
    var lastSweep: nat

    function State(): Site
      reads this, pool, shared, shared.stats, shared.stats.slots
    {
      Site(Core(flows, free, pool.State(), lastSweep), shared.State())
    }

    predicate Valid()
      reads this, shared, shared.stats, shared.stats.slots
    {
      shared.Valid()
    }

    constructor (shared: SharedState, capacity: nat, pipeBytes: nat, now: nat)
      requires shared.Valid()
      ensures Valid() && this.shared == shared && fresh(pool)
      ensures State() == Site(NewCore(capacity, pipeBytes, now), shared.State())
    {
      this.shared := shared;
      flows := seq(capacity, _ => Vacant(now));
      pool := new PipePool(pipeBytes, 2 * capacity);
      lastSweep := now;
      free := [];
      new;
      var index := capacity;
      while index > 0
        invariant free == NewCore(capacity, pipeBytes, now).free[..capacity - index]
        invariant flows == NewCore(capacity, pipeBytes, now).flows && lastSweep == now
        invariant pool.State() == EmptyPool(pipeBytes, 2 * capacity)
        invariant Valid() && shared.State() == old(shared.State())
      {
        index := index - 1;
        free := free + [index];
      }
      assert NewCore(capacity, pipeBytes, now).free[..capacity] == NewCore(capacity, pipeBytes, now).free;
    }

    /** `budget`: locks the bucket of the flow's rule, if there is one. */
    method Budget(i: nat, now: nat) returns (a: Allowance)
      requires Valid() && i < |flows|
      modifies shared
      ensures Valid()
      ensures var c := old(CtxAt(State(), i));
        && State() == old(State()).(shared := c.shared.(gens := Debited(c.flow, c.shared.gens, now)))
        && a == Allowed(c.flow, c.shared.gens, now)
    {
      var f, gens := flows[i], shared.generations;
      if f.rule.None? || f.generation.None? || f.generation.value >= |gens| {
        return Allowance(USIZE_MAX, None);
      }
      var g, r := f.generation.value, f.rule.value;
      if r >= |gens[g].buckets| || gens[g].buckets[r].None? {
        return Allowance(USIZE_MAX, None);
      }
      var account := gens[g].buckets[r].value;
      var bucket := new Throttle.TokenBucket.Locked(account.bucket);
      var bytes := bucket.Take(USIZE_MAX, now);
      var charged := Throttle.Charged(account, Throttle.Call(USIZE_MAX, now)).(bucket := bucket.State());
      shared.generations := gens[g := gens[g].(buckets := gens[g].buckets[r := Some(charged)])];
      return Allowance(bytes, Some(Throttle.WaitHint(bucket.State())));
    }

    /** The pass itself: both pumps and both sockets are the flow's own. */
    method PumpFlow(i: nat, env: Env, bytes: nat)
        returns (ok: bool, budget: nat, movedOut: nat, movedIn: nat)
      requires Valid() && i < |flows| && HasLink(flows[i])
      modifies this
      ensures State() == old(State()).(core := old(State()).core.(flows := flows)) && Valid()
      ensures var f := old(flows[i]);
        var start := Run(LinkOf(f, env.script), true, bytes, 0, 0);
        var r := Passed(start);
        && (ok, budget, movedOut, movedIn) == (r.ok, r.budget, r.movedOut, r.movedIn)
        && flows == old(flows)[i := WithLink(f, r.link)]
    {
      hide Passed, Rows;
      var f := flows[i];
      var out := new Pump.Owned(f.toUpstream.value);
      var back := new Pump.Owned(f.toClient.value);
      var start := Wire(f.client.value, f.upstream.value, env.script);
      var wire;
      wire, ok, budget, movedOut, movedIn := RunPass(out, back, start, bytes);
      flows := flows[i := f.(client := Some(wire.src), upstream := Some(wire.dst),
                             toUpstream := Some(out.State()), toClient := Some(back.State()))];
    }

    /** `relay`. */
    method RelayFlow(i: nat, env: Env) returns (ok: bool)
      requires Valid() && i < |flows|
      modifies this, shared, shared.stats.slots
      ensures Valid()
      ensures var o := Relayed(old(CtxAt(State(), i)), env);
        State() == Stored(old(State()), i, o.ctx) && ok == o.ok
    {
      hide Passed, Debited, Allowed, Tallied, WithPulled, Rows, PassTheorems.Pulled;
      ghost var c := CtxAt(State(), i);
      var allowance := Budget(i, env.relayAt);
      var f := flows[i];
      if !HasLink(f) {
        assert flows[i := f] == flows;
        return false;
      }
      var moved, budget, movedOut, movedIn := PumpFlow(i, env, allowance.bytes);
      ghost var r := PassOf(c, env);
      assert flows[i] == WithLink(f, r.link);
      assert (moved, budget, movedOut, movedIn) == (r.ok, r.budget, r.movedOut, r.movedIn);
      shared.generations := WithPulled(f, shared.generations,
        Max(PassTheorems.Pulled(LinkOf(flows[i], [])) - PassTheorems.Pulled(LinkOf(f, [])), 0));
      assert shared.generations == Paid(c, env) by {
        SameBytes(f, r.link, env);
      }
      if !moved {
        return false;
      }
      Tally(f.statsSlot, movedIn, movedOut);
      RestFlow(i, movedIn, movedOut, budget, allowance.retryAfter, env.relayAt);
      assert flows[i] == Rested(f, r, allowance.retryAfter, env.relayAt);
      return !(Finished(flows[i].toUpstream.value) && Finished(flows[i].toClient.value));
    }

    /** The end of `relay`: note the activity and set or clear the timer. */
    method RestFlow(i: nat, movedIn: nat, movedOut: nat, budget: nat, retryAfter: Option<nat>, now: nat)
      requires i < |flows|
      modifies this
      ensures free == old(free) && lastSweep == old(lastSweep)
      ensures var f := old(flows[i]);
        flows == old(flows)[i := f.(
          lastActive := if movedIn > 0 || movedOut > 0 then now else f.lastActive,
          retryAt := if retryAfter.Some? && budget == 0 then Some(now + retryAfter.value) else None,
          lastRead := movedIn + movedOut)]
    {
      var g := flows[i].(lastRead := movedIn + movedOut);
      if movedIn > 0 || movedOut > 0 {
        g := g.(lastActive := now);
      }
      g := g.(retryAt := if retryAfter.Some? && budget == 0 then Some(now + retryAfter.value) else None);
      flows := flows[i := g];
    }

    method Tally(slot: Option<nat>, movedIn: nat, movedOut: nat)
      requires Valid()
      modifies shared.stats.slots
      ensures Valid()
      ensures shared.stats.State() == Tallied(old(shared.stats.State()), slot, movedIn, movedOut)
    {
      if slot.Some? {
        if movedIn > 0 {
          shared.stats.AddIn(slot.value, movedIn);
        }
        if movedOut > 0 {
          shared.stats.AddOut(slot.value, movedOut);
        }
      }
    }

    /** `connected`. */
    method FinishConnect(i: nat, failed: bool, env: Env) returns (ok: bool)
      requires Valid() && i < |flows|
      modifies this, pool, shared, shared.stats.slots
      ensures Valid()
      ensures var o := ConnectedUp(old(CtxAt(State(), i)), failed, env);
        State() == Stored(old(State()), i, o.ctx) && ok == o.ok
    {
      hide Relayed, Acquire, Rows;
      ghost var c := CtxAt(State(), i);
      assert flows[i := flows[i]] == flows;
      if flows[i].upstream.None? || failed || !env.noSocketError {
        return false;
      }
      var outbound := pool.TakePipe(env.outPipe);
      var inbound := pool.TakePipe(env.inPipe);
      assert Acquired(pool.State(), inbound) == SecondPipe(c, env) && outbound == FirstPipe(c, env).pipe;
      if outbound.Err? || outbound.value.None? || inbound.Err? || inbound.value.None? {
        return false;
      }
      flows := flows[i := Piped(flows[i], outbound.value.value, inbound.value.value, env.pipedAt)];
      ghost var s := State();
      assert CtxAt(s, i) == PipedCtx(c, env);
      if flows[i].client.None? || !env.clientWatched || !env.upstreamWatched {
        return false;
      }
      ok := RelayFlow(i, env);
      assert State() == Stored(s, i, Relayed(PipedCtx(c, env), env).ctx);
    }

    /** `open_upstream`. */
    method OpenUpstream(i: nat, pin: Option<string>, env: Env) returns (ok: bool)
      requires Valid() && i < |flows|
      modifies this, pool, shared, shared.stats.slots
      ensures Valid()
      ensures var o := OpenedUp(old(CtxAt(State(), i)), pin, env);
        State() == Stored(old(State()), i, o.ctx) && ok == o.ok
    {
      hide ConnectedUp, Rows;
      assert flows[i := flows[i]] == flows;
      if !env.socketOk {
        return false;
      }
      if pin.Some? && !env.bindOk {
        return false;
      }
      if env.connect == Refused || !env.addOk {
        return false;
      }
      flows := flows[i := Dialled(flows[i], pin, env)];
      if env.connect == Connected {
        ok := FinishConnect(i, false, env);
      } else {
        ok := true;
      }
    }

    /** The first half of `decide`: find the rule, count the flow, note both. */
    method Route(i: nat, host: Option<Hostname>)
      requires Valid() && i < |flows| && Admitted(flows[i], shared.generations)
      modifies this, shared.stats, shared.stats.slots
      ensures Valid() && State() == Stored(old(State()), i, Routed(old(CtxAt(State(), i)), host))
    {
      hide Rows, SlotFor, MatchRule, Hash;
      var f := flows[i];
      var config := shared.generations[f.generation.value].config;
      var rule := MatchRule(config.rules, KeyFor(f, host));
      var token := if rule.Some? then config.rules[rule.value].token else config.defaultToken;
      var slot := shared.stats.AssignSlot(host, token);
      shared.stats.FlowStarted(slot);
      flows := flows[i := f.(statsSlot := Some(slot), rule := rule)];
    }

    /** `decide`. */
    method Decide(i: nat, host: Option<Hostname>, env: Env) returns (ok: bool)
      requires Valid() && i < |flows|
      modifies this, pool, shared, shared.stats, shared.stats.slots
      ensures Valid()
      ensures var o := Decided(old(CtxAt(State(), i)), host, env);
        State() == Stored(old(State()), i, o.ctx) && ok == o.ok
    {
      hide OpenedUp, Rows, Begun, MatchRule, SlotFor;
      ghost var c := CtxAt(State(), i);
      if !Admitted(flows[i], shared.generations) {
        assert flows[i := flows[i]] == flows;
        return false;
      }
      var g := shared.generations[flows[i].generation.value];
      Route(i, host);
      ghost var s := State();
      assert CtxAt(s, i) == Routed(c, host);
      var way := WayOut(g, flows[i].rule);
      hide Routed, WayOut;
      if way.Err? {
        return false;
      }
      ok := OpenUpstream(i, way.value, env);
    }

    /** `peek`. */
    method PeekFlow(i: nat, env: Env) returns (ok: bool)
      requires Valid() && i < |flows|
      modifies this, pool, shared, shared.stats, shared.stats.slots
      ensures Valid()
      ensures var o := Peeked(old(CtxAt(State(), i)), env);
        State() == Stored(old(State()), i, o.ctx) && ok == o.ok
    {
      hide Decided, Rows, Parser.PeekVerdict;
      assert flows[i := flows[i]] == flows;
      if flows[i].client.None? || env.peekFails {
        return false;
      }
      var client := flows[i].client.value;
      if client.unread == [] {
        return !client.closed;
      }
      var count := Between(env.peeked, 1, Min(|client.unread|, MAX_PEEK));
      var verdict := Parser.PeekHead(flows[i].mode, client.unread[..count]);
      flows := flows[i := flows[i].(lastActive := env.peekAt)];
      match verdict
      case HostFound(found) => ok := Decide(i, Some(found), env);
      case NoHostname => ok := Decide(i, None, env);
      case NeedMore =>
        if count >= MAX_PEEK {
          ok := Decide(i, None, env);
        } else {
          ok := true;
        }
    }

    /** `close`. */
    method Close(i: nat)
      requires Valid()
      modifies this, pool, shared.stats
      ensures Valid() && State() == CloseAt(old(State()), i)
    {
      hide Release, Rows;
      if i >= |flows| || !flows[i].live {
        return;
      }
      var f := flows[i];
      flows := flows[i := f.(live := false, client := None, upstream := None, statsSlot := None, generation := None,
                             rule := None, retryAt := None, toUpstream := None, toClient := None)];
      if f.toUpstream.Some? {
        var pump := new Pump.Owned(f.toUpstream.value);
        pump.Recycle(pool);
      }
      if f.toClient.Some? {
        var pump := new Pump.Owned(f.toClient.value);
        pump.Recycle(pool);
      }
      if f.statsSlot.Some? {
        shared.stats.FlowEnded();
      }
      free := free + [i];
    }

    /** `flow_ready`: any index, any side, any mask. */
    method FlowReady(i: nat, side: Side, failed: bool, env: Env)
      requires Valid()
      modifies this, pool, shared, shared.stats, shared.stats.slots
      ensures Valid() && State() == ReadyAt(old(State()), i, side, failed, env)
    {
      hide Relayed, ConnectedUp, Peeked, Closed, Rows;
      if i >= |flows| || !flows[i].live {
        return;
      }
      assert flows[i := flows[i]] == flows;
      var ok;
      match flows[i].phase {
        case Peeking =>
          if failed {
            ok := false;
          } else {
            ok := PeekFlow(i, env);
          }
        case Connecting =>
          if side == UpstreamSide {
            ok := FinishConnect(i, failed, env);
          } else {
            ok := true;
          }
        case Relaying => ok := RelayFlow(i, env);
      }
      if !ok {
        Close(i);
      }
    }

    /** `admit`. */
    method Admit(a: Admission, env: Env)
      requires Valid()
      modifies this, pool, shared, shared.stats, shared.stats.slots
      ensures Valid() && State() == AdmitAt(old(State()), a, env)
    {
      hide ReadyAt, Rows;
      if a.destination.None? || free == [] {
        return;
      }
      var index := free[|free| - 1];
      free := free[..|free| - 1];
      var generation := shared.Load();
      if index >= |flows| {
        free := free + [index];
        assert free == old(free);
        return;
      }
      var f := Vacant(a.now).(
        live := true, source := a.source, destination := a.destination.value.0, dport := a.destination.value.1,
        mode := a.mode, generation := Some(generation));
      f := if a.addOk then f.(client := Some(a.client)) else f.(live := false);
      flows := flows[index := f];
      if !a.addOk {
        free := free + [index];
        assert free == old(free);
        return;
      }
      FlowReady(index, ClientSide, false, env);
    }

    /** `maintain`: resume what is due, then at most once a second reap what is idle. */
    method Maintain(now: nat, envs: seq<Env>)
      requires Valid()
      modifies this, pool, shared, shared.stats, shared.stats.slots
      ensures Valid() && State() == Maintained(old(State()), now, envs)
    {
      hide Relayed, Closed, Rows, ResumeAt, CloseAt, IsDue, IsIdle;
      ghost var s := State();
      var pending: seq<nat> := [];
      for k := 0 to |flows|
        invariant pending == Due(flows[..k], now)
      {
        assert flows[..k + 1][..k] == flows[..k];
        if IsDue(flows[k], now) {
          pending := pending + [k];
        }
      }
      assert flows[..|flows|] == flows;
      for slot := 0 to |pending|
        invariant Valid() && State() == ResumeAll(s, pending[..slot], envs)
      {
        assert pending[..slot + 1][..slot] == pending[..slot];
        ResumeOne(pending[slot], EnvFor(envs, pending[slot]));
      }
      assert pending[..|pending|] == pending;
      ghost var t := State();
      assert t == ResumeAll(s, Due(s.core.flows, now), envs);
      if Max(now - lastSweep, 0) < SWEEP_INTERVAL {
        return;
      }
      lastSweep := now;
      Reap(now);
    }

    method ResumeOne(i: nat, env: Env)
      requires Valid()
      modifies this, pool, shared, shared.stats, shared.stats.slots
      ensures Valid() && State() == ResumeAt(old(State()), i, env)
    {
      hide Relayed, Closed, Rows;
      if i < |flows| {
        flows := flows[i := flows[i].(retryAt := None)];
        var ok := RelayFlow(i, env);
        if !ok {
          Close(i);
        }
      }
    }

    method Reap(now: nat)
      requires Valid()
      modifies this, pool, shared, shared.stats, shared.stats.slots
      ensures Valid()
      ensures State() ==
        CloseAll(old(State()), Idlers(old(flows), now, IdleSecs(old(shared.State())) * SECOND))
    {
      hide Closed, Rows, CloseAt, IsIdle;
      ghost var s := State();
      var idle := shared.generations[|shared.generations| - 1].config.limits.idleSecs * SECOND;
      var pending: seq<nat> := [];
      for k := 0 to |flows|
        invariant pending == Idlers(flows[..k], now, idle)
      {
        assert flows[..k + 1][..k] == flows[..k];
        if IsIdle(flows[k], now, idle) {
          pending := pending + [k];
        }
      }
      assert flows[..|flows|] == flows;
      for slot := 0 to |pending|
        invariant Valid() && State() == CloseAll(s, pending[..slot])
      {
        assert pending[..slot + 1][..slot] == pending[..slot];
        Close(pending[slot]);
      }
      assert pending[..|pending|] == pending;
    }

    /** How long the event loop may sleep: never past the moment a throttled flow
        is due, and no shorter than that or 200 ms demands. */
    method TimeoutMs(now: nat) returns (ms: nat)
      ensures ms <= MAX_SLEEP / MILLISECOND
      ensures forall f :: f in flows && f.live && f.retryAt.Some? ==>
        ms * MILLISECOND <= Max(f.retryAt.value - now, 0)
      ensures ms < MAX_SLEEP / MILLISECOND ==>
        exists f :: f in flows && f.live && f.retryAt.Some? && Max(f.retryAt.value - now, 0) < (ms + 1) * MILLISECOND
    {
      var wait := MAX_SLEEP;
      for k := 0 to |flows|
        invariant 0 <= wait <= MAX_SLEEP
        invariant forall j :: 0 <= j < k && flows[j].live && flows[j].retryAt.Some? ==>
          wait <= Max(flows[j].retryAt.value - now, 0)
        invariant wait < MAX_SLEEP ==>
          exists j :: 0 <= j < k && flows[j].live && flows[j].retryAt.Some?
            && wait == Max(flows[j].retryAt.value - now, 0)
      {
        if flows[k].live && flows[k].retryAt.Some? {
          wait := Min(wait, Max(flows[k].retryAt.value - now, 0));
        }
      }
      ms := wait / MILLISECOND;
    }
  }
}
