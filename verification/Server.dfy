/** What every worker shares (`server.rs`): the published configurations, each with
    its token buckets and exit flags, and the stats table; and how many workers
    and flows there may be. */
module Server {
  import opened Basics
  import opened ConfigFile
  import opened Throttle
  import opened Stats
  import ConfigTheorems

  const MAX_WORKERS: nat := 4

  // ---- sizing ---------------------------------------------------------------------------

  function WorkerCount(limits: Limits, nproc: nat): nat {
    Max(Min(if limits.workers == 0 then nproc else limits.workers, MAX_WORKERS), 1)
  }

  function CeilDiv(a: nat, b: nat): nat
    requires b > 0
  {
    (a + b - 1) / b
  }

  /** The flow cap of one worker. */
  function PerWorker(limits: Limits, nproc: nat): nat {
    Max(CeilDiv(limits.maxFlows, WorkerCount(limits, nproc)), 1)
  }

  /** As many workers as asked for, or as there are processors, within one and four.
      The cap is per worker, so together the workers admit up to one flow less
      than their number beyond the configured maximum. */
  lemma GlobalCap(limits: Limits, nproc: nat)
    requires limits.maxFlows >= 1
    ensures WorkerCount(limits, nproc)
      == if limits.workers > 4 then 4 else if limits.workers > 0 then limits.workers
         else if nproc > 4 then 4 else if nproc > 0 then nproc else 1
    ensures limits.maxFlows <= WorkerCount(limits, nproc) * PerWorker(limits, nproc)
              <= limits.maxFlows + WorkerCount(limits, nproc) - 1
  {
    var n, w := limits.maxFlows, WorkerCount(limits, nproc);
    assert w == 1 || w == 2 || w == 3 || w == 4;
    assert CeilDiv(n, w) >= 1;
  }

  // ---- generations ------------------------------------------------------------------------

  /** One published configuration. `pulled` is history: the bytes relay passes
      have read under each rule. */
  datatype Generation = Generation(
    config: Config, buckets: seq<Option<Account>>, exitUp: seq<bool>, pulled: seq<nat>)

  /** `up` holds the interfaces that are up. */
  function NewGeneration(config: Config, now: nat, up: set<string>): Generation {
    Generation(
      config,
      seq(|config.rules|, i requires 0 <= i < |config.rules| =>
        match config.rules[i].rateKbps case Some(kbps) => Some(Throttle.Opened(kbps, now)) case None => None),
      seq(|config.exits|, i requires 0 <= i < |config.exits| => config.exits[i].ifname in up),
      seq(|config.rules|, _ => 0))
  }

  /** Every generation ever published, the current one last; a flow's reference to
      its generation is a position in this list. */
  datatype Shared = Shared(gens: seq<Generation>, ledger: Ledger)

  function Current(s: Shared): nat
    requires s.gens != []
  {
    |s.gens| - 1
  }

  function IdleSecs(s: Shared): nat
    requires s.gens != []
  {
    s.gens[Current(s)].config.limits.idleSecs
  }

  /** `text` is `None` when the file cannot be read. A bad file changes nothing. */
  function Reloaded(s: Shared, text: Option<string>, now: nat, up: set<string>): Shared {
    if text.None? || ParseConfig(text.value).Err? then s
    else s.(gens := s.gens + [NewGeneration(ParseConfig(text.value).value, now, up)])
  }

  function Flags(g: Generation, up: set<string>): seq<bool> {
    seq(|g.exitUp|, i requires 0 <= i < |g.exitUp| =>
      if i < |g.config.exits| then g.config.exits[i].ifname in up else g.exitUp[i])
  }

  function Swept(s: Shared, g: nat, up: set<string>): Shared
    requires g < |s.gens|
  {
    s.(gens := s.gens[g := s.gens[g].(exitUp := Flags(s.gens[g], up))])
  }

  class SharedState {
    var generations: seq<Generation>
    const stats: StatsTable

    function State(): Shared
      reads this, stats, stats.slots
    {
      Shared(generations, stats.State())
    }

    predicate Valid()
      reads this, stats, stats.slots
    {
      generations != [] && stats.Valid()
    }

    constructor (config: Config, now: nat, up: set<string>)
      ensures Valid() && fresh(stats) && fresh(stats.slots)
      ensures State() == Shared([NewGeneration(config, now, up)], Fresh())
    {
      generations := [NewGeneration(config, now, up)];
      stats := new StatsTable();
    }

    /** The generation new flows are admitted under. */
    method Load() returns (g: nat)
      requires Valid()
      ensures g == Current(State())
    {
      g := |generations| - 1;
    }

    method Publish(g: Generation)
      requires Valid()
      modifies this
      ensures Valid() && State() == old(State()).(gens := old(State()).gens + [g])
    {
      generations := generations + [g];
    }

    method Reload(text: Option<string>, now: nat, up: set<string>)
      requires Valid()
      modifies this
      ensures Valid() && State() == Reloaded(old(State()), text, now, up)
    {
      hide ParseConfig, NewGeneration;
      if text.Some? {
        var parsed := ParseConfig(text.value);
        if parsed.Ok? {
          Publish(NewGeneration(parsed.value, now, up));
        }
      }
    }

    method SweepExits(up: set<string>)
      requires Valid()
      modifies this
      ensures Valid() && State() == Swept(old(State()), Current(old(State())), up)
    {
      var g := |generations| - 1;
      ghost var was := generations[g];
      for k := 0 to Min(|generations[g].config.exits|, |generations[g].exitUp|)
        invariant |generations| == g + 1 && stats.Valid()
        invariant generations == old(generations)[g := was.(exitUp := generations[g].exitUp)]
        invariant |generations[g].exitUp| == |was.exitUp|
        invariant forall i :: 0 <= i < |was.exitUp| ==>
          generations[g].exitUp[i] == if i < k then Flags(was, up)[i] else was.exitUp[i]
      {
        var flags := generations[g].exitUp;
        var isUp := generations[g].config.exits[k].ifname in up;
        generations := generations[g := generations[g].(exitUp := flags[k := isUp])];
      }
      assert generations[g].exitUp == Flags(was, up);
    }
  }

  // ---- what holds of everything shared ---------------------------------------------------------

  /** A bucket for exactly the rate-limited rules, built from the rule's rate,
      balanced, and having granted at least all that was pulled. */
  ghost predicate BucketOk(rate: Option<nat>, bucket: Option<Account>, pulled: nat) {
    && (rate.Some? <==> bucket.Some?)
    && (bucket.Some? ==>
          && Balanced(bucket.value)
          && bucket.value.bucket.rate == Full(rate.value, bucket.value.start).rate
          && bucket.value.bucket.capacity == Full(rate.value, bucket.value.start).capacity
          && pulled <= bucket.value.granted)
  }

  ghost predicate GenOk(g: Generation) {
    && ConfigTheorems.WellFormed(g.config)
    && |g.buckets| == |g.config.rules| == |g.pulled|
    && |g.exitUp| == |g.config.exits|
    && forall r :: 0 <= r < |g.config.rules| ==> BucketOk(g.config.rules[r].rateKbps, g.buckets[r], g.pulled[r])
  }

  ghost predicate SharedOk(s: Shared) {
    && s.gens != []
    && (forall g :: 0 <= g < |s.gens| ==> GenOk(s.gens[g]))
    && LedgerOk(s.ledger)
  }

  /** Configurations are never changed and stats rows never lost. */
  ghost predicate SharedLater(s: Shared, t: Shared) {
    && |s.gens| <= |t.gens|
    && (forall g :: 0 <= g < |s.gens| ==> t.gens[g].config == s.gens[g].config)
    && Grows(s.ledger.table, t.ledger.table)
  }

  lemma {:induction false} SharedLaterTrans(s: Shared, t: Shared, u: Shared)
    requires SharedLater(s, t) && SharedLater(t, u)
    ensures SharedLater(s, u)
  {
  }

  lemma {:induction false} BuiltOk(config: Config, now: nat, up: set<string>)
    requires ConfigTheorems.WellFormed(config)
    ensures GenOk(NewGeneration(config, now, up))
  {
    var g := NewGeneration(config, now, up);
    hide ConfigTheorems.WellFormed, Full;
    forall r | 0 <= r < |config.rules| ensures BucketOk(config.rules[r].rateKbps, g.buckets[r], g.pulled[r]) {
      if config.rules[r].rateKbps.Some? {
        AlwaysBalanced(config.rules[r].rateKbps.value, now, []);
      }
    }
  }

  lemma {:induction false} ReloadedOk(s: Shared, text: Option<string>, now: nat, up: set<string>)
    requires SharedOk(s)
    ensures SharedOk(Reloaded(s, text, now, up)) && SharedLater(s, Reloaded(s, text, now, up))
    ensures Reloaded(s, text, now, up).ledger == s.ledger
  {
    hide GenOk, LedgerOk, ParseLines, NewGeneration;
    if text.Some? && ParseConfig(text.value).Ok? {
      ConfigTheorems.AcceptedIsWellFormed(TextLines(text.value));
      BuiltOk(ParseConfig(text.value).value, now, up);
    }
  }

  lemma {:induction false} SweptOk(s: Shared, g: nat, up: set<string>)
    requires SharedOk(s) && g < |s.gens|
    ensures SharedOk(Swept(s, g, up)) && SharedLater(s, Swept(s, g, up))
    ensures Swept(s, g, up).ledger == s.ledger
  {
    hide LedgerOk, BucketOk, ConfigTheorems.WellFormed;
    assert GenOk(s.gens[g]);
  }
}
