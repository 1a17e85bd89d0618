/** Per-rule token bucket (`throttle.rs`). Instants and durations are
    nanoseconds; the widths of the source's arithmetic are kept where they
    saturate. */
module Throttle {
  import opened Basics

  const MIN_BURST: nat := 16 * 1024
  const MAX_BURST: nat := 1024 * 1024
  const MAX_WAIT: nat := 100_000_000
  const MIN_WAIT: nat := 1_000_000
  const U128_MAX: nat := 0xFFFF_FFFF_FFFF_FFFF_FFFF_FFFF_FFFF_FFFF

  /** Contents of a bucket. */
  datatype Bucket = Bucket(rate: nat, capacity: nat, tokens: nat, last: nat)

  function Clamp(x: int, low: int, high: int): int
    requires low <= high
  {
    Max(low, Min(x, high))
  }

  function Full(rateKbps: nat, now: nat): Bucket {
    var rate := Max(Min(rateKbps * 125, U64_MAX), 1);
    var capacity := Clamp(rate / 4, MIN_BURST, MAX_BURST);
    Bucket(rate, capacity, capacity, now)
  }

  /** A quarter of a second's worth, but no less than 16 KiB and no more than 1 MiB. */
  function Burst(rateKbps: nat): nat {
    if 125 * rateKbps < 65_536 then 16_384
    else if 125 * rateKbps > 4_194_304 then 1_048_576
    else 125 * rateKbps / 4
  }

  /** A bucket of so many kilobits a second holds 125 bytes a second for each, and
      starts full. */
  lemma BucketIs(rateKbps: nat, now: nat)
    requires 1 <= rateKbps <= 0xFFFF_FFFF
    ensures Full(rateKbps, now) == Bucket(125 * rateKbps, Burst(rateKbps), Burst(rateKbps), now)
  {
  }

  /** Whole bytes earned between the mark and `now`, rounded down. */
  function Gain(b: Bucket, now: nat): nat {
    var elapsed := if now > b.last then now - b.last else 0;
    Min(Min(elapsed * b.rate, U128_MAX) / SECOND, U64_MAX)
  }

  function Refilled(b: Bucket, now: nat): Bucket {
    var gained := Gain(b, now);
    if gained == 0 then b
    else b.(tokens := Min(Min(b.tokens + gained, U64_MAX), b.capacity), last := now)
  }

  function Granted(b: Bucket, want: nat, now: nat): nat {
    Min(want, Refilled(b, now).tokens)
  }

  function Taken(b: Bucket, want: nat, now: nat): Bucket {
    var r := Refilled(b, now);
    r.(tokens := r.tokens - Granted(b, want, now))
  }

  function WaitHint(b: Bucket): nat {
    var nanosPerByte := if b.rate == 0 then 0xFFFF_FFFF else SECOND / b.rate;
    Clamp(Min(nanosPerByte * Min(MIN_BURST, b.capacity), U64_MAX), MIN_WAIT, MAX_WAIT)
  }

  class TokenBucket {
    var rateBytes: nat
    var capacity: nat
    var tokens: nat
    var last: nat

    function State(): Bucket
      reads this
    {
      Bucket(rateBytes, capacity, tokens, last)
    }

    constructor (rateKbps: nat, now: nat)
      ensures State() == Full(rateKbps, now)
    {
      var rate := Max(Min(rateKbps * 125, U64_MAX), 1);
      var burst := Clamp(rate / 4, MIN_BURST, MAX_BURST);
      rateBytes := rate;
      capacity := burst;
      tokens := burst;
      last := now;
    }

    /** Take a bucket out of its lock. */
    constructor Locked(b: Bucket)
      ensures State() == b
    {
      rateBytes, capacity, tokens, last := b.rate, b.capacity, b.tokens, b.last;
    }

    method Refill(now: nat)
      modifies this`tokens, this`last
      ensures State() == Refilled(old(State()), now)
    {
      var elapsed := if now > last then now - last else 0;
      var gained := Min(elapsed * rateBytes, U128_MAX) / SECOND;
      if gained == 0 {
        return;
      }
      gained := Min(gained, U64_MAX);
      tokens := Min(Min(tokens + gained, U64_MAX), capacity);
      last := now;
    }

    method Take(want: nat, now: nat) returns (granted: nat)
      modifies this`tokens, this`last
      ensures State() == Taken(old(State()), want, now)
      ensures granted == Granted(old(State()), want, now)
    {
      Refill(now);
      granted := Min(want, tokens);
      tokens := tokens - granted;
    }
  }

  // ---- histories ---------------------------------------------------------------

  datatype Call = Call(want: nat, now: nat)

  /** What the elapsed time is worth before any width or capacity limit. */
  function Worth(b: Bucket, now: nat): nat {
    (if now > b.last then now - b.last else 0) * b.rate / SECOND
  }

  /** A bucket with its history: when it was built, the latest instant seen, what
      it has granted, what it has earned, and what a full bucket lost. */
  datatype Account = Account(
    bucket: Bucket, start: nat, latest: nat, granted: nat, earned: int, clipped: int)

  function Opened(rateKbps: nat, now: nat): Account {
    Account(Full(rateKbps, now), now, now, 0, 0, 0)
  }

  function Charged(a: Account, c: Call): Account {
    var earned := Refilled(a.bucket, c.now).tokens - a.bucket.tokens;
    Account(
      Taken(a.bucket, c.want, c.now), a.start, Max(a.latest, c.now),
      a.granted + Granted(a.bucket, c.want, c.now),
      a.earned + earned,
      a.clipped + if Gain(a.bucket, c.now) == 0 then 0 else Worth(a.bucket, c.now) - earned)
  }

  function After(a: Account, calls: seq<Call>): Account
    decreases |calls|
  {
    if calls == [] then a else Charged(After(a, calls[..|calls| - 1]), calls[|calls| - 1])
  }

  /** What every call keeps: what is granted was in the initial burst or earned;
      what was earned or clipped is at most the elapsed time's worth and at least
      half of it; the time not yet counted is worth less than one byte. */
  ghost predicate Balanced(a: Account) {
    && 0 < a.bucket.rate
    && a.bucket.tokens <= a.bucket.capacity <= MAX_BURST
    && a.start <= a.bucket.last <= a.latest
    && a.granted + a.bucket.tokens == a.bucket.capacity + a.earned
    && a.clipped >= 0
    && SECOND * (a.earned + a.clipped) <= a.bucket.rate * (a.bucket.last - a.start)
    && a.bucket.rate * (a.bucket.last - a.start) <= 2 * SECOND * (a.earned + a.clipped)
    && a.bucket.rate * (a.latest - a.bucket.last) < SECOND
  }

  lemma MulSplit(r: nat, a: int, b: int)
    ensures r * (a + b) == r * a + r * b
  {
  }

  lemma MulMono(r: nat, a: int, b: int)
    requires a <= b
    ensures r * a <= r * b
  {
  }

  /** Rounding down to whole bytes keeps at least half of any worth of a byte or
      more, and the widths only ever lower the gain. */
  lemma GainBounds(b: Bucket, now: nat)
    requires b.last <= now
    ensures var p := b.rate * (now - b.last);
            var w := Worth(b, now);
            && SECOND * w <= p < SECOND * (w + 1)
            && (w > 0 ==> p <= 2 * SECOND * w)
            && (w == 0 <==> Gain(b, now) == 0)
            && Gain(b, now) <= w
            && (Gain(b, now) < w ==> Gain(b, now) >= U64_MAX / SECOND)
  {
    var p := (now - b.last) * b.rate;
    assert p == b.rate * (now - b.last);
  }

  lemma ChargeKeepsBalance(a: Account, c: Call)
    requires Balanced(a)
    ensures Balanced(Charged(a, c))
  {
    var b, n := a.bucket, Charged(a, c);
    if c.now <= b.last {
      assert Gain(b, c.now) == 0;
    } else {
      GainBounds(b, c.now);
      var w := Worth(b, c.now);
      if w == 0 {
        assert n.bucket.last == b.last;
      } else {
        MulSplit(b.rate, b.last - a.start, c.now - b.last);
        assert n.earned + n.clipped == a.earned + a.clipped + w;
        if c.now < a.latest {
          MulMono(b.rate, a.latest - c.now, a.latest - b.last);
        }
      }
    }
  }

  lemma {:induction false} AlwaysBalanced(rateKbps: nat, start: nat, calls: seq<Call>)
    ensures Balanced(After(Opened(rateKbps, start), calls))
    ensures After(Opened(rateKbps, start), calls).start == start
    ensures After(Opened(rateKbps, start), calls).bucket.rate == Full(rateKbps, start).rate
    ensures After(Opened(rateKbps, start), calls).bucket.capacity == Full(rateKbps, start).capacity
    decreases |calls|
  {
    if calls != [] {
      AlwaysBalanced(rateKbps, start, calls[..|calls| - 1]);
      ChargeKeepsBalance(After(Opened(rateKbps, start), calls[..|calls| - 1]), calls[|calls| - 1]);
    }
  }

  /** Ceiling: for any calls at any instants, in any order, everything granted up
      to `t` is at most the burst plus rate times the time since the start. */
  lemma Ceiling(rateKbps: nat, start: nat, calls: seq<Call>, t: nat)
    requires forall c :: c in calls ==> c.now <= t
    requires start <= t
    ensures var b := Full(rateKbps, start);
            SECOND * After(Opened(rateKbps, start), calls).granted
              <= SECOND * b.capacity + b.rate * (t - start)
  {
    AlwaysBalanced(rateKbps, start, calls);
    LatestIsSome(Opened(rateKbps, start), calls, t);
    var a := After(Opened(rateKbps, start), calls);
    MulMono(a.bucket.rate, a.bucket.last - start, t - start);
  }

  lemma {:induction false} LatestIsSome(a: Account, calls: seq<Call>, t: nat)
    requires forall c :: c in calls ==> c.now <= t
    requires a.latest <= t
    ensures After(a, calls).latest <= t
    decreases |calls|
  {
    if calls != [] {
      LatestIsSome(a, calls[..|calls| - 1], t);
    }
  }

  /** Floor: however finely a bucket is polled, what was earned or lost to a
      full bucket exceeds half the elapsed time's worth less half a byte, so with
      nothing lost the earnings alone do. */
  lemma Floor(rateKbps: nat, start: nat, calls: seq<Call>)
    ensures var a := After(Opened(rateKbps, start), calls);
            && 2 * SECOND * (a.earned + a.clipped) + SECOND > a.bucket.rate * (a.latest - start)
            && (a.clipped == 0 ==> 2 * SECOND * a.earned + SECOND > a.bucket.rate * (a.latest - start))
  {
    AlwaysBalanced(rateKbps, start, calls);
    var a := After(Opened(rateKbps, start), calls);
    MulSplit(a.bucket.rate, a.bucket.last - start, a.latest - a.bucket.last);
  }

  /** The proviso is needed: a bucket nobody drew from is full, so polling it
      later earns nothing, and the floor fails once that wait is worth a byte. */
  lemma FloorNeedsNoClip(rateKbps: nat, start: nat, wait: nat)
    ensures var a := After(Opened(rateKbps, start), [Call(0, start + wait)]);
            && a.earned == 0
            && (a.bucket.rate * wait >= SECOND ==>
                  2 * SECOND * a.earned + SECOND <= a.bucket.rate * (a.latest - start))
  {
    var calls := [Call(0, start + wait)];
    var none: seq<Call> := [];
    assert calls[..0] == none;
    var a := Opened(rateKbps, start);
    assert After(a, calls) == Charged(After(a, none), calls[0]);
    assert Refilled(a.bucket, start + wait).tokens == a.bucket.capacity;
  }

  /** Calls at most `gap` apart, the first as soon as the bucket exists. */
  predicate Spaced(calls: seq<Call>, start: nat, gap: nat) {
    && (calls != [] ==> calls[0].now == start)
    && forall k :: 0 < k < |calls| ==> calls[k - 1].now <= calls[k].now <= calls[k - 1].now + gap
  }

  /** Calls that each ask for at least a full bucket. */
  predicate TakeAll(calls: seq<Call>) { forall c :: c in calls ==> c.want >= MAX_BURST }

  /** A bucket emptied on every call, often enough, never overflows. */
  lemma {:induction false} NeverClipped(rateKbps: nat, start: nat, calls: seq<Call>, gap: nat)
    requires Spaced(calls, start, gap) && TakeAll(calls)
    requires Full(rateKbps, start).rate * gap <= SECOND * Full(rateKbps, start).capacity
    ensures var a := After(Opened(rateKbps, start), calls);
      a.clipped == 0 && (calls != [] ==> a.bucket.tokens == 0 && a.latest == calls[|calls| - 1].now)
    decreases |calls|
  {
    if calls != [] {
      var front, c := calls[..|calls| - 1], calls[|calls| - 1];
      assert c in calls;
      assert forall d :: d in front ==> d in calls;
      NeverClipped(rateKbps, start, front, gap);
      AlwaysBalanced(rateKbps, start, front);
      var a := After(Opened(rateKbps, start), front);
      hide After, Full, Refilled, Gain, Worth;
      if front == [] {
        assert a == Opened(rateKbps, start) by { AfterNone(Opened(rateKbps, start)); }
        NoTimeNoGain(a, c);
      } else {
        assert front[|front| - 1] == calls[|calls| - 2];
        DrainedGains(a, c, gap);
      }
      AfterSnoc(Opened(rateKbps, start), calls);
    }
  }

  lemma AfterNone(a: Account)
    ensures After(a, []) == a
  {
  }

  lemma AfterSnoc(a: Account, calls: seq<Call>)
    requires calls != []
    ensures After(a, calls) == Charged(After(a, calls[..|calls| - 1]), calls[|calls| - 1])
  {
  }

  lemma NoTimeNoGain(a: Account, c: Call)
    requires Balanced(a) && c.now == a.bucket.last == a.latest && c.want >= MAX_BURST
    ensures Charged(a, c).clipped == a.clipped && Charged(a, c).bucket.tokens == 0 && Charged(a, c).latest == c.now
  {
    assert Gain(a.bucket, c.now) == 0;
  }

  lemma DrainedGains(a: Account, c: Call, gap: nat)
    requires Balanced(a) && a.bucket.tokens == 0 && a.latest <= c.now <= a.latest + gap
    requires a.bucket.rate * gap <= SECOND * a.bucket.capacity && c.want >= MAX_BURST
    ensures Charged(a, c).clipped == a.clipped && Charged(a, c).bucket.tokens == 0 && Charged(a, c).latest == c.now
  {
    var b := a.bucket;
    GainBounds(b, c.now);
    var w := Worth(b, c.now);
    MulSplit(b.rate, a.latest - b.last, c.now - a.latest);
    MulMono(b.rate, c.now - a.latest, gap);
    assert w <= b.capacity;
    assert Gain(b, c.now) == w;
  }

  /** So the floor holds of the earnings alone under a condition a caller can see
      to: ask for everything, first at once and then at most a bucket's worth of
      time apart. */
  lemma FloorWhenPolled(rateKbps: nat, start: nat, calls: seq<Call>, gap: nat)
    requires Spaced(calls, start, gap) && TakeAll(calls)
    requires Full(rateKbps, start).rate * gap <= SECOND * Full(rateKbps, start).capacity
    ensures var a := After(Opened(rateKbps, start), calls);
            2 * SECOND * a.earned + SECOND > a.bucket.rate * (a.latest - start)
  {
    hide After, Full;
    NeverClipped(rateKbps, start, calls, gap);
    Floor(rateKbps, start, calls);
  }

  /** A bucket left alone for as long as its hint says has earned at least one
      byte, exactly at the rates above zero; below 10 bytes a second it would not
      have, since the wait is capped at 100 ms. Which flow is granted that byte is
      another matter when several share the bucket. */
  lemma WaitEarnsAByte(rateKbps: nat, start: nat, b: Bucket)
    requires b.rate == Full(rateKbps, start).rate && b.capacity == Full(rateKbps, start).capacity
    ensures Gain(b, b.last + WaitHint(b)) > 0 <==> rateKbps > 0
    ensures MIN_WAIT <= WaitHint(b) <= MAX_WAIT
  {
    var hint := WaitHint(b);
    GainBounds(b, b.last + hint);
    if rateKbps > 0 {
      HintIsWorthAByte(b);
    } else {
      assert b.rate == 1;
    }
  }

  /** Between its two limits the hint is the time that a burst takes to earn, 16 KiB or
      all the bucket holds, rounded down for each byte. */
  lemma HintIsABurst(b: Bucket)
    requires b.rate >= 1 && b.capacity >= 1
    ensures var burst, hint := Min(16_384, b.capacity), WaitHint(b);
      && 1_000_000 <= hint <= 100_000_000
      && (hint > 1_000_000 ==> b.rate * hint <= SECOND * burst)
      && (hint < 100_000_000 ==> b.rate * (hint + burst) > SECOND * burst)
  {
    var q, burst, hint := SECOND / b.rate, Min(MIN_BURST, b.capacity), WaitHint(b);
    MulMono(burst, q, SECOND);
    assert q * burst == burst * q <= U64_MAX;
    if hint > MIN_WAIT {
      MulMono(b.rate, hint, q * burst);
      NoMoreThan(b.rate, q, burst);
    }
    if hint < MAX_WAIT {
      MulMono(b.rate, q * burst + burst, hint + burst);
      MoreThan(b.rate, q, burst);
    }
  }

  lemma NoMoreThan(rate: nat, q: nat, burst: nat)
    requires rate * q <= SECOND
    ensures rate * (q * burst) <= SECOND * burst
  {
    MulMono(burst, rate * q, SECOND);
    assert rate * (q * burst) == burst * (rate * q);
  }

  lemma MoreThan(rate: nat, q: nat, burst: nat)
    requires SECOND < rate * (q + 1) && burst > 0
    ensures SECOND * burst < rate * (q * burst + burst)
  {
    MulMono(burst, SECOND + 1, rate * (q + 1));
    assert rate * (q * burst + burst) == burst * (rate * (q + 1));
  }

  lemma HintIsWorthAByte(b: Bucket)
    requires b.rate >= 10 && b.capacity >= MIN_BURST
    ensures b.rate * WaitHint(b) >= SECOND
  {
    var q := SECOND / b.rate;
    var hint := WaitHint(b);
    if hint == MAX_WAIT {
      MulMono(MAX_WAIT, 10, b.rate);
    } else if b.rate >= 1000 && hint == MIN_WAIT {
      MulMono(MIN_WAIT, 1000, b.rate);
    } else {
      assert hint >= q * MIN_BURST;
      assert b.rate <= SECOND;
      assert q >= 1 && b.rate * q > SECOND - b.rate && b.rate * q >= b.rate;
      MulMono(b.rate, q * MIN_BURST, hint);
      assert b.rate * (q * MIN_BURST) == (b.rate * q) * MIN_BURST;
    }
  }
}
