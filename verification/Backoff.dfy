/** RetryPolicy: the delay before a retry, on the wrapping 64-bit integers of the source, and the
    statuses that may be retried. */
module Backoff {
  import opened Division
  import opened Wrappers

  const MAX_INT64 := 0x7fff_ffff_ffff_ffff
  const TWO_64 := 0x1_0000_0000_0000_0000
  const SECOND := 1_000_000_000

  /** The jitter factor is the rational jitterNum / jitterDen. */
  datatype Policy = Policy(
    maxAttempts: int,
    baseDelay: int,
    maxDelay: int,
    jitterNum: nat,
    jitterDen: nat,
    retryableStatuses: seq<int>)
  {
    /** What validateRetryPolicy demands, of durations that are 64-bit integers. */
    ghost predicate Valid() {
      1 <= maxAttempts && 0 <= baseDelay <= maxDelay <= MAX_INT64 && 0 < jitterDen && jitterNum <= jitterDen
    }
  }

  /** A policy whose jitter factor is a number. */
  type PolicyOf = p: Policy | p.jitterDen > 0 witness Policy(1, 0, 0, 0, 1, [])

  /** DefaultRetryPolicy. */
  const DEFAULT_POLICY := Policy(4, 5 * SECOND, 60 * SECOND, 1, 4, [429, 500, 502, 503, 504])

  /** The 64-bit integer with the same low 64 bits. */
  function Wrap(x: int): (r: int)
    ensures -MAX_INT64 - 1 <= r <= MAX_INT64
    ensures -MAX_INT64 - 1 <= x <= MAX_INT64 ==> r == x
  {
    (x + MAX_INT64 + 1) % TWO_64 - MAX_INT64 - 1
  }

  function Pow2(k: nat): (r: nat)
    ensures r > 0
  {
    if k == 0 then 1 else 2 * Pow2(k - 1)
  }

  /** `d << k` */
  function ShiftLeft(d: int, k: nat): int {
    if k >= 64 then 0 else Wrap(d * Pow2(k))
  }

  /** `int64(x / den)`, toward zero. */
  function Truncate(x: int, den: nat): int
    requires den > 0
  {
    if x >= 0 then x / den else -((-x) / den)
  }

  /** A source of jitter: Int63n(n) lies in [0, n). Asked for an empty range, the default source gives 0. */
  ghost predicate Source(draw: int -> int) {
    forall n :: if n > 0 then 0 <= draw(n) < n else draw(n) == 0
  }

  /** The capped exponential, before jitter. */
  function Capped(p: Policy, attempt: int): int {
    var d := ShiftLeft(p.baseDelay, if attempt < 1 then 0 else attempt - 1);
    if d > p.maxDelay then p.maxDelay else d
  }

  /** `d += Int63n(2*spread+1) - spread` */
  function Jitter(d: int, spread: int, draw: int -> int): int {
    Wrap(d + (draw(Wrap(2 * spread + 1)) - spread))
  }

  /** `int64(float64(d) * Jitter)` */
  function Spread(p: Policy, d: int): int
    requires p.jitterDen > 0
  {
    Truncate(d * p.jitterNum, p.jitterDen)
  }

  /** What `Delay` computes. */
  function DelayOf(p: Policy, attempt: int, retryAfter: int, draw: Option<int -> int>): int
    requires p.jitterDen > 0
  {
    if retryAfter > 0 then (if retryAfter > p.maxDelay then p.maxDelay else retryAfter)
    else
      var d := Capped(p, attempt);
      var spread := Spread(p, d);
      var jittered := if p.jitterNum > 0 && draw.Some? && spread > 0 then Jitter(d, spread, draw.value) else d;
      if jittered < 0 then 0 else jittered
  }

  /** The backoff before retry number `attempt`; a positive Retry-After hint wins and is capped. */
  method Delay(p: Policy, attempt: int, retryAfter: int, draw: Option<int -> int>) returns (d: int)
    requires p.jitterDen > 0
    ensures d == DelayOf(p, attempt, retryAfter, draw)
  {
    var n := attempt;
    if n < 1 {
      n := 1;
    }
    if retryAfter > 0 {
      if retryAfter > p.maxDelay {
        return p.maxDelay;
      }
      return retryAfter;
    }
    d := ShiftLeft(p.baseDelay, n - 1);
    if d > p.maxDelay {
      d := p.maxDelay;
    }
    if p.jitterNum > 0 && draw.Some? {
      var spread := Spread(p, d);
      if spread > 0 {
        d := Jitter(d, spread, draw.value);
      }
    }
    if d < 0 {
      return 0;
    }
  }

  method RetryableStatus(p: Policy, status: int) returns (found: bool)
    ensures found <==> status in p.retryableStatuses
  {
    for i := 0 to |p.retryableStatuses|
      invariant status !in p.retryableStatuses[..i]
    {
      if p.retryableStatuses[i] == status {
        return true;
      }
    }
    return false;
  }

  // ----- bounds -----

  /** A fraction of a delay is no more than the delay. */
  lemma FractionIsLess(a: int, num: nat, den: nat)
    requires 0 <= a && 0 < den && num <= den
    ensures a * num / den <= a
  {
    MulIsMonotone(num, den, a);
    assert (a + 1) * den == a * den + den;
    DivBounds(a * num, a, den);
  }

  /** The jitter on a delay grows with the delay, and never exceeds it. */
  lemma SpreadIsMonotone(p: Policy, a: int, b: int)
    requires p.Valid() && 0 <= a <= b
    ensures 0 <= Spread(p, a) <= Spread(p, b) && Spread(p, a) <= a
    ensures Spread(p, b) == b * p.jitterNum / p.jitterDen
  {
    MulIsMonotone(0, a, p.jitterNum);
    MulIsMonotone(a, b, p.jitterNum);
    DivIsMonotone(a * p.jitterNum, b * p.jitterNum, p.jitterDen);
    FractionIsLess(a, p.jitterNum, p.jitterDen);
  }

  lemma SpreadOfNegative(p: Policy, d: int)
    requires p.Valid() && d <= 0
    ensures Spread(p, d) <= 0
  {
    MulIsMonotone(d, 0, p.jitterNum);
    if d * p.jitterNum < 0 {
      DivIsMonotone(0, -(d * p.jitterNum), p.jitterDen);
    }
  }

  lemma JitterIsBounded(d: int, spread: int, draw: int -> int)
    requires 0 < spread <= d <= MAX_INT64 && Source(draw)
    ensures Jitter(d, spread, draw) <= d + spread
    ensures 2 * spread < MAX_INT64 && d + spread <= MAX_INT64 ==> d - spread <= Jitter(d, spread, draw)
  {
  }

  /** For every attempt number, including those whose shift overflows or reaches 64, and for every
      hint and every jitter: the delay is never negative and never exceeds MaxDelay by more than
      the jitter on MaxDelay. */
  lemma DelayIsBounded(p: Policy, attempt: int, retryAfter: int, draw: Option<int -> int>)
    requires p.Valid() && (draw.Some? ==> Source(draw.value))
    ensures 0 <= DelayOf(p, attempt, retryAfter, draw) <= p.maxDelay + p.maxDelay * p.jitterNum / p.jitterDen
  {
    var d := Capped(p, attempt);
    SpreadIsMonotone(p, p.maxDelay, p.maxDelay);
    if d >= 0 {
      SpreadIsMonotone(p, d, p.maxDelay);
      if draw.Some? && Spread(p, d) > 0 {
        JitterIsBounded(d, Spread(p, d), draw.value);
      }
    } else {
      SpreadOfNegative(p, d);
    }
  }

  // ----- the exponential -----

  function Min(a: int, b: int): int { if a <= b then a else b }

  /** The backoff that the documentation promises: the initial delay doubled for every attempt
      already made, up to the cap. */
  function Promised(p: Policy, attempt: nat): int
    requires attempt >= 1
  {
    Min(p.maxDelay, p.baseDelay * Pow2(attempt - 1))
  }

  lemma {:induction false} Pow2Grows(a: nat, b: nat)
    requires a <= b
    ensures Pow2(a) <= Pow2(b)
  {
    if a < b {
      Pow2Grows(a, b - 1);
    }
  }

  lemma {:induction false} Pow2Splits(a: nat, b: nat)
    ensures Pow2(a + b) == Pow2(a) * Pow2(b)
  {
    if b > 0 {
      Pow2Splits(a, b - 1);
    }
  }

  lemma Pow2Of64()
    ensures Pow2(64) == TWO_64
  {
    assert Pow2(4) == 16;
    Pow2Splits(4, 4);
    Pow2Splits(8, 8);
    Pow2Splits(16, 16);
    Pow2Splits(32, 32);
  }

  /** Without jitter and without a hint the source computes the promised delay exactly when the
      shift does not overflow, or what is left of it still reaches the cap. */
  lemma DelayIsPromisedIff(p: Policy, attempt: nat)
    requires p.Valid() && attempt >= 1
    ensures DelayOf(p, attempt, 0, None) == Promised(p, attempt) <==>
              p.baseDelay * Pow2(attempt - 1) <= MAX_INT64 || ShiftLeft(p.baseDelay, attempt - 1) >= p.maxDelay
  {
    var ideal := p.baseDelay * Pow2(attempt - 1);
    MulIsMonotone(0, p.baseDelay, Pow2(attempt - 1));
    if ideal <= MAX_INT64 && attempt - 1 >= 64 {
      Pow2Of64();
      Pow2Grows(64, attempt - 1);
      if p.baseDelay > 0 {
        MulIsMonotone(1, p.baseDelay, Pow2(attempt - 1));
      }
    }
  }

  lemma PromisedGrows(p: Policy, a: nat, b: nat)
    requires p.Valid() && 1 <= a <= b
    ensures Promised(p, a) <= Promised(p, b) && p.baseDelay * Pow2(a - 1) <= p.baseDelay * Pow2(b - 1)
  {
    Pow2Grows(a - 1, b - 1);
    MulIsMonotone(Pow2(a - 1), Pow2(b - 1), p.baseDelay);
  }

  /** As long as the shift does not overflow, waiting longer never shortens the delay. */
  lemma DelayGrows(p: Policy, a: nat, b: nat)
    requires p.Valid() && 1 <= a <= b && p.baseDelay * Pow2(b - 1) <= MAX_INT64
    ensures DelayOf(p, a, 0, None) <= DelayOf(p, b, 0, None)
  {
    PromisedGrows(p, a, b);
    DelayIsPromisedIff(p, a);
    DelayIsPromisedIff(p, b);
  }

  /** With jitter the delay stays within the jitter factor of the promised one, for caps below 2^62. */
  lemma DelayStaysNearPromised(p: Policy, attempt: nat, draw: int -> int)
    requires p.Valid() && attempt >= 1 && Source(draw) && p.maxDelay < 0x4000_0000_0000_0000
    requires p.baseDelay * Pow2(attempt - 1) <= MAX_INT64
    ensures var d := Promised(p, attempt);
            d - Spread(p, d) <= DelayOf(p, attempt, 0, Some(draw)) <= d + Spread(p, d)
  {
    var d := Promised(p, attempt);
    DelayIsPromisedIff(p, attempt);
    MulIsMonotone(0, p.baseDelay, Pow2(attempt - 1));
    assert Capped(p, attempt) == d;
    SpreadIsMonotone(p, d, d);
    if Spread(p, d) > 0 {
      JitterIsBounded(d, Spread(p, d), draw);
    }
  }

  /** The jitter is spent in full, both ways: a source that draws nothing shortens the capped delay by the
      spread, and one that draws all of it lengthens it by the spread. */
  lemma JitterReachesBothEnds(p: Policy, attempt: int, low: int -> int, high: int -> int)
    requires p.Valid() && p.maxDelay < 0x4000_0000_0000_0000
    requires (forall n :: low(n) == 0) && (forall n :: high(n) == if n > 0 then n - 1 else 0)
    requires Capped(p, attempt) >= 0
    ensures DelayOf(p, attempt, 0, Some(low)) == Capped(p, attempt) - Spread(p, Capped(p, attempt))
    ensures DelayOf(p, attempt, 0, Some(high)) == Capped(p, attempt) + Spread(p, Capped(p, attempt))
    ensures Spread(p, Capped(p, attempt)) == Capped(p, attempt) * p.jitterNum / p.jitterDen
  {
    var d := Capped(p, attempt);
    SpreadIsMonotone(p, d, d);
    if p.jitterNum == 0 {
      DivBounds(d * p.jitterNum, 1, p.jitterDen);
    }
  }

  /** Attempt numbers below 1 count as 1. */
  lemma AttemptsStartAtOne(p: Policy, attempt: int, retryAfter: int, draw: Option<int -> int>)
    requires p.Valid() && attempt < 1
    ensures DelayOf(p, attempt, retryAfter, draw) == DelayOf(p, 1, retryAfter, draw)
  {
  }

  /** The documented schedule: four attempts, about 5, 10, 20, 40 and then 60 seconds, give or take a
      quarter. */
  lemma DefaultSchedule()
    ensures DEFAULT_POLICY.maxAttempts == 4
    ensures DelayOf(DEFAULT_POLICY, 1, 0, None) == 5_000_000_000
    ensures DelayOf(DEFAULT_POLICY, 2, 0, None) == 10_000_000_000
    ensures DelayOf(DEFAULT_POLICY, 3, 0, None) == 20_000_000_000
    ensures DelayOf(DEFAULT_POLICY, 4, 0, None) == 40_000_000_000
    ensures DelayOf(DEFAULT_POLICY, 5, 0, None) == 60_000_000_000
    ensures Spread(DEFAULT_POLICY, 60_000_000_000) == 15_000_000_000
  {
    assert Pow2(0) == 1 && Pow2(1) == 2 && Pow2(2) == 4 && Pow2(3) == 8 && Pow2(4) == 16;
  }

  /** From the 65th attempt on nothing is left of a shifted initial delay: the backoff is zero, with
      any jitter, where the documentation promises the cap. */
  lemma BackoffCollapses(p: Policy, attempt: nat, draw: Option<int -> int>)
    requires p.Valid() && attempt > 64 && p.baseDelay > 0
    ensures DelayOf(p, attempt, 0, draw) == 0
    ensures Promised(p, attempt) == p.maxDelay > 0
  {
    Pow2Of64();
    Pow2Grows(64, attempt - 1);
    MulIsMonotone(1, p.baseDelay, Pow2(attempt - 1));
    SpreadOfNegative(p, 0);
  }

  lemma PowersAtHorizon()
    ensures Pow2(30) == 1_073_741_824 && Pow2(31) == 2_147_483_648
  {
    assert Pow2(10) == 1024;
    Pow2Splits(10, 10);
    Pow2Splits(20, 10);
  }

  /** The default policy keeps its promise for up to 31 attempts, and not for 32. The default
      budgets, 4 tries and 8 reconnects, stay far below. */
  lemma DefaultPolicyHorizon(attempt: nat)
    requires 1 <= attempt <= 31
    ensures DelayOf(DEFAULT_POLICY, attempt, 0, None) == Promised(DEFAULT_POLICY, attempt)
    ensures DelayOf(DEFAULT_POLICY, 32, 0, None) == 0 && Promised(DEFAULT_POLICY, 32) == 60 * SECOND
  {
    PowersAtHorizon();
    Pow2Grows(attempt - 1, 30);
    DelayIsPromisedIff(DEFAULT_POLICY, attempt);
  }

  /** A positive Retry-After hint wins over the exponential, and the cap over the hint. */
  lemma HintWins(p: Policy, attempt: int, retryAfter: int, draw: Option<int -> int>)
    requires p.Valid() && retryAfter > 0
    ensures DelayOf(p, attempt, retryAfter, draw) == Min(retryAfter, p.maxDelay)
  {
  }
}
