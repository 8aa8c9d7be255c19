/** Exponential backoff with jitter (src/utils/retry.ts), given its random draw. */
module Backoff {
  import opened Options

  function Pow2(n: nat): (p: nat)
    ensures p >= 1
  {
    if n == 0 then 1 else 2 * Pow2(n - 1)
  }

  /** `Math.round`: halves go up. */
  function Round(x: real): int {
    (x + 0.5).Floor
  }

  function Min(a: int, b: int): int {
    if a <= b then a else b
  }

  function Max(a: int, b: int): int {
    if a >= b then a else b
  }

  /** The delay before jitter: doubled each time and capped. */
  function Exponential(attempt: nat, baseDelayMs: nat, maxDelayMs: nat): nat
    requires attempt >= 1
  {
    Min(baseDelayMs * Pow2(attempt - 1), maxDelayMs)
  }

  /** Up to a quarter of the delay either way. */
  function Jitter(exponential: real, random: Draw): (j: real)
    requires exponential >= 0.0
    ensures -0.25 * exponential <= j <= 0.25 * exponential
  {
    JitterStaysWithinAQuarter(exponential, random);
    (random * 2.0 - 1.0) * exponential * 0.25
  }

  lemma JitterStaysWithinAQuarter(exponential: real, random: Draw)
    requires exponential >= 0.0
    ensures -0.25 * exponential <= (random * 2.0 - 1.0) * exponential * 0.25 <= 0.25 * exponential
  {
    var swing := random * 2.0 - 1.0;
    assert (swing + 1.0) * exponential >= 0.0;
    assert (1.0 - swing) * exponential >= 0.0;
  }

  /** Clamped after the jitter, so the ceiling holds for the delay actually used. */
  function Clamped(delay: real, maxDelayMs: nat): (d: nat)
    ensures d <= maxDelayMs
    ensures delay <= maxDelayMs as real ==> d as real >= delay - 0.5
    ensures delay >= 0.0 ==> d as real <= delay + 0.5
  {
    Min(maxDelayMs, Max(0, Round(delay)))
  }

  function ComputeBackoffMs(attempt: nat, baseDelayMs: nat, maxDelayMs: nat, random: Draw): nat
    requires attempt >= 1
  {
    var exponential := Exponential(attempt, baseDelayMs, maxDelayMs) as real;
    Clamped(exponential + Jitter(exponential, random), maxDelayMs)
  }

  /** Whatever the draw, the delay stays within a quarter of the exponential one and below the ceiling. */
  lemma BackoffStaysInBand(attempt: nat, baseDelayMs: nat, maxDelayMs: nat, random: Draw)
    requires attempt >= 1
    ensures var d := ComputeBackoffMs(attempt, baseDelayMs, maxDelayMs, random);
            var e := Exponential(attempt, baseDelayMs, maxDelayMs) as real;
            && d <= maxDelayMs
            && 0.75 * e - 0.5 <= d as real <= 1.25 * e + 0.5
  {
    var e := Exponential(attempt, baseDelayMs, maxDelayMs) as real;
    var j := Jitter(e, random);
    if e + j > maxDelayMs as real {
      assert Round(e + j) >= maxDelayMs;
    }
  }

  lemma {:induction false} DoublingOnlyGrows(attempt: nat, baseDelayMs: nat)
    requires attempt >= 1
    ensures baseDelayMs * Pow2(attempt - 1) >= baseDelayMs
  {
  }

  /** No delay falls below three quarters of the base delay (a base that is a multiple of four). */
  lemma BackoffIsAtLeastThreeQuartersOfBase(attempt: nat, quarter: nat, maxDelayMs: nat, random: Draw)
    requires attempt >= 1 && 4 * quarter <= maxDelayMs
    ensures ComputeBackoffMs(attempt, 4 * quarter, maxDelayMs, random) >= 3 * quarter
  {
    BackoffStaysInBand(attempt, 4 * quarter, maxDelayMs, random);
    DoublingOnlyGrows(attempt, 4 * quarter);
  }

  /** The delay before jitter, by itself alone: the base, doubled from one attempt to the next, under the ceiling. */
  lemma ExponentialDoubles(attempt: nat, baseDelayMs: nat, maxDelayMs: nat)
    requires attempt >= 1
    ensures Exponential(1, baseDelayMs, maxDelayMs) == if baseDelayMs <= maxDelayMs then baseDelayMs else maxDelayMs
    ensures var next := 2 * Exponential(attempt, baseDelayMs, maxDelayMs);
            Exponential(attempt + 1, baseDelayMs, maxDelayMs) == if next <= maxDelayMs then next else maxDelayMs
  {
    var p := Pow2(attempt - 1);
    assert Pow2(attempt) == 2 * p;
    assert baseDelayMs * Pow2(attempt) == 2 * (baseDelayMs * p);
  }

  /** The draw spreads the delay evenly over the half of it that the band is wide. */
  lemma JitterSpreadsEvenly(exponential: real, random: Draw)
    requires exponential >= 0.0
    ensures Jitter(exponential, 0.0) == -0.25 * exponential
    ensures Jitter(exponential, random) - Jitter(exponential, 0.0) == random * (0.5 * exponential)
  {
    assert (random * 2.0 - 1.0) * exponential == random * (2.0 * exponential) - exponential;
  }
}
