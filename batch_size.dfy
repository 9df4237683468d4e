/** The adaptive upload batch size: halved on a limit-exceeded error,
    ramped up by a fixed step after a clean upload pass. */
module BatchSize {

  /** Apple's suggested number of records per upload operation. */
  const DefaultBatchSize: int := 400
  /** The additive step of the ramp-up. */
  const BatchSizeStep: int := 5

  /** `batchSize / 2` with Swift's integer division, which truncates toward zero. */
  function Halved(n: int): (r: int)
    ensures n >= 0 ==> 0 <= r && 2 * r <= n <= 2 * r + 1
    ensures n < 0 ==> r <= 0 && 2 * r - 1 <= n <= 2 * r
  {
    if n >= 0 then n / 2 else -((-n) / 2)
  }

  /** The batch size after one clean upload pass. */
  function Increased(n: int): int
  {
    if n < DefaultBatchSize then n + BatchSizeStep else n
  }

  /** The batch size after `k` clean upload passes in a row. */
  function IncreasedTimes(n: int, k: nat): int
  {
    if k == 0 then n else Increased(IncreasedTimes(n, k - 1))
  }

  /** The batch size after `k` limit-exceeded errors in a row. */
  function HalvedTimes(n: int, k: nat): int
  {
    if k == 0 then n else Halved(HalvedTimes(n, k - 1))
  }

  function Pow2(k: nat): (p: nat)
    ensures p >= 1
  {
    if k == 0 then 1 else 2 * Pow2(k - 1)
  }

  /** However many clean passes follow, the ramp never overshoots the default
      by a whole step, and a size already above the default stays put. */
  lemma {:induction false} RampNeverOvershoots(n: int, k: nat)
    ensures IncreasedTimes(n, k) <= if n < DefaultBatchSize then DefaultBatchSize + BatchSizeStep - 1 else n
  {
    if n >= DefaultBatchSize {
      RampFixedAtOrAboveDefault(n, k);
    } else if k > 0 {
      RampNeverOvershoots(n, k - 1);
    }
  }

  /** A size at or above the default never grows. */
  lemma {:induction false} RampFixedAtOrAboveDefault(n: int, k: nat)
    requires n >= DefaultBatchSize
    ensures IncreasedTimes(n, k) == n
  {
    if k > 0 {
      RampFixedAtOrAboveDefault(n, k - 1);
    }
  }

  /** The ramp is monotone and climbs by the full step until it reaches the default. */
  lemma {:induction false} RampProgress(n: int, k: nat)
    ensures IncreasedTimes(n, k) >= n
    ensures IncreasedTimes(n, k) >= DefaultBatchSize || IncreasedTimes(n, k) == n + BatchSizeStep * k
  {
    if k > 0 {
      RampProgress(n, k - 1);
    }
  }

  /** `k` halvings of a non-negative size leave at most `n / 2^k`, never below zero. */
  lemma {:induction false} RepeatedHalvingBound(n: int, k: nat)
    requires n >= 0
    ensures 0 <= HalvedTimes(n, k) && HalvedTimes(n, k) * Pow2(k) <= n
  {
    if k > 0 {
      RepeatedHalvingBound(n, k - 1);
      var m := HalvedTimes(n, k - 1);
      var h, p := Halved(m), Pow2(k - 1);
      assert HalvedTimes(n, k) == h && Pow2(k) == 2 * p;
      assert h * (2 * p) == (2 * h) * p;
      MulMonotone(2 * h, m, p);
    }
  }

  lemma MulMonotone(a: int, b: int, c: nat)
    requires a <= b
    ensures a * c <= b * c
  {
  }
}
