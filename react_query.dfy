/**
 * The query client's default options (src/lib/react-query.tsx): cache
 * timings, retry counts, and the exponential back-off between retries,
 * capped at thirty seconds.
 */
module ReactQuery {
  /** Milliseconds a query stays fresh (5 minutes). */
  const StaleTime := 5 * 60 * 1000
  /** Milliseconds an unused query stays cached (15 minutes). */
  const GcTime := 15 * 60 * 1000
  /** Retries of a failed query, and of a failed mutation. */
  const QueryRetries := 2
  const MutationRetries := 1
  /** The back-off's cap in milliseconds. */
  const MaxDelay := 30000

  /** `2 ** n` for a non-negative integer exponent. */
  function Pow2(n: nat): (p: nat)
    ensures p >= 1
  {
    if n == 0 then 1 else 2 * Pow2(n - 1)
  }

  /** `Math.min(1000 * 2 ** attemptIndex, 30000)` (lines 27-28). */
  function RetryDelay(attemptIndex: nat): (d: int)
    ensures 1000 <= d <= MaxDelay
    ensures d == MaxDelay || d == 1000 * Pow2(attemptIndex)
    ensures d <= 1000 * Pow2(attemptIndex)
  {
    if 1000 * Pow2(attemptIndex) < MaxDelay then 1000 * Pow2(attemptIndex) else MaxDelay
  }

  /** The exponent grows the power. */
  lemma {:induction false} Pow2Monotone(m: nat, n: nat)
    requires m <= n
    ensures Pow2(m) <= Pow2(n)
    decreases n - m
  {
    if m < n {
      Pow2Monotone(m, n - 1);
    }
  }

  /** The first retry waits one second, the second two, and from the sixth on the cap holds. */
  lemma {:induction false} DelaySchedule(n: nat)
    ensures RetryDelay(0) == 1000 && RetryDelay(1) == 2000
    ensures RetryDelay(4) == 16000
    ensures n >= 5 ==> RetryDelay(n) == MaxDelay
    ensures n < 5 ==> RetryDelay(n) < MaxDelay
  {
    assert Pow2(4) == 16 by {
      assert Pow2(1) == 2 && Pow2(2) == 4 && Pow2(3) == 8;
    }
    assert Pow2(5) == 32;
    if n >= 5 {
      Pow2Monotone(5, n);
    } else {
      Pow2Monotone(n, 4);
    }
  }

  /** The delay never shrinks from one attempt to the next. */
  lemma DelayMonotone(n: nat)
    ensures RetryDelay(n) <= RetryDelay(n + 1)
  {
    Pow2Monotone(n, n + 1);
  }

  /** Below the cap each retry waits twice as long as the one before. */
  lemma DelayDoublesBelowCap(n: nat)
    requires 1000 * Pow2(n + 1) < MaxDelay
    ensures RetryDelay(n + 1) == 2 * RetryDelay(n)
  {
  }

  /**
   * React Query's `retry: n` option: after its `failureCount`-th failure an
   * operation runs again iff fewer than `n` failures have occurred.
   */
  function Retried(failureCount: nat, retries: nat): (b: bool)
    requires failureCount >= 1
    ensures b <==> failureCount <= retries
  {
    failureCount < retries + 1
  }

  /** A failing query runs three times in all and a failing mutation twice. */
  lemma RetryCounts()
    ensures Retried(1, QueryRetries) && Retried(2, QueryRetries) && !Retried(3, QueryRetries)
    ensures Retried(1, MutationRetries) && !Retried(2, MutationRetries)
  {
  }

  /** With two retries a failing query waits three seconds in all before it fails. */
  lemma QueryBackoffTotal()
    ensures RetryDelay(0) + RetryDelay(QueryRetries - 1) == 3000
    ensures StaleTime < GcTime
  {
    DelaySchedule(0);
  }
}
