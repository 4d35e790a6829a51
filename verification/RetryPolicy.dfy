/** Limits and back-off shared by the job queue and the outbox. Instants and durations are
    integers in microseconds. */
module RetryPolicy {
  import opened Numbers

  const SECOND := 1_000_000
  const MIN_LEASE := SECOND
  const MAX_LEASE := 3600 * SECOND
  const MAX_ATTEMPTS := 100
  const MAX_RETRY_DELAY := 24 * 3600 * SECOND

  predicate LeaseOk(lease: int) {
    MIN_LEASE <= lease <= MAX_LEASE
  }

  predicate PolicyOk(base: int, cap: int) {
    0 < base <= cap <= MAX_RETRY_DELAY
  }

  /** The base is positive, the cap no less than the base and no more than a day. */
  lemma PolicyLimits(base: int, cap: int)
    ensures PolicyOk(base, cap) <==> 0 < base && base <= cap && cap <= 86_400_000_000
  {
  }

  predicate EnqueueOk(kind: string, key: string, maxAttempts: int) {
    && 0 < |kind| <= 100
    && 0 < |key| <= 255
    && 1 <= maxAttempts <= MAX_ATTEMPTS
  }

  function Exponent(attempt: int): nat {
    Min(if attempt <= 1 then 0 else attempt - 1, 30)
  }

  function RetryDelay(attempt: int, base: int, cap: int): int {
    Min(base * Pow2(Exponent(attempt)), cap)
  }

  lemma {:induction false} Pow2Monotone(m: nat, n: nat)
    requires m <= n
    ensures Pow2(m) <= Pow2(n)
  {
    if m < n {
      Pow2Monotone(m, n - 1);
    }
  }

  lemma ScalingKeepsOrder(base: int, p: int, q: int)
    requires 0 < base && p <= q
    ensures base * p <= base * q
  {
  }

  /** A later attempt never waits less, and every wait stays between the base and the cap. */
  lemma RetryDelayGrowsWithinBounds(a: int, b: int, base: int, cap: int)
    requires PolicyOk(base, cap) && a <= b
    ensures base <= RetryDelay(a, base, cap) <= RetryDelay(b, base, cap) <= cap
  {
    Pow2Monotone(Exponent(a), Exponent(b));
    ScalingKeepsOrder(base, 1, Pow2(Exponent(a)));
    ScalingKeepsOrder(base, Pow2(Exponent(a)), Pow2(Exponent(b)));
  }

  /** The first retry waits the base, and beyond the exponent bound the wait no longer changes. */
  lemma RetryDelayStartsAndEnds(a: int, base: int, cap: int)
    requires PolicyOk(base, cap)
    ensures a <= 1 ==> RetryDelay(a, base, cap) == base
    ensures 31 <= a ==> RetryDelay(a, base, cap) == RetryDelay(31, base, cap)
  {
  }

  lemma Twice(base: int, p: int)
    ensures base * (2 * p) == 2 * (base * p)
  {
  }

  /** Until the cap or the exponent bound is hit, each attempt doubles the wait. */
  lemma RetryDelayDoubles(a: int, base: int, cap: int)
    requires PolicyOk(base, cap) && 1 <= a <= 30
    ensures var d := RetryDelay(a, base, cap);
            RetryDelay(a + 1, base, cap) == if 2 * d <= cap then 2 * d else cap
  {
    assert Exponent(a + 1) == Exponent(a) + 1;
    Twice(base, Pow2(Exponent(a)));
  }
}
