/** The exponential retry delay of durable operations, in seconds. */
module Backoff {
  import opened Domain

  const MIN_DELAY: int := 5
  const MAX_EXPONENTIAL_DELAY: int := 900
  const MAX_PROVIDER_DELAY: int := 3600
  const MAX_I64: int := 0x7fff_ffff_ffff_ffff

  function Pow2(n: nat): (r: nat)
    ensures r >= 1
  {
    if n == 0 then 1 else 2 * Pow2(n - 1)
  }

  function Min(a: int, b: int): int { if a <= b then a else b }

  function Max(a: int, b: int): int { if a >= b then a else b }

  /** `attempt` ranges over every i32; a negative exponent falls back to zero. */
  function RetryDelay(attempt: int): int {
    var exponent := Min(if attempt - 1 < 0 then 0 else attempt - 1, 8);
    Min(MIN_DELAY * Pow2(exponent), MAX_EXPONENTIAL_DELAY)
  }

  /** The provider's delay counts when it fits an i64, and is capped at one hour. */
  function ProviderDelay(error: IntegrationError): int {
    match error.RetryAfter()
    case None => 0
    case Some(seconds) => if seconds <= MAX_I64 then Min(seconds, MAX_PROVIDER_DELAY) else 0
  }

  function EffectiveRetryDelay(attempt: int, error: IntegrationError): int {
    Max(RetryDelay(attempt), ProviderDelay(error))
  }

  lemma {:induction false} Pow2Monotone(m: nat, n: nat)
    requires m <= n
    ensures Pow2(m) <= Pow2(n)
  {
    if m < n {
      Pow2Monotone(m, n - 1);
    }
  }

  /** Backing off longer never shortens the wait, and the wait stays within 5 s and 15 min. */
  lemma RetryDelayMonotone(a: int, b: int)
    requires a <= b
    ensures MIN_DELAY <= RetryDelay(a) <= RetryDelay(b) <= MAX_EXPONENTIAL_DELAY
  {
    var ea := Min(if a - 1 < 0 then 0 else a - 1, 8);
    var eb := Min(if b - 1 < 0 then 0 else b - 1, 8);
    Pow2Monotone(ea, eb);
  }

  /** The exact schedule: 5, 10, ..., 640 s doubling, then flat at 900 s from the ninth attempt. */
  lemma RetryDelaySchedule(attempt: int)
    ensures attempt <= 1 ==> RetryDelay(attempt) == 5
    ensures 2 <= attempt <= 8 ==> RetryDelay(attempt) == 2 * RetryDelay(attempt - 1)
    ensures attempt >= 9 <==> RetryDelay(attempt) == MAX_EXPONENTIAL_DELAY
  {
    assert Pow2(8) == 256 && Pow2(7) == 128 by {
      assert Pow2(4) == 16;
    }
    if attempt <= 8 {
      Pow2Monotone(Min(if attempt - 1 < 0 then 0 else attempt - 1, 8), 7);
    }
  }

  /** The delay is at least the exponential one, at most an hour, and grows with the attempt. */
  lemma EffectiveDelayBounds(a: int, b: int, error: IntegrationError)
    requires a <= b
    ensures RetryDelay(a) <= EffectiveRetryDelay(a, error)
    ensures MIN_DELAY <= EffectiveRetryDelay(a, error) <= EffectiveRetryDelay(b, error) <= MAX_PROVIDER_DELAY
  {
    RetryDelayMonotone(a, b);
  }

  /** Growing the provider's delay from `s` to `t` keeps the order exactly when `t` still fits an
      i64, or `s` was overruled by the exponential delay anyway. */
  lemma ProviderDelayMonotone(attempt: int, s: nat, t: nat)
    requires s <= t
    ensures EffectiveRetryDelay(attempt, RateLimited(Some(s))) <= EffectiveRetryDelay(attempt, RateLimited(Some(t)))
       <==> (t <= MAX_I64 || s > MAX_I64 || s <= RetryDelay(attempt))
  {
    RetryDelayMonotone(attempt, attempt);
  }
}
