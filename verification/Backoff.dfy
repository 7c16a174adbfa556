/** `OutboxWorker._next_retry_at`: exponential backoff with a cap and multiplicative jitter. */
module Backoff {
  import opened Types

  datatype Policy = Policy(maxAttempts: nat, baseDelay: Time, maxDelay: Time, jitter: real)

  ghost predicate ValidPolicy(p: Policy) {
    1 <= p.maxAttempts && 0.0 <= p.baseDelay && 0.0 <= p.maxDelay && 0.0 <= p.jitter
  }

  function Pow2(n: nat): nat {
    if n == 0 then 1 else 2 * Pow2(n - 1)
  }

  /** The delay before jitter after the failure of attempt number `attempts`. */
  function Delay(p: Policy, attempts: nat): Time
    requires 1 <= attempts
  {
    Min(p.baseDelay * Pow2(attempts - 1) as real, p.maxDelay)
  }

  /** `factor` is the value of random.uniform(1.0, 1.0 + jitter). */
  predicate ValidFactor(p: Policy, factor: real) {
    1.0 <= factor <= 1.0 + p.jitter
  }

  function NextRetryAt(p: Policy, attempts: nat, now: Time, factor: real): Option<Time>
    requires 1 <= attempts
  {
    if attempts >= p.maxAttempts then None else Some(now + Delay(p, attempts) * factor)
  }

  lemma Scale(x: real, y: real, f: real)
    requires x <= y && 0.0 <= f
    ensures x * f <= y * f
  {
    assert 0.0 <= (y - x) * f;
    assert (y - x) * f == y * f - x * f;
  }

  lemma Pow2Positive(n: nat)
    ensures 1 <= Pow2(n)
  {
  }

  lemma DelayNonNegative(p: Policy, attempts: nat)
    requires ValidPolicy(p) && 1 <= attempts
    ensures 0.0 <= Delay(p, attempts)
  {
    Pow2Positive(attempts - 1);
    Scale(0.0, p.baseDelay, Pow2(attempts - 1) as real);
  }

  /** A retry is never scheduled earlier than the un-jittered delay, and at most (1 + jitter) times it. */
  lemma RetryWindow(p: Policy, attempts: nat, now: Time, factor: real)
    requires ValidPolicy(p) && 1 <= attempts && ValidFactor(p, factor)
    ensures var retry := NextRetryAt(p, attempts, now, factor);
            && (retry.None? <==> attempts >= p.maxAttempts)
            && (retry.Some? ==> now + Delay(p, attempts) <= retry.value <= now + Delay(p, attempts) * (1.0 + p.jitter))
  {
    DelayNonNegative(p, attempts);
    var d := Delay(p, attempts);
    Scale(1.0, factor, d);
    Scale(factor, 1.0 + p.jitter, d);
    assert factor * d == d * factor && (1.0 + p.jitter) * d == d * (1.0 + p.jitter);
  }

  /** The base delay after it has doubled n times. */
  function Doubled(base: Time, n: nat): Time {
    if n == 0 then base else 2.0 * Doubled(base, n - 1)
  }

  lemma {:induction false} DoubledIsPower(base: Time, n: nat)
    ensures Doubled(base, n) == base * Pow2(n) as real
  {
    if n > 0 {
      DoubledIsPower(base, n - 1);
      assert base * (2.0 * Pow2(n - 1) as real) == 2.0 * (base * Pow2(n - 1) as real);
    }
  }

  /** The first retry comes after the base delay, every further one after twice the delay before it, up to the cap;
      the jitter stretches what comes out of that, and the last attempt has no retry. */
  lemma RetryDoubles(p: Policy, attempts: nat, now: Time, factor: real)
    requires 1 <= attempts
    ensures var retry, delay := NextRetryAt(p, attempts, now, factor), Doubled(p.baseDelay, attempts - 1);
            && (retry.None? <==> attempts >= p.maxAttempts)
            && (retry.Some? ==> retry.value == now + (if delay <= p.maxDelay then delay else p.maxDelay) * factor)
  {
    var delay := Doubled(p.baseDelay, attempts - 1);
    DoubledIsPower(p.baseDelay, attempts - 1);
    assert Delay(p, attempts) == if delay <= p.maxDelay then delay else p.maxDelay;
  }

  /** With the shipped settings (5 attempts, base 1 s, cap 60 s, no jitter) retries come 1, 2, 4 and 8 s later. */
  lemma ShippedRetries(now: Time)
    ensures var p := Policy(5, 1.0, 60.0, 0.0);
            && NextRetryAt(p, 1, now, 1.0) == Some(now + 1.0)
            && NextRetryAt(p, 2, now, 1.0) == Some(now + 2.0)
            && NextRetryAt(p, 3, now, 1.0) == Some(now + 4.0)
            && NextRetryAt(p, 4, now, 1.0) == Some(now + 8.0)
            && NextRetryAt(p, 5, now, 1.0) == None
  {
    assert Pow2(0) == 1 && Pow2(1) == 2 && Pow2(2) == 4 && Pow2(3) == 8;
  }

  /** Delays double until the cap stops them, and never shrink. */
  lemma DelayDoubles(p: Policy, attempts: nat)
    requires ValidPolicy(p) && 1 <= attempts
    ensures Delay(p, attempts + 1) == Min(2.0 * Delay(p, attempts), p.maxDelay)
    ensures Delay(p, attempts) <= Delay(p, attempts + 1)
  {
    DelayNonNegative(p, attempts);
    var f := Pow2(attempts - 1) as real;
    assert Pow2(attempts) as real == 2.0 * f;
    assert p.baseDelay * (2.0 * f) == 2.0 * (p.baseDelay * f);
  }

  /** OUTBOX_RETRY_MAX_DELAY caps the delay before jitter only: every jittered delay respects the cap
      if and only if the longest jitter does. */
  lemma CapHoldsExactlyWhen(p: Policy, attempts: nat)
    requires ValidPolicy(p) && 1 <= attempts < p.maxAttempts
    ensures (forall factor | ValidFactor(p, factor) :: NextRetryAt(p, attempts, 0.0, factor).value <= p.maxDelay)
       <==> Delay(p, attempts) * (1.0 + p.jitter) <= p.maxDelay
  {
    if Delay(p, attempts) * (1.0 + p.jitter) <= p.maxDelay {
      forall factor | ValidFactor(p, factor)
        ensures NextRetryAt(p, attempts, 0.0, factor).value <= p.maxDelay
      {
        RetryWindow(p, attempts, 0.0, factor);
      }
    } else {
      assert ValidFactor(p, 1.0 + p.jitter);
    }
  }

  /** With any jitter at all there are settings and a draw under which a retry is put off beyond the cap. */
  lemma JitterExceedsTheCap(maxAttempts: nat, cap: Time, jitter: real)
    requires 2 <= maxAttempts && 0.0 < cap && 0.0 < jitter
    ensures var p, factor := Policy(maxAttempts, cap, cap, jitter), 1.0 + jitter;
            ValidPolicy(p) && ValidFactor(p, factor)
            && NextRetryAt(p, 1, 0.0, factor).Some? && NextRetryAt(p, 1, 0.0, factor).value > p.maxDelay
  {
    assert Pow2(0) == 1 && cap * 1.0 == cap;
    assert cap * (1.0 + jitter) == cap + cap * jitter;
    assert 0.0 < cap * jitter;
  }
}
