/** Rounds of publishes: how many a batch needs with a bounded number of permits, and when they are over. */
module PublishPool {
  import opened Types

  /** ceil(n / permits): the rounds n tasks need. */
  function Ceil(n: nat, permits: nat): nat
    requires 1 <= permits
  {
    if n == 0 then 0 else if n <= permits then 1 else 1 + Ceil(n - permits, permits)
  }

  lemma {:induction false} CeilIsCeiling(n: nat, permits: nat)
    requires 1 <= permits
    ensures n <= Ceil(n, permits) * permits < n + permits
  {
    if n > permits {
      CeilIsCeiling(n - permits, permits);
      var k := Ceil(n - permits, permits);
      assert (k + 1) * permits == k * permits + permits;
    }
  }

  lemma {:induction false} CeilMonotone(a: nat, b: nat, permits: nat)
    requires 1 <= permits && a <= b
    ensures Ceil(a, permits) <= Ceil(b, permits)
  {
    if permits < a {
      CeilMonotone(a - permits, b - permits, permits);
    }
  }

  /** `rounds` timeouts after `begin`. */
  function RoundEnd(begin: Time, timeout: Time, rounds: nat): Time {
    if rounds == 0 then begin else RoundEnd(begin, timeout, rounds - 1) + timeout
  }

  lemma {:induction false} RoundEndIs(begin: Time, timeout: Time, rounds: nat)
    ensures RoundEnd(begin, timeout, rounds) == begin + rounds as real * timeout
  {
    if rounds > 0 {
      RoundEndIs(begin, timeout, rounds - 1);
    }
  }

  lemma {:induction false} RoundEndMonotone(begin: Time, timeout: Time, a: nat, b: nat)
    requires 0.0 <= timeout && a <= b
    ensures RoundEnd(begin, timeout, a) <= RoundEnd(begin, timeout, b)
    decreases b
  {
    if a < b {
      RoundEndMonotone(begin, timeout, a, b - 1);
    }
  }

  lemma {:induction false} SubsetSize(a: set<nat>, b: set<nat>)
    requires a <= b
    ensures |a| <= |b|
  {
    if a != {} {
      var x :| x in a;
      SubsetSize(a - {x}, b - {x});
    }
  }
}
