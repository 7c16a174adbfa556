/** Identifiers and small datatypes shared by every part of the payments pipeline. */
module Types {

  datatype Option<+T> = None | Some(value: T)

  datatype Result<+T, +E> = Ok(value: T) | Err(error: E)

  /** Seconds on the service's clock. */
  type Time = real

  /** What a datetime can hold: a whole number of microseconds. */
  type Instant = t: Time | (t * 1000000.0).Floor as real == t * 1000000.0

  /** UUIDs are opaque values with equality and order; only their identity matters here. */
  type MessageId = nat
  type PaymentId = nat
  type WorkerId = nat

  /** The broker message produced by one publish: the outbox message and the claim number of that publish. */
  datatype CopyId = CopyId(message: MessageId, attempt: nat)

  /** One run of the process handler: the copy it was started for, and the how-manieth run of that copy it is. */
  datatype RunId = RunId(copy: CopyId, run: nat)

  function Min(a: real, b: real): real {
    if a <= b then a else b
  }
}

/** Finite sums over sets, used by the counting arguments. */
module Sums {

  ghost function Sum<T(!new)>(s: set<T>, f: T -> nat): (total: nat)
  {
    if s == {} then 0 else var x :| x in s; f(x) + Sum(s - {x}, f)
  }

  lemma {:induction false} SumSplit<T(!new)>(s: set<T>, x: T, f: T -> nat)
    requires x in s
    ensures Sum(s, f) == f(x) + Sum(s - {x}, f)
  {
    var y :| y in s && Sum(s, f) == f(y) + Sum(s - {y}, f);
    if y != x {
      SumSplit(s - {y}, x, f);
      SumSplit(s - {x}, y, f);
      assert s - {y} - {x} == s - {x} - {y};
    }
  }

  lemma {:induction false} SumMonotone<T(!new)>(s: set<T>, f: T -> nat, g: T -> nat)
    requires forall x | x in s :: f(x) <= g(x)
    ensures Sum(s, f) <= Sum(s, g)
  {
    if s != {} {
      var x :| x in s && Sum(s, f) == f(x) + Sum(s - {x}, f);
      SumSplit(s, x, g);
      SumMonotone(s - {x}, f, g);
    }
  }

  /** Raising f by one on every element of a subset raises the sum by at least the size of the subset. */
  lemma {:induction false} SumRaised<T(!new)>(s: set<T>, raised: set<T>, f: T -> nat, g: T -> nat)
    requires raised <= s
    requires forall x | x in s :: f(x) <= g(x)
    requires forall x | x in raised :: f(x) + 1 <= g(x)
    ensures Sum(s, f) + |raised| <= Sum(s, g)
    decreases |raised|
  {
    if raised == {} {
      SumMonotone(s, f, g);
    } else {
      var x :| x in raised;
      SumSplit(s, x, f);
      SumSplit(s, x, g);
      SumRaised(s - {x}, raised - {x}, f, g);
    }
  }

  /** Where two functions agree outside a subset, their sums differ as much over the subset as over the whole. */
  lemma {:induction false} SumDiffersOn<T(!new)>(s: set<T>, part: set<T>, f: T -> nat, g: T -> nat)
    requires part <= s && forall x | x in s - part :: f(x) == g(x)
    ensures Sum(s, g) - Sum(s, f) == Sum(part, g) - Sum(part, f)
  {
    if x :| x in s && x !in part {
      SumSplit(s, x, f);
      SumSplit(s, x, g);
      SumDiffersOn(s - {x}, part, f, g);
    } else {
      assert s == part;
    }
  }

  lemma OneMoreTimes(n: nat, bound: nat)
    ensures (n + 1) * bound == n * bound + bound
  {
  }

  lemma {:induction false} SumBounded<T(!new)>(s: set<T>, f: T -> nat, bound: nat)
    requires forall x | x in s :: f(x) <= bound
    ensures Sum(s, f) <= |s| * bound
  {
    if s != {} {
      var x :| x in s && Sum(s, f) == f(x) + Sum(s - {x}, f);
      SumBounded(s - {x}, f, bound);
      OneMoreTimes(|s - {x}|, bound);
    }
  }
}
