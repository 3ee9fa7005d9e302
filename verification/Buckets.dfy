/**
 Token buckets: what a bucket lets through in a stretch of time is bounded by its capacity and
 what flows in meanwhile.
 */
module Buckets {

  function Min(a: real, b: real): real {
    if a <= b then a else b
  }

  /** One look at a bucket: its level before and after, and whether a token was taken. */
  datatype Sample = Sample(time: real, before: real, after: real, ok: bool)

  /** The level stays between zero and the capacity, and a token taken is gone. */
  predicate Fits(s: Sample, capacity: real) {
    && 0.0 <= s.after && s.before <= capacity
    && s.after <= s.before - (if s.ok then 1.0 else 0.0)
  }

  /** Between two looks no more flows in than the rate allows. */
  predicate Follows(s: Sample, next: Sample, rate: real) {
    next.before <= s.after + rate * (next.time - s.time)
  }

  ghost predicate Metered(samples: seq<Sample>, capacity: real, rate: real) {
    && (forall i :: 0 <= i < |samples| ==> Fits(samples[i], capacity))
    && (forall i :: 0 < i < |samples| ==> Follows(samples[i - 1], samples[i], rate))
  }

  /** Tokens taken in the looks from i to before j. */
  function Taken(samples: seq<Sample>, i: nat, j: nat): (n: nat)
    requires i <= j <= |samples|
  {
    if i == j then 0 else Taken(samples, i, j - 1) + if samples[j - 1].ok then 1 else 0
  }

  /** A full bucket and what flows in from one time to another. */
  function Allowance(capacity: real, rate: real, first: real, last: real): real {
    capacity + rate * (last - first)
  }

  lemma AllowanceGrows(capacity: real, rate: real, first: real, middle: real, last: real)
    ensures Allowance(capacity, rate, first, last) == Allowance(capacity, rate, first, middle) + rate * (last - middle)
    ensures Allowance(capacity, rate, first, first) == capacity
  {
    var a, b := middle - first, last - middle;
    assert last - first == a + b;
    assert rate * (a + b) == rate * a + rate * b;
  }

  lemma {:induction false} WindowLevel(samples: seq<Sample>, capacity: real, rate: real, i: nat, j: nat)
    requires Metered(samples, capacity, rate) && i < j <= |samples|
    ensures Taken(samples, i, j) as real + samples[j - 1].after
         <= Allowance(capacity, rate, samples[i].time, samples[j - 1].time)
    decreases j
  {
    if i + 1 == j {
      assert Fits(samples[i], capacity);
      AllowanceGrows(capacity, rate, samples[i].time, samples[i].time, samples[i].time);
    } else {
      WindowLevel(samples, capacity, rate, i, j - 1);
      assert Fits(samples[j - 1], capacity) && Follows(samples[j - 2], samples[j - 1], rate);
      LevelStep(samples[j - 2], samples[j - 1], capacity, rate, samples[i].time, Taken(samples, i, j - 1));
    }
  }

  lemma LevelStep(s: Sample, next: Sample, capacity: real, rate: real, first: real, n: nat)
    requires Fits(next, capacity) && Follows(s, next, rate)
    requires n as real + s.after <= Allowance(capacity, rate, first, s.time)
    ensures (n + if next.ok then 1 else 0) as real + next.after <= Allowance(capacity, rate, first, next.time)
  {
    AllowanceGrows(capacity, rate, first, s.time, next.time);
    OneMore(n, s.after, rate * (next.time - s.time), Allowance(capacity, rate, first, s.time), next);
  }

  lemma OneMore(n: nat, level: real, inflow: real, allowance: real, next: Sample)
    requires n as real + level <= allowance
    requires next.before <= level + inflow && next.after <= next.before - (if next.ok then 1.0 else 0.0)
    ensures (n + if next.ok then 1 else 0) as real + next.after <= allowance + inflow
  {
  }

  /** Over any window at most the capacity and the inflow are taken. */
  lemma WindowBound(samples: seq<Sample>, capacity: real, rate: real, i: nat, j: nat, first: real, last: real)
    requires Metered(samples, capacity, rate) && i < j <= |samples|
    requires samples[i].time == first && samples[j - 1].time == last
    ensures Taken(samples, i, j) as real <= Allowance(capacity, rate, first, last)
  {
    WindowLevel(samples, capacity, rate, i, j);
  }
}
