/** The reconnect interval of the atbus connector. */
module Backoff {
  import opened Common

  /** The interval after n earlier tries: start at first, then doubled per try up to max. */
  function Interval(start: nat, max: nat, n: nat): nat {
    if n == 0 then start else Min(start * Pow2(n), max)
  }

  lemma IntervalByDoubling(start: nat, max: nat, n: nat)
    ensures Interval(start, max, n) == if n == 0 then start else Min(Doubled(start, n), max)
  {
    DoubledIsProduct(start, n);
  }

  /** The doubling loop. highest is the largest value the running interval ever took: the
      loop never computes more than twice the larger of the two configured intervals. */
  method Compute(start: nat, max: nat, tries: nat) returns (cur: nat, ghost highest: nat)
    requires start > 0 && max > 0
    ensures cur == Interval(start, max, tries)
    ensures cur <= highest <= 2 * Max(start, max)
  {
    IntervalByDoubling(start, max, tries);
    cur, highest := start, start;
    var left := tries;
    while left > 0
      invariant 0 <= left <= tries
      invariant cur == Doubled(start, tries - left)
      invariant left < tries ==> cur < max
      invariant cur <= highest <= 2 * Max(start, max)
    {
      cur := cur * 2;
      highest := Max(highest, cur);
      if cur >= max {
        DoubledGrows(start, tries - left + 1, tries);
        cur := max;
        return;
      }
      left := left - 1;
    }
  }

  /** Waiting never gets shorter with more tries once the first has been made, and is bounded. */
  lemma IntervalGrows(start: nat, max: nat, m: nat, n: nat)
    requires 0 < m <= n
    ensures Interval(start, max, m) <= Interval(start, max, n) <= max
  {
    DoubledGrows(start, m, n);
    DoubledIsProduct(start, m);
    DoubledIsProduct(start, n);
  }
}
