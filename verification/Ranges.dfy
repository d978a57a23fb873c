/** Counting the integers of a range. */
module Ranges {
  lemma {:induction false} RangeSize(s: set<int>, lo: int, n: nat)
    requires forall x :: x in s ==> lo <= x < lo + n
    ensures |s| <= n
  {
    if n == 0 {
      assert forall x :: x !in s;
      assert s == {};
    } else {
      RangeSize(s - {lo + n - 1}, lo, n - 1);
    }
  }

  lemma {:induction false} RangeInside(s: set<int>, lo: int, n: nat)
    requires forall x :: lo <= x < lo + n ==> x in s
    ensures |s| >= n
  {
    if n > 0 {
      RangeInside(s - {lo + n - 1}, lo, n - 1);
    }
  }
}
