/** How good the differencing method is, and the checked wrapper around it. */
module BalancedPartitions {
  import opened Arithmetic
  import opened Options
  import opened Seqs
  import opened Partitions
  import opened KarmarkarKarp
  import opened Differencing

  // ----- Approximation -----

  /**
   * `k` times the heaviest load exceeds the total by at most `k - 1` times the largest value, when no two loads are
   * further apart than that value.
   */
  lemma HeaviestBound(vals: seq<int>, k: nat, equalSize: bool, d: int, parts: seq<seq<nat>>, j: nat)
    requires vals != [] && Differenced(vals, k, equalSize, d, parts) && d <= Greatest(vals) && j < k
    ensures k * Load(vals, parts[j]) <= Total(vals) + (k - 1) * Greatest(vals)
  {
    hide Greatest, NonNegative, Load, Total, LoadSum, IsPartition;
    var top, g := Load(vals, parts[j]), Greatest(vals);
    forall i | 0 <= i < k ensures Load(vals, parts[i]) >= top - g {
      assert top - Load(vals, parts[i]) <= d;
    }
    LoadsAddUp(vals, parts);
    hide *;
    SumWithTop(vals, parts, j, top - g);
    Spread(k, top, g);
  }

  /** For non-negative values no two initial sums are further apart than the largest value. */
  lemma WidestNatural(vals: seq<int>, equalSize: bool)
    requires vals != [] && NonNegative(vals)
    ensures 0 <= Widest(vals, equalSize) <= Greatest(vals)
  {
    assert Least(vals) >= 0 && Least(vals) <= Greatest(vals);
  }

  lemma Spread(k: nat, top: int, g: int)
    requires k > 0
    ensures (k - 1) * (top - g) + top == k * top - (k - 1) * g
  {
  }

  lemma {:induction false} SumWithTop(vals: seq<int>, parts: seq<seq<nat>>, j: nat, least: int)
    requires j < |parts| && forall i :: 0 <= i < |parts| ==> Load(vals, parts[i]) >= least
    ensures LoadSum(vals, parts) >= (|parts| - 1) * least + Load(vals, parts[j])
    decreases |parts|
  {
    var front := parts[..|parts| - 1];
    if j == |front| {
      SumAtLeast(vals, front, least);
    } else {
      SumWithTop(vals, front, j, least);
      assert (|parts| - 1) * least == (|front| - 1) * least + least;
    }
  }

  /**
   * Against every other partition into `k` parts: if all its loads are at most `most`, then no load here exceeds
   * `(2k - 1) / k` times `most`.
   */
  lemma NearOptimal(vals: seq<int>, k: nat, equalSize: bool, d: int, parts: seq<seq<nat>>, j: nat,
                    other: seq<seq<nat>>, most: int)
    requires vals != [] && NonNegative(vals) && Differenced(vals, k, equalSize, d, parts) && d <= Greatest(vals) && j < k
    requires |other| == k && IsPartition(other, |vals|)
    requires forall i :: 0 <= i < k ==> Load(vals, other[i]) <= most
    ensures k * Load(vals, parts[j]) <= (2 * k - 1) * most
  {
    HeaviestBound(vals, k, equalSize, d, parts, j);
    LoadsAddUp(vals, other);
    SumAtMost(vals, other, most);
    LargestFits(vals, other, most);
    hide *;
    Combine(k, Load(vals, parts[j]), Total(vals), Greatest(vals), most);
  }

  lemma Combine(k: nat, top: int, total: int, g: int, most: int)
    requires k > 0 && k * top <= total + (k - 1) * g && total <= k * most && g <= most
    ensures k * top <= (2 * k - 1) * most
  {
    Monotone(g, most, k - 1);
    assert k * most + (k - 1) * most == (2 * k - 1) * most;
  }

  /** Every value fits in some part. */
  lemma LargestFits(vals: seq<int>, other: seq<seq<nat>>, most: int)
    requires vals != [] && NonNegative(vals) && IsPartition(other, |vals|)
    requires forall i :: 0 <= i < |other| ==> Load(vals, other[i]) <= most
    ensures Greatest(vals) <= most
  {
    var i :| 0 <= i < |vals| && vals[i] == Greatest(vals);
    var o := PartOf(other, |vals|, i);
    LoadAtLeastMember(vals, other[o], i);
  }

  // ----- The checked wrapper -----

  /** `sorted(partition)` */
  function InsertUp(x: nat, s: seq<nat>): seq<nat> {
    if s == [] then [x] else if x <= s[0] then [x] + s else [s[0]] + InsertUp(x, s[1..])
  }

  function SortUp(s: seq<nat>): seq<nat> {
    if s == [] then [] else InsertUp(s[0], SortUp(s[1..]))
  }

  ghost predicate Ascending(s: seq<nat>) {
    forall i, j :: 0 <= i < j < |s| ==> s[i] <= s[j]
  }

  lemma {:induction false} InsertUpPermutes(x: nat, s: seq<nat>)
    ensures multiset(InsertUp(x, s)) == multiset(s) + multiset{x}
  {
    if s != [] {
      assert s == [s[0]] + s[1..];
      InsertUpPermutes(x, s[1..]);
    }
  }

  lemma {:induction false} InsertUpMembers(x: nat, s: seq<nat>, y: nat)
    requires y in InsertUp(x, s)
    ensures y == x || y in s
  {
    if s != [] && x > s[0] && y != s[0] {
      InsertUpMembers(x, s[1..], y);
    }
  }

  lemma AscendingCons(x: nat, s: seq<nat>)
    requires Ascending(s) && forall j :: 0 <= j < |s| ==> x <= s[j]
    ensures Ascending([x] + s)
  {
  }

  lemma {:induction false} InsertUpSorts(x: nat, s: seq<nat>)
    requires Ascending(s)
    ensures Ascending(InsertUp(x, s))
  {
    if s == [] || x <= s[0] {
      AscendingCons(x, s);
    } else {
      var r := InsertUp(x, s[1..]);
      InsertUpSorts(x, s[1..]);
      forall j | 0 <= j < |r| ensures s[0] <= r[j] {
        InsertUpMembers(x, s[1..], r[j]);
      }
      hide Ascending;
      AscendingCons(s[0], r);
    }
  }

  lemma {:induction false} SortUpSorts(s: seq<nat>)
    ensures Ascending(SortUp(s)) && multiset(SortUp(s)) == multiset(s) && |SortUp(s)| == |s|
  {
    if s != [] {
      SortUpSorts(s[1..]);
      InsertUpSorts(s[0], SortUp(s[1..]));
      InsertUpPermutes(s[0], SortUp(s[1..]));
      assert s == [s[0]] + s[1..];
    }
    hide SortUp, Ascending;
    SameElements(SortUp(s), s);
  }

  lemma {:induction false} PartitionSorted(parts: seq<seq<nat>>, sorted: seq<seq<nat>>)
    requires |sorted| == |parts| && forall j :: 0 <= j < |parts| ==> multiset(sorted[j]) == multiset(parts[j])
    ensures multiset(Concat<nat>(sorted)) == multiset(Concat<nat>(parts))
    decreases |parts|
  {
    if parts != [] {
      PartitionSorted(parts[..|parts| - 1], sorted[..|parts| - 1]);
    }
  }

  /** What a caller of `get_seqlen_balanced_partitions` relies on. */
  ghost predicate Balanced(vals: seq<int>, k: nat, equalSize: bool, parts: seq<seq<nat>>) {
    && vals != [] && Differenced(vals, k, equalSize, Widest(vals, equalSize), parts)
    && forall j :: 0 <= j < k ==> parts[j] != [] && Ascending(parts[j])
  }

  /** Every part sorted. */
  function SortedParts(parts: seq<seq<nat>>): (r: seq<seq<nat>>)
    ensures |r| == |parts| && forall j :: 0 <= j < |parts| ==> r[j] == SortUp(parts[j])
  {
    seq(|parts|, j requires 0 <= j < |parts| => SortUp(parts[j]))
  }

  /** What is returned for non-negative values is near the best partition into `k` parts. */
  lemma BalancedNearOptimal(vals: seq<int>, k: nat, equalSize: bool, parts: seq<seq<nat>>, j: nat,
                            other: seq<seq<nat>>, most: int)
    requires NonNegative(vals) && Balanced(vals, k, equalSize, parts) && j < k
    requires |other| == k && IsPartition(other, |vals|)
    requires forall i :: 0 <= i < k ==> Load(vals, other[i]) <= most
    ensures j < |parts| && k * Load(vals, parts[j]) <= (2 * k - 1) * most
  {
    hide NonNegative, IsPartition, Load, Widest, Ascending, Differenced;
    WidestNatural(vals, equalSize);
    NearOptimal(vals, k, equalSize, Widest(vals, equalSize), parts, j, other, most);
    PartCount(vals, k, equalSize, Widest(vals, equalSize), parts);
  }

  lemma PartCount(vals: seq<int>, k: nat, equalSize: bool, d: int, parts: seq<seq<nat>>)
    requires Differenced(vals, k, equalSize, d, parts)
    ensures |parts| == k
  {
  }

  lemma SortingKeepsDifferenced(vals: seq<int>, k: nat, equalSize: bool, d: int, parts: seq<seq<nat>>)
    requires Differenced(vals, k, equalSize, d, parts)
    ensures Differenced(vals, k, equalSize, d, SortedParts(parts))
  {
    hide SortUp, Load, Indices, Concat;
    var sorted := SortedParts(parts);
    forall j | 0 <= j < k
      ensures multiset(sorted[j]) == multiset(parts[j]) && |sorted[j]| == |parts[j]|
      ensures Load(vals, sorted[j]) == Load(vals, parts[j])
    {
      SortUpSorts(parts[j]);
      LoadPermuted(vals, sorted[j], parts[j]);
    }
    PartitionSorted(parts, sorted);
  }

  /** The parts hold the indices below `n` and no others. */
  ghost predicate Covers(parts: seq<seq<nat>>, n: nat) {
    forall i: nat :: InSome(parts, |parts|, i) <==> i < n
  }

  lemma PartitionCovers(parts: seq<seq<nat>>, n: nat)
    requires IsPartition(parts, n)
    ensures Covers(parts, n)
  {
    forall i: nat ensures InSome(parts, |parts|, i) <==> i < n {
      if InSome(parts, |parts|, i) {
        var j :| 0 <= j < |parts| && i in parts[j];
        PartsInRange(parts, n, j, i);
      } else if i < n {
        var j := PartOf(parts, n, i);
      }
    }
  }

  lemma SeenAll(parts: seq<seq<nat>>, n: nat, seen: set<nat>)
    requires forall i: nat :: i in seen <==> InSome(parts, |parts|, i)
    ensures seen == (set i | i in Indices(n)) <==> Covers(parts, n)
  {
    forall i: nat ensures i in Indices(n) <==> i < n {
      InIndices(n, i);
    }
    hide Indices, InSome;
    if seen == (set i | i in Indices(n)) {
      forall i: nat ensures InSome(parts, |parts|, i) <==> i < n {
        assert i in seen <==> i in Indices(n);
      }
    }
  }

  ghost predicate InSome(parts: seq<seq<nat>>, n: nat, x: nat) {
    exists j :: 0 <= j < n && j < |parts| && x in parts[j]
  }

  lemma InSomeNext(parts: seq<seq<nat>>, n: nat, x: nat)
    requires n < |parts|
    ensures InSome(parts, n + 1, x) <==> InSome(parts, n, x) || x in parts[n]
  {
  }

  /** `_check_and_sort_partitions`, with `None` where it raises. */
  method CheckAndSort(parts: seq<seq<nat>>, k: nat, n: nat) returns (r: Option<seq<seq<nat>>>)
    ensures r.Some? <==> |parts| == k && (forall j :: 0 <= j < |parts| ==> parts[j] != []) && Covers(parts, n)
    ensures r.Some? ==> r.value == SortedParts(parts)
  {
    hide SortUp, InSome, Indices, Covers;
    r := None;
    if |parts| == k {
      var sorted: seq<seq<nat>>, seen: set<nat> := [], {};
      NothingSeen(parts);
      for i := 0 to |parts|
        invariant |sorted| == i
        invariant forall j :: 0 <= j < i ==> parts[j] != [] && sorted[j] == SortUp(parts[j])
        invariant forall x: nat :: x in seen <==> InSome(parts, i, x)
      {
        if parts[i] == [] {
          return;
        }
        forall x: nat ensures InSome(parts, i + 1, x) <==> InSome(parts, i, x) || x in parts[i] {
          InSomeNext(parts, i, x);
        }
        seen := seen + set x | x in parts[i];
        sorted := sorted + [SortUp(parts[i])];
      }
      SeenAll(parts, n, seen);
      if seen == set i | i in Indices(n) {
        r := Some(sorted);
      }
    }
  }

  lemma NothingSeen(parts: seq<seq<nat>>)
    ensures forall x :: !InSome(parts, 0, x)
  {
  }

  predicate Divisible(n: nat, k: nat, equalSize: bool) {
    n > 0 && k > 0 && (equalSize ==> n % k == 0)
  }

  /** What `get_seqlen_balanced_partitions` returns. */
  function BalancedParts(vals: seq<int>, k: nat, equalSize: bool): (r: seq<seq<nat>>)
    requires Divisible(|vals|, k, equalSize)
    ensures |r| == |Differences(vals, k, equalSize)|
    ensures forall j :: 0 <= j < |r| ==> r[j] == SortUp(Differences(vals, k, equalSize)[j])
  {
    SortedParts(Differences(vals, k, equalSize))
  }

  /** The parts are sorted, and near each other. */
  lemma BalancedPartsAre(vals: seq<int>, k: nat, equalSize: bool)
    requires Divisible(|vals|, k, equalSize)
    ensures Differenced(vals, k, equalSize, Widest(vals, equalSize), BalancedParts(vals, k, equalSize))
    ensures forall j :: 0 <= j < k ==> Ascending(BalancedParts(vals, k, equalSize)[j])
  {
    var parts := Differences(vals, k, equalSize);
    assert BalancedParts(vals, k, equalSize) == SortedParts(parts);
    hide *;
    DifferencesAre(vals, k, equalSize);
    InitialSpreadAtMost(vals, k, equalSize);
    Loosened(vals, k, equalSize, InitialSpread(vals, k, equalSize), Widest(vals, equalSize), parts);
    SortingKeepsDifferenced(vals, k, equalSize, Widest(vals, equalSize), parts);
    SortedAscend(parts, k);
  }

  /** For non-negative values and enough of them, nothing is missing for a balanced result. */
  lemma BalancedPartsBalance(vals: seq<int>, k: nat, equalSize: bool)
    requires Divisible(|vals|, k, equalSize) && NonNegative(vals) && k <= |vals|
    ensures Balanced(vals, k, equalSize, BalancedParts(vals, k, equalSize))
  {
    assert vals != [];
    hide *;
    var parts := BalancedParts(vals, k, equalSize);
    BalancedPartsAre(vals, k, equalSize);
    DifferencedCovers(vals, k, equalSize, Widest(vals, equalSize), parts);
    IsBalanced(vals, k, equalSize, parts);
  }

  lemma Loosened(vals: seq<int>, k: nat, equalSize: bool, d: int, e: int, parts: seq<seq<nat>>)
    requires Differenced(vals, k, equalSize, d, parts) && d <= e
    ensures Differenced(vals, k, equalSize, e, parts) && |parts| == k
  {
    hide Load, IsPartition, NonNegative;
  }

  lemma SortedAscend(parts: seq<seq<nat>>, k: nat)
    requires |parts| == k
    ensures forall j :: 0 <= j < k ==> Ascending(SortedParts(parts)[j]) && |SortedParts(parts)[j]| == |parts[j]|
  {
    forall j | 0 <= j < k ensures Ascending(SortedParts(parts)[j]) && |SortedParts(parts)[j]| == |parts[j]| {
      SortUpSorts(parts[j]);
    }
  }

  /**
   * `get_seqlen_balanced_partitions`, with `None` where it raises. For non-negative values only the two checks on
   * its arguments can fail: no partition is empty and every index is seen.
   */
  method GetSeqlenBalancedPartitions(vals: seq<int>, k: nat, equalSize: bool) returns (r: Option<seq<seq<nat>>>)
    ensures NonNegative(vals) ==> (r == None <==> |vals| < k || k == 0 || (equalSize && |vals| % k != 0))
    ensures r.Some? ==> Divisible(|vals|, k, equalSize) && r.value == BalancedParts(vals, k, equalSize)
    ensures r.Some? ==> Balanced(vals, k, equalSize, r.value)
  {
    if |vals| < k {
      return None;
    }
    var partitions := Partition(vals, k, equalSize);
    if partitions == None {
      return None;
    }
    var parts := partitions.value;
    DifferencesAre(vals, k, equalSize);
    BalancedPartsAre(vals, k, equalSize);
    assert BalancedParts(vals, k, equalSize) == SortedParts(parts);
    hide *;
    DifferencedCovers(vals, k, equalSize, InitialSpread(vals, k, equalSize), parts);
    r := CheckAndSort(parts, k, |vals|);
    if r.Some? {
      SortedAscend(parts, k);
      IsBalanced(vals, k, equalSize, r.value);
    }
  }

  lemma DifferencedCovers(vals: seq<int>, k: nat, equalSize: bool, d: int, parts: seq<seq<nat>>)
    requires Differenced(vals, k, equalSize, d, parts)
    ensures |parts| == k && Covers(parts, |vals|)
    ensures NonNegative(vals) && k <= |vals| ==> forall j :: 0 <= j < k ==> parts[j] != []
  {
    PartitionCovers(parts, |vals|);
  }

  lemma IsBalanced(vals: seq<int>, k: nat, equalSize: bool, parts: seq<seq<nat>>)
    requires vals != [] && Differenced(vals, k, equalSize, Widest(vals, equalSize), parts)
    requires forall j :: 0 <= j < k ==> j < |parts| && parts[j] != [] && Ascending(parts[j])
    ensures Balanced(vals, k, equalSize, parts)
  {
  }
}
