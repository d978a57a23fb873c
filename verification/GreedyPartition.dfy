/** The greedy partitioner, and the bias that makes it count items before it compares sums. */
module GreedyPartition {
  import opened Options
  import opened Seqs
  import opened Partitions

  /** With a bias above every true sum, biased sums compare like pairs (number of items, true sum). */
  lemma BiasComparesCounts(bias: int, n: nat, a: int, m: nat, b: int)
    requires 0 <= a < bias && 0 <= b < bias
    ensures a + n * bias < b + m * bias <==> n < m || (n == m && a < b)
  {
    if n < m {
      BiasGap(bias, n, m);
    } else if m < n {
      BiasGap(bias, m, n);
    }
  }

  lemma BiasGap(bias: int, n: nat, m: nat)
    requires n < m && bias >= 0
    ensures n * bias + bias <= m * bias
  {
    assert m * bias == n * bias + (m - n) * bias;
    assert (m - n) * bias == bias + (m - n - 1) * bias;
  }

  lemma LoadAppend(vals: seq<int>, part: seq<nat>, i: nat)
    ensures Load(vals, part + [i]) == Load(vals, part) + Value(vals, i)
  {
    LoadPlus(vals, part, [i]);
  }

  lemma {:induction false} PartAtMostSum(vals: seq<int>, parts: seq<seq<nat>>, j: nat)
    requires NonNegative(vals) && j < |parts|
    ensures 0 <= Load(vals, parts[j]) <= LoadSum(vals, parts)
    decreases |parts|
  {
    var front := parts[..|parts| - 1];
    LoadNonNegative(vals, parts[|front|]);
    LoadSumNatural(vals, front);
    if j < |front| {
      PartAtMostSum(vals, front, j);
    }
  }

  lemma {:induction false} LoadSumNatural(vals: seq<int>, parts: seq<seq<nat>>)
    requires NonNegative(vals)
    ensures LoadSum(vals, parts) >= 0
    decreases |parts|
  {
    if parts != [] {
      LoadSumNatural(vals, parts[..|parts| - 1]);
      LoadNonNegative(vals, parts[|parts| - 1]);
    }
  }

  lemma {:induction false} TotalGrows(vals: seq<int>, i: nat)
    requires NonNegative(vals) && i <= |vals|
    ensures Total(vals[..i]) <= Total(vals)
    decreases |vals|
  {
    if i < |vals| {
      TotalGrows(vals[..|vals| - 1], i);
      assert vals[..|vals| - 1][..i] == vals[..i];
    } else {
      assert vals[..i] == vals;
    }
  }

  /** The load of a part after the first `i` items. */
  lemma RunningLoad(vals: seq<int>, parts: seq<seq<nat>>, i: nat, j: nat)
    requires NonNegative(vals) && i <= |vals| && IsPartition(parts, i) && j < |parts|
    ensures 0 <= Load(vals, parts[j]) <= Total(vals)
  {
    LoadSumIsConcat(vals, parts);
    LoadPermuted(vals, Concat<nat>(parts), Indices(i));
    LoadOfIndices(vals, i);
    TotalGrows(vals, i);
    PartAtMostSum(vals, parts, j);
  }

  ghost predicate SizesWithinOne(parts: seq<seq<nat>>) {
    forall i, j :: 0 <= i < |parts| && 0 <= j < |parts| ==> |parts[i]| <= |parts[j]| + 1
  }

  ghost predicate LoadsWithin(vals: seq<int>, parts: seq<seq<nat>>, d: int) {
    forall i, j :: 0 <= i < |parts| && 0 <= j < |parts| ==> Load(vals, parts[i]) - Load(vals, parts[j]) <= d
  }

  ghost predicate AllAtMost(vals: seq<int>, d: int) {
    d >= 0 && forall i :: 0 <= i < |vals| ==> vals[i] <= d
  }

  function SizeSum(parts: seq<seq<nat>>): nat {
    if parts == [] then 0 else SizeSum(parts[..|parts| - 1]) + |parts[|parts| - 1]|
  }

  lemma {:induction false} SizeSumIsConcat(parts: seq<seq<nat>>)
    ensures SizeSum(parts) == |Concat<nat>(parts)|
    decreases |parts|
  {
    if parts != [] {
      SizeSumIsConcat(parts[..|parts| - 1]);
    }
  }

  /** If all sizes are `m` or `m + 1`, the sum counts the larger ones. */
  lemma {:induction false} SizeSumBounds(parts: seq<seq<nat>>, m: nat)
    requires forall j :: 0 <= j < |parts| ==> m <= |parts[j]| <= m + 1
    ensures |parts| * m <= SizeSum(parts) <= |parts| * m + |parts|
    ensures SizeSum(parts) == |parts| * m ==> forall j :: 0 <= j < |parts| ==> |parts[j]| == m
    ensures SizeSum(parts) == |parts| * m + |parts| ==> forall j :: 0 <= j < |parts| ==> |parts[j]| == m + 1
    decreases |parts|
  {
    if parts != [] {
      var front := parts[..|parts| - 1];
      SizeSumBounds(front, m);
      assert |parts| * m == |front| * m + m;
    }
  }

  lemma {:induction false} SmallestSize(parts: seq<seq<nat>>) returns (s: nat)
    requires parts != []
    ensures s < |parts| && forall j :: 0 <= j < |parts| ==> |parts[s]| <= |parts[j]|
    decreases |parts|
  {
    s := |parts| - 1;
    if |parts| > 1 {
      var t := SmallestSize(parts[..|parts| - 1]);
      if |parts[t]| < |parts[s]| {
        s := t;
      }
    }
  }

  /** Sizes within one of each other that add up to a multiple of their number are equal. */
  lemma EqualSizes(parts: seq<seq<nat>>, n: nat)
    requires parts != [] && SizesWithinOne(parts) && IsPartition(parts, n)
    ensures n % |parts| == 0 <==> forall j :: 0 <= j < |parts| ==> |parts[j]| * |parts| == n
  {
    var s := SmallestSize(parts);
    var m, k := |parts[s]|, |parts|;
    SizeSumBounds(parts, m);
    SizeSumIsConcat(parts);
    PartitionSize(parts, n);
    if n % k == 0 {
      Between(n, k, m);
      assert n == k * m || n == k * (m + 1);
    } else {
      if |parts[0]| * k == n {
        Divides(|parts[0]|, k, n);
      }
    }
  }

  lemma {:induction false} Divides(a: nat, k: nat, n: nat)
    requires k > 0 && a * k == n
    ensures n % k == 0
    decreases a
  {
    if a > 0 {
      assert (a - 1) * k == n - k;
      Divides(a - 1, k, n - k);
      assert n - k == k * ((n - k) / k);
      assert n == k * ((n - k) / k + 1) + 0;
      Remainder(n, k, (n - k) / k + 1);
    }
  }

  lemma Remainder(n: nat, k: nat, q: int)
    requires k > 0 && n == k * q
    ensures n % k == 0
  {
    var r := n % k;
    assert n == k * (n / k) + r;
    assert r == k * (q - n / k);
    FarFromZero(k, q - n / k);
  }

  lemma FarFromZero(k: nat, x: int)
    ensures x >= 1 ==> k * x >= k
    ensures x <= -1 ==> k * x <= -(k as int)
  {
  }

  lemma Between(n: nat, k: nat, m: nat)
    requires k > 0 && k * m <= n <= k * m + k && n % k == 0
    ensures n == k * m || n == k * m + k
  {
    var q := n / k;
    assert n == k * q;
    assert q < m ==> k * q <= k * (m - 1) == k * m - k;
    assert q > m + 1 ==> k * q >= k * (m + 2) == k * m + 2 * k;
  }

  /** What holds after `i` items. */
  ghost predicate Running(vals: seq<int>, k: nat, equalSize: bool, bias: int, parts: seq<seq<nat>>, sums: seq<int>, i: nat) {
    && |parts| == |sums| == k && IsPartition(parts, i)
    && (forall j :: 0 <= j < k ==> sums[j] == Load(vals, parts[j]) + |parts[j]| * bias)
    && (NonNegative(vals) && equalSize ==> SizesWithinOne(parts))
    && (NonNegative(vals) && !equalSize ==> forall d :: AllAtMost(vals, d) ==> LoadsWithin(vals, parts, d))
  }

  lemma SumsStep(vals: seq<int>, bias: int, parts: seq<seq<nat>>, sums: seq<int>, i: nat, m: nat)
    requires |parts| == |sums| && m < |parts| && i < |vals|
    requires forall j :: 0 <= j < |parts| ==> sums[j] == Load(vals, parts[j]) + |parts[j]| * bias
    ensures var parts', sums' := parts[m := parts[m] + [i]], sums[m := sums[m] + (vals[i] + bias)];
      forall j :: 0 <= j < |parts| ==> sums'[j] == Load(vals, parts'[j]) + |parts'[j]| * bias
  {
    LoadAppend(vals, parts[m], i);
    BiasedSum(|parts[m]|, bias);
    hide Load;
  }

  lemma PartitionStep(parts: seq<seq<nat>>, i: nat, m: nat)
    requires IsPartition(parts, i) && m < |parts|
    ensures IsPartition(parts[m := parts[m] + [i]], i + 1)
  {
    ConcatGrows<nat>(parts, m, i);
  }

  lemma RunningStep(vals: seq<int>, k: nat, equalSize: bool, bias: int, parts: seq<seq<nat>>, sums: seq<int>, i: nat, m: nat)
    requires Running(vals, k, equalSize, bias, parts, sums, i) && i < |vals| && m < k
    requires bias == (if equalSize then Total(vals) + 1 else 0)
    requires forall j :: 0 <= j < k ==> sums[m] <= sums[j]
    ensures Running(vals, k, equalSize, bias, parts[m := parts[m] + [i]], sums[m := sums[m] + (vals[i] + bias)], i + 1)
  {
    hide Load, Total, Concat, LoadsWithin, AllAtMost, SizesWithinOne, IsPartition, NonNegative;
    PartitionStep(parts, i, m);
    SumsStep(vals, bias, parts, sums, i, m);
    if NonNegative(vals) {
      if equalSize {
        StepKeepsSizes(vals, parts, sums, i, m);
      } else {
        StepKeepsLoads(vals, parts, i, m);
      }
    }
  }

  lemma RunningStart(vals: seq<int>, k: nat, equalSize: bool, bias: int)
    ensures Running(vals, k, equalSize, bias, seq(k, _ => []), seq(k, _ => 0), 0)
  {
    EmptyParts(seq(k, _ => []));
  }

  /**
   * `greedy_partition`, with `None` where it raises. For non-negative values: with `equalSize` the sizes never
   * differ by more than one, so the final check fails only if the division is uneven; without it no two loads
   * differ by more than the largest value.
   */
  method Partition(vals: seq<int>, k: nat, equalSize: bool) returns (r: Option<seq<seq<nat>>>)
    ensures k == 0 ==> (r == None <==> vals != [])
    ensures NonNegative(vals) && k > 0 ==> (r == None <==> equalSize && |vals| % k != 0)
    ensures r.Some? ==> |r.value| == k && IsPartition(r.value, |vals|)
    ensures r.Some? && equalSize ==> forall j :: 0 <= j < k ==> |r.value[j]| * k == |vals|
    ensures r.Some? && !equalSize && NonNegative(vals) ==> forall d :: AllAtMost(vals, d) ==> LoadsWithin(vals, r.value, d)
  {
    if k == 0 {
      EmptyParts([]);
      return if vals == [] then Some([]) else None;
    }
    hide Load, Total, IsPartition, LoadsWithin, AllAtMost, SizesWithinOne, NonNegative;
    var parts := Assign(vals, k, equalSize);
    r := Some(parts);
    if equalSize {
      if NonNegative(vals) {
        EqualSizes(parts, |vals|);
      }
      var ok := SizesMatch(parts, |vals|);
      if !ok {
        r := None;
      }
    }
  }

  /** The loop over the items. */
  method Assign(vals: seq<int>, k: nat, equalSize: bool) returns (parts: seq<seq<nat>>)
    requires k > 0
    ensures |parts| == k && IsPartition(parts, |vals|)
    ensures NonNegative(vals) && equalSize ==> SizesWithinOne(parts)
    ensures NonNegative(vals) && !equalSize ==> forall d :: AllAtMost(vals, d) ==> LoadsWithin(vals, parts, d)
  {
    hide Load, Total, IsPartition, LoadsWithin, AllAtMost, SizesWithinOne, NonNegative;
    var bias := if equalSize then Total(vals) + 1 else 0;
    parts := seq(k, _ => []);
    var sums: seq<int> := seq(k, _ => 0);
    RunningStart(vals, k, equalSize, bias);
    for i := 0 to |vals|
      invariant Running(vals, k, equalSize, bias, parts, sums, i)
    {
      var m := Lightest(sums);
      RunningStep(vals, k, equalSize, bias, parts, sums, i, m);
      parts, sums := parts[m := parts[m] + [i]], sums[m := sums[m] + (vals[i] + bias)];
    }
  }

  /** The final check of the sizes. */
  method SizesMatch(parts: seq<seq<nat>>, n: nat) returns (ok: bool)
    ensures ok <==> forall j :: 0 <= j < |parts| ==> |parts[j]| * |parts| == n
  {
    for j := 0 to |parts|
      invariant forall i :: 0 <= i < j ==> |parts[i]| * |parts| == n
    {
      if |parts[j]| * |parts| != n {
        return false;
      }
    }
    ok := true;
  }

  lemma BiasedSum(n: nat, bias: int)
    ensures (n + 1) * bias == n * bias + bias
  {
  }

  lemma {:induction false} EmptyParts(parts: seq<seq<nat>>)
    requires forall j :: 0 <= j < |parts| ==> parts[j] == []
    ensures IsPartition(parts, 0)
    decreases |parts|
  {
    if parts != [] {
      EmptyParts(parts[..|parts| - 1]);
    }
  }

  /** The inner loop: the first part with the smallest running sum. */
  method Lightest(sums: seq<int>) returns (m: nat)
    requires sums != []
    ensures m < |sums| && forall j :: 0 <= j < |sums| ==> sums[m] <= sums[j]
    ensures forall j :: 0 <= j < m ==> sums[m] < sums[j]
  {
    m := 0;
    for j := 1 to |sums|
      invariant m < j <= |sums|
      invariant forall i :: 0 <= i < j ==> sums[m] <= sums[i]
      invariant forall i :: 0 <= i < m ==> sums[m] < sums[i]
    {
      if sums[j] < sums[m] {
        m := j;
      }
    }
  }

  lemma StepKeepsSizes(vals: seq<int>, parts: seq<seq<nat>>, sums: seq<int>, i: nat, m: nat)
    requires NonNegative(vals) && i < |vals| && IsPartition(parts, i) && SizesWithinOne(parts)
    requires m < |parts| == |sums| && forall j :: 0 <= j < |sums| ==> sums[m] <= sums[j]
    requires forall j :: 0 <= j < |parts| ==> sums[j] == Load(vals, parts[j]) + |parts[j]| * (Total(vals) + 1)
    ensures SizesWithinOne(parts[m := parts[m] + [i]])
  {
    hide NonNegative, IsPartition, Total, Load;
    forall j | 0 <= j < |parts| ensures |parts[m]| <= |parts[j]| {
      LightestIsShortest(vals, parts, sums, i, m, j);
    }
  }

  lemma LightestIsShortest(vals: seq<int>, parts: seq<seq<nat>>, sums: seq<int>, i: nat, m: nat, j: nat)
    requires NonNegative(vals) && i < |vals| && IsPartition(parts, i)
    requires m < |parts| == |sums| && j < |parts| && sums[m] <= sums[j]
    requires sums[j] == Load(vals, parts[j]) + |parts[j]| * (Total(vals) + 1)
    requires sums[m] == Load(vals, parts[m]) + |parts[m]| * (Total(vals) + 1)
    ensures |parts[m]| <= |parts[j]|
  {
    hide NonNegative, IsPartition, Total, Load;
    RunningLoad(vals, parts, i, j);
    RunningLoad(vals, parts, i, m);
    BiasComparesCounts(Total(vals) + 1, |parts[j]|, Load(vals, parts[j]), |parts[m]|, Load(vals, parts[m]));
  }

  lemma StepKeepsLoads(vals: seq<int>, parts: seq<seq<nat>>, i: nat, m: nat)
    requires NonNegative(vals) && i < |vals| && m < |parts|
    requires forall j :: 0 <= j < |parts| ==> Load(vals, parts[m]) <= Load(vals, parts[j])
    ensures forall d :: AllAtMost(vals, d) && LoadsWithin(vals, parts, d) ==> LoadsWithin(vals, parts[m := parts[m] + [i]], d)
  {
    LoadAppend(vals, parts[m], i);
  }
}
