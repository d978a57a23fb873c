/** Dynamic micro-batches: how rows are regrouped by workload, and how the original order is restored. */
module DynamicBatch {
  import opened Arithmetic
  import opened Options
  import opened Seqs
  import opened Partitions

  // ----- Selecting rows -----

  predicate AllInRange(parts: seq<seq<nat>>, n: nat) {
    forall j :: 0 <= j < |parts| ==> InRange(parts[j], n)
  }

  /** The rows of every micro-batch. */
  function MicroBatches<T>(rows: seq<T>, parts: seq<seq<nat>>): (r: seq<seq<T>>)
    requires AllInRange(parts, |rows|)
    ensures |r| == |parts|
  {
    seq(|parts|, j requires 0 <= j < |parts| => Select(rows, parts[j]))
  }

  /** Putting the micro-batches one after the other selects the rows in the order of the index lists. */
  lemma {:induction false} MicroBatchesInOrder<T>(rows: seq<T>, parts: seq<seq<nat>>)
    requires AllInRange(parts, |rows|)
    ensures InRange(Concat<nat>(parts), |rows|)
    ensures Concat(MicroBatches(rows, parts)) == Select(rows, Concat<nat>(parts))
    decreases |parts|
  {
    if parts != [] {
      var front := parts[..|parts| - 1];
      MicroBatchesInOrder(rows, front);
      MicroBatchesLast(rows, parts);
      ConcatLast(parts);
      ConcatLast(MicroBatches(rows, parts));
      hide *;
      SelectPlus(rows, Concat<nat>(front), parts[|parts| - 1]);
    }
  }

  lemma MicroBatchesLast<T>(rows: seq<T>, parts: seq<seq<nat>>)
    requires AllInRange(parts, |rows|) && parts != []
    ensures AllInRange(parts[..|parts| - 1], |rows|) && InRange(parts[|parts| - 1], |rows|)
    ensures MicroBatches(rows, parts)[..|parts| - 1] == MicroBatches(rows, parts[..|parts| - 1])
    ensures MicroBatches(rows, parts)[|parts| - 1] == Select(rows, parts[|parts| - 1])
  {
    hide Select, InRange;
  }

  lemma SelectPlus<T>(rows: seq<T>, a: seq<nat>, b: seq<nat>)
    requires InRange(a, |rows|) && InRange(b, |rows|)
    ensures InRange(a + b, |rows|) && Select(rows, a + b) == Select(rows, a) + Select(rows, b)
  {
  }

  // ----- Restoring the original order -----

  /** `get_reverse_idx`; nothing is returned where an index is out of range. */
  method GetReverseIdx(idxMap: seq<nat>) returns (r: Option<seq<nat>>)
    ensures r.Some? <==> InRange(idxMap, |idxMap|)
    ensures r.Some? ==> |r.value| == |idxMap| && InRange(r.value, |idxMap|)
    ensures r.Some? && Distinct(idxMap) ==> forall i :: 0 <= i < |idxMap| ==> r.value[idxMap[i]] == i
  {
    var reverse: seq<nat> := idxMap;
    for i := 0 to |idxMap|
      invariant |reverse| == |idxMap| && InRange(idxMap[..i], |idxMap|)
      invariant forall j :: 0 <= j < |idxMap| ==> reverse[j] < i || reverse[j] == idxMap[j]
      invariant Distinct(idxMap) ==> forall j :: 0 <= j < i ==> reverse[idxMap[j]] == j
    {
      if idxMap[i] >= |idxMap| {
        return None;
      }
      reverse := reverse[idxMap[i] := i];
    }
    r := Some(reverse);
  }

  /**
   * `restore_dynamic_batch`; nothing is returned where it raises. Whatever the batch was, its micro-batches put one
   * after the other are turned back into it.
   */
  method RestoreDynamicBatch<T>(data: seq<T>, parts: seq<seq<nat>>) returns (r: Option<seq<T>>)
    ensures r.Some? <==> |Concat<nat>(parts)| == |data| && InRange(Concat<nat>(parts), |data|)
    ensures forall rows: seq<T> ::
      IsPartition(parts, |rows|) && AllInRange(parts, |rows|) && data == Concat(MicroBatches(rows, parts)) ==> r == Some(rows)
  {
    var indices: seq<nat> := Concat<nat>(parts);
    if |indices| == |data| {
      var reverse := GetReverseIdx(indices);
      if reverse.Some? {
        r := Some(Select(data, reverse.value));
      } else {
        r := None;
      }
    } else {
      r := None;
    }
    forall rows: seq<T> |
      IsPartition(parts, |rows|) && AllInRange(parts, |rows|) && data == Concat(MicroBatches(rows, parts))
      ensures r == Some(rows)
    {
      MicroBatchesInOrder(rows, parts);
      PermutationDistinct(indices, |rows|);
      forall j: nat | j < |rows| ensures r.value[j] == rows[j] {
        assert j in indices;
        var k :| 0 <= k < |indices| && indices[k] == j;
      }
      assert r.value == rows;
    }
  }

  // ----- How many micro-batches -----

  ghost predicate IsMultiple(n: int, b: int) {
    exists q: int :: n == q * b
  }

  /** `roundup_divisible` */
  function RoundupDivisible(a: int, b: int): int
    requires b > 0
  {
    FloorDiv(a + b - 1, b) * b
  }

  /** The result is the least multiple of `b` that is at least `a`. */
  lemma RoundupIsLeast(a: int, b: int, n: int)
    requires b > 0
    ensures var r := RoundupDivisible(a, b); IsMultiple(r, b) && a <= r && (IsMultiple(n, b) && a <= n ==> r <= n)
  {
    var q := FloorDiv(a + b - 1, b);
    FloorDivIs(a + b - 1, b);
    hide FloorDiv;
    if IsMultiple(n, b) && a <= n {
      var c: int :| n == c * b;
      MultipleReaches(q, c, b, a);
    }
  }

  lemma MultipleReaches(q: int, c: int, b: nat, a: int)
    requires q * b <= a + b - 1 && a <= c * b
    ensures q * b <= c * b
  {
    assert (c + 1) * b == c * b + b;
    if c < q {
      Monotone(c + 1, q, b);
    } else {
      Monotone(q, c, b);
    }
  }

  // ----- Workloads and groups -----

  /** `calculate_workload` of one sequence. */
  function Workload(n: nat): nat { 24576 * n + n * n }

  function Workloads(lens: seq<nat>): (r: seq<int>)
    ensures |r| == |lens| && NonNegative(r)
  {
    seq(|lens|, i requires 0 <= i < |lens| => Workload(lens[i]))
  }

  /** The samples `first, .., first + n - 1`. */
  function Run(first: nat, n: nat): (r: seq<nat>)
    ensures |r| == n && forall i :: 0 <= i < n ==> r[i] == first + i
  {
    seq(n, i requires 0 <= i < n => first + i)
  }

  /** The samples of a list of groups of `size` samples. */
  function Expand(groups: seq<nat>, size: nat): seq<nat> {
    if groups == [] then [] else Expand(groups[..|groups| - 1], size) + Run(groups[|groups| - 1] * size, size)
  }

  function ExpandAll(parts: seq<seq<nat>>, size: nat): (r: seq<seq<nat>>)
    ensures |r| == |parts|
  {
    seq(|parts|, j requires 0 <= j < |parts| => Expand(parts[j], size))
  }

  lemma {:induction false} ExpandPlus(a: seq<nat>, b: seq<nat>, size: nat)
    ensures Expand(a + b, size) == Expand(a, size) + Expand(b, size)
    decreases |b|
  {
    if b == [] {
      assert a + b == a;
    } else {
      assert (a + b)[..|a + b| - 1] == a + b[..|b| - 1];
      ExpandPlus(a, b[..|b| - 1], size);
    }
  }

  lemma ExpandOne(g: nat, size: nat)
    ensures Expand([g], size) == Run(g * size, size)
  {
    assert [g][..0] == [];
  }

  lemma {:induction false} ExpandConcat(parts: seq<seq<nat>>, size: nat)
    ensures Concat<nat>(ExpandAll(parts, size)) == Expand(Concat<nat>(parts), size)
    decreases |parts|
  {
    if parts != [] {
      var front := parts[..|parts| - 1];
      ExpandConcat(front, size);
      assert ExpandAll(parts, size)[..|parts| - 1] == ExpandAll(front, size);
      ExpandPlus(Concat<nat>(front), parts[|parts| - 1], size);
    }
  }

  lemma {:induction false} ExpandPermuted(a: seq<nat>, b: seq<nat>, size: nat)
    requires multiset(a) == multiset(b)
    ensures multiset(Expand(a, size)) == multiset(Expand(b, size))
  {
    if a == [] {
      assert |multiset(b)| == 0;
    } else {
      var k := Position(a, b);
      ExpandPermuted(a[1..], b[..k] + b[k + 1..], size);
      ExpandedAgain(a, b, k, size);
    }
  }

  lemma ExpandedAgain(a: seq<nat>, b: seq<nat>, k: nat, size: nat)
    requires a != [] && k < |b| && a[0] == b[k]
    requires multiset(Expand(a[1..], size)) == multiset(Expand(b[..k] + b[k + 1..], size))
    ensures multiset(Expand(a, size)) == multiset(Expand(b, size))
  {
    hide *;
    ExpandWithout(a, 0, size);
    ExpandWithout(b, k, size);
    assert a[..0] + a[1..] == a[1..];
  }

  lemma ExpandWithout(b: seq<nat>, k: nat, size: nat)
    requires k < |b|
    ensures multiset(Expand(b, size)) == multiset(Run(b[k] * size, size)) + multiset(Expand(b[..k] + b[k + 1..], size))
  {
    assert b == b[..k] + [b[k]] + b[k + 1..];
    ExpandPlus(b[..k] + [b[k]], b[k + 1..], size);
    ExpandPlus(b[..k], [b[k]], size);
    ExpandPlus(b[..k], b[k + 1..], size);
    ExpandOne(b[k], size);
  }

  lemma {:induction false} ExpandIndices(n: nat, size: nat, m: nat)
    requires m == n * size
    ensures Expand(Indices(n), size) == Indices(m)
  {
    if n > 0 {
      StepDown(n, size);
      ExpandIndices(n - 1, size, m - size);
      NextIndices(n, size, m - size);
    }
  }

  lemma NextIndices(n: nat, size: nat, m: nat)
    requires n > 0 && m == (n - 1) * size && Expand(Indices(n - 1), size) == Indices(m)
    ensures Expand(Indices(n), size) == Indices(m + size)
  {
    assert Indices(n) == Indices(n - 1) + [n - 1];
    hide *;
    ExpandPlus(Indices(n - 1), [n - 1], size);
    ExpandOne(n - 1, size);
    IndicesRun(m, size);
  }

  lemma {:induction false} IndicesRun(n: nat, size: nat)
    ensures Indices(n + size) == Indices(n) + Run(n, size)
  {
    if size > 0 {
      IndicesRun(n, size - 1);
      assert Run(n, size) == Run(n, size - 1) + [n + size - 1];
    }
  }

  /** Partitioning the groups partitions the samples. */
  lemma ExpandedPartition(parts: seq<seq<nat>>, n: nat, size: nat)
    requires IsPartition(parts, n)
    ensures IsPartition(ExpandAll(parts, size), n * size)
  {
    hide Expand, ExpandAll, Indices, Concat;
    ExpandConcat(parts, size);
    ExpandPermuted(Concat<nat>(parts), Indices(n), size);
    ExpandIndices(n, size, n * size);
  }

  /** The workload of every group of `size` samples. */
  function GroupWorkloads(lens: seq<nat>, size: nat): (r: seq<int>)
    requires size > 0
    ensures |r| == |lens| / size
  {
    seq(|lens| / size, g requires 0 <= g < |lens| / size => Load(Workloads(lens), Run(g * size, size)))
  }

  /** A list of groups weighs what its samples weigh. */
  lemma {:induction false} GroupedLoad(lens: seq<nat>, groups: seq<nat>, size: nat)
    requires size > 0 && InRange(groups, |lens| / size)
    ensures Load(GroupWorkloads(lens, size), groups) == Load(Workloads(lens), Expand(groups, size))
    decreases |groups|
  {
    if groups != [] {
      var front, last := groups[..|groups| - 1], groups[|groups| - 1];
      GroupedLoad(lens, front, size);
      LoadPlus(GroupWorkloads(lens, size), front, [last]);
      LoadPlus(Workloads(lens), Expand(front, size), Run(last * size, size));
      assert groups == front + [last];
    }
  }
}
