/** Partitions of the indices of a list of values, and their loads. */
module Partitions {
  import opened Seqs

  /** The load of a list of indices; an index outside `vals` weighs nothing. */
  function Load(vals: seq<int>, part: seq<nat>): int {
    if part == [] then 0 else Value(vals, part[0]) + Load(vals, part[1..])
  }

  function Value(vals: seq<int>, i: nat): int { if i < |vals| then vals[i] else 0 }

  /** The indices `0, 1, .., n - 1`. */
  function Indices(n: nat): seq<nat> {
    if n == 0 then [] else Indices(n - 1) + [n - 1]
  }

  /** Every index below `n` occurs in exactly one of the parts, once. */
  ghost predicate IsPartition(parts: seq<seq<nat>>, n: nat) {
    multiset(Concat<nat>(parts)) == multiset(Indices(n))
  }

  function Total(vals: seq<int>): int {
    if vals == [] then 0 else Total(vals[..|vals| - 1]) + vals[|vals| - 1]
  }

  function LoadSum(vals: seq<int>, parts: seq<seq<nat>>): int {
    if parts == [] then 0 else LoadSum(vals, parts[..|parts| - 1]) + Load(vals, parts[|parts| - 1])
  }

  ghost predicate NonNegative(vals: seq<int>) {
    forall i :: 0 <= i < |vals| ==> vals[i] >= 0
  }

  lemma {:induction false} LoadPlus(vals: seq<int>, a: seq<nat>, b: seq<nat>)
    ensures Load(vals, a + b) == Load(vals, a) + Load(vals, b)
  {
    if a == [] {
      assert a + b == b;
    } else {
      assert (a + b)[1..] == a[1..] + b;
      LoadPlus(vals, a[1..], b);
    }
  }

  lemma LoadWithout(vals: seq<int>, b: seq<nat>, k: nat)
    requires k < |b|
    ensures Load(vals, b) == Value(vals, b[k]) + Load(vals, b[..k] + b[k + 1..])
  {
    var rest := [b[k]] + b[k + 1..];
    assert b == b[..k] + rest && rest[1..] == b[k + 1..];
    LoadPlus(vals, b[..k], rest);
    LoadPlus(vals, b[..k], b[k + 1..]);
  }

  lemma MultisetWithout<T>(b: seq<T>, k: nat)
    requires k < |b|
    ensures multiset(b[..k] + b[k + 1..]) == multiset(b) - multiset{b[k]}
  {
    assert b == b[..k] + [b[k]] + b[k + 1..];
  }

  /** Where the first item of `a` stands in `b`. */
  lemma Position<T>(a: seq<T>, b: seq<T>) returns (k: nat)
    requires a != [] && multiset(a) == multiset(b)
    ensures k < |b| && b[k] == a[0] && multiset(a[1..]) == multiset(b[..k] + b[k + 1..])
  {
    SameElements(a, b);
    assert a[0] in b;
    k :| 0 <= k < |b| && b[k] == a[0];
    MultisetWithout(b, k);
    MultisetTail(a);
  }

  lemma MultisetTail<T>(a: seq<T>)
    requires a != []
    ensures multiset(a[1..]) == multiset(a) - multiset{a[0]}
  {
    assert a == [a[0]] + a[1..];
  }

  /** The load only depends on which indices occur how often. */
  lemma {:induction false} LoadPermuted(vals: seq<int>, a: seq<nat>, b: seq<nat>)
    requires multiset(a) == multiset(b)
    ensures Load(vals, a) == Load(vals, b)
  {
    if a == [] {
      assert |multiset(b)| == 0;
    } else {
      var k := Position(a, b);
      LoadPermuted(vals, a[1..], b[..k] + b[k + 1..]);
      LoadWithout(vals, b, k);
    }
  }

  /** Concatenating the lists in another order permutes the elements. */
  lemma {:induction false} ConcatPermuted<T>(a: seq<seq<T>>, b: seq<seq<T>>)
    requires multiset(a) == multiset(b)
    ensures multiset(Concat(a)) == multiset(Concat(b))
  {
    if a == [] {
      assert |multiset(b)| == 0;
    } else {
      var k := Position(a, b);
      ConcatPermuted(a[1..], b[..k] + b[k + 1..]);
      ConcatAgain(a, b, k);
    }
  }

  lemma ConcatAgain<T>(a: seq<seq<T>>, b: seq<seq<T>>, k: nat)
    requires a != [] && k < |b| && a[0] == b[k]
    requires multiset(Concat(a[1..])) == multiset(Concat(b[..k] + b[k + 1..]))
    ensures multiset(Concat(a)) == multiset(Concat(b))
  {
    hide *;
    assert a == [a[0]] + a[1..] && b == b[..k] + ([b[k]] + b[k + 1..]);
    ConcatCons(a[0], a[1..]);
    ConcatPlus(b[..k], [b[k]] + b[k + 1..]);
    ConcatCons(b[k], b[k + 1..]);
    ConcatPlus(b[..k], b[k + 1..]);
  }

  lemma {:induction false} IndicesAre(n: nat)
    ensures |Indices(n)| == n && forall i :: 0 <= i < n ==> Indices(n)[i] == i
  {
    if n > 0 {
      IndicesAre(n - 1);
    }
  }

  lemma InIndices(n: nat, i: nat)
    ensures i in Indices(n) <==> i < n
  {
    IndicesAre(n);
    if i < n {
      assert Indices(n)[i] == i;
    }
  }

  lemma {:induction false} LoadOfIndices(vals: seq<int>, n: nat)
    requires n <= |vals|
    ensures Load(vals, Indices(n)) == Total(vals[..n])
  {
    if n > 0 {
      LoadOfIndices(vals, n - 1);
      LoadPlus(vals, Indices(n - 1), [n - 1]);
      assert vals[..n][..n - 1] == vals[..n - 1];
    }
  }

  lemma {:induction false} LoadSumIsConcat(vals: seq<int>, parts: seq<seq<nat>>)
    ensures LoadSum(vals, parts) == Load(vals, Concat<nat>(parts))
    decreases |parts|
  {
    if parts != [] {
      var front := parts[..|parts| - 1];
      LoadSumIsConcat(vals, front);
      LoadPlus(vals, Concat<nat>(front), parts[|parts| - 1]);
    }
  }

  /** Conservation: the loads of a partition add up to the total of the values. */
  lemma LoadsAddUp(vals: seq<int>, parts: seq<seq<nat>>)
    requires IsPartition(parts, |vals|)
    ensures LoadSum(vals, parts) == Total(vals)
  {
    LoadSumIsConcat(vals, parts);
    LoadPermuted(vals, Concat<nat>(parts), Indices(|vals|));
    LoadOfIndices(vals, |vals|);
    assert vals[..|vals|] == vals;
  }

  lemma {:induction false} SumAtMost(vals: seq<int>, parts: seq<seq<nat>>, most: int)
    requires forall j :: 0 <= j < |parts| ==> Load(vals, parts[j]) <= most
    ensures LoadSum(vals, parts) <= |parts| * most
    decreases |parts|
  {
    if parts != [] {
      SumAtMost(vals, parts[..|parts| - 1], most);
      assert |parts| * most == (|parts| - 1) * most + most;
    }
  }

  lemma {:induction false} SumAtLeast(vals: seq<int>, parts: seq<seq<nat>>, least: int)
    requires forall j :: 0 <= j < |parts| ==> Load(vals, parts[j]) >= least
    ensures LoadSum(vals, parts) >= |parts| * least
    decreases |parts|
  {
    if parts != [] {
      SumAtLeast(vals, parts[..|parts| - 1], least);
      assert |parts| * least == (|parts| - 1) * least + least;
    }
  }

  lemma {:induction false} LoadNonNegative(vals: seq<int>, part: seq<nat>)
    requires NonNegative(vals)
    ensures Load(vals, part) >= 0
  {
    if part != [] {
      LoadNonNegative(vals, part[1..]);
    }
  }

  lemma {:induction false} LoadAtLeastMember(vals: seq<int>, part: seq<nat>, i: nat)
    requires NonNegative(vals) && i in part
    ensures Load(vals, part) >= Value(vals, i)
  {
    LoadNonNegative(vals, part[1..]);
    if part[0] != i {
      LoadAtLeastMember(vals, part[1..], i);
    }
  }

  lemma {:induction false} InConcat<T>(parts: seq<seq<T>>, x: T) returns (j: nat)
    requires x in Concat(parts)
    ensures j < |parts| && x in parts[j]
    decreases |parts|
  {
    if x in parts[|parts| - 1] {
      j := |parts| - 1;
    } else {
      j := InConcat(parts[..|parts| - 1], x);
    }
  }

  /** Every index of a partition lies in one of the parts. */
  lemma PartOf(parts: seq<seq<nat>>, n: nat, i: nat) returns (j: nat)
    requires IsPartition(parts, n) && i < n
    ensures j < |parts| && i in parts[j]
  {
    IndicesAre(n);
    assert Indices(n)[i] == i;
    assert i in multiset(Concat<nat>(parts));
    j := InConcat<nat>(parts, i);
  }

  /** The parts of a partition hold indices below `n` only, and together `n` of them. */
  lemma PartsInRange(parts: seq<seq<nat>>, n: nat, j: nat, i: nat)
    requires IsPartition(parts, n) && j < |parts| && i in parts[j]
    ensures i < n
  {
    ConcatTake(parts, j);
    assert i in Concat<nat>(parts[..j]) + parts[j];
    assert i in multiset(Indices(n));
    IndicesAre(n);
  }

  lemma PartitionSize(parts: seq<seq<nat>>, n: nat)
    requires IsPartition(parts, n)
    ensures |Concat<nat>(parts)| == n
  {
    IndicesAre(n);
    assert |multiset(Concat<nat>(parts))| == |Concat<nat>(parts)|;
    assert |multiset(Indices(n))| == |Indices(n)|;
  }

  /** The lists of a partition hold every index below `n` at exactly one position. */
  lemma PermutationDistinct(s: seq<nat>, n: nat)
    requires multiset(s) == multiset(Indices(n))
    ensures Distinct(s) && |s| == n && InRange(s, n)
    ensures forall i: nat :: i < n ==> i in s
  {
    hide Indices;
    IndicesAre(n);
    SameElements(s, Indices(n));
    forall i: nat ensures i in s <==> i < n {
      InIndices(n, i);
    }
    forall k | 0 <= k < |s| ensures s[k] < n {
      assert s[k] in s;
    }
    forall i, j | 0 <= i < j < |s| ensures s[i] != s[j] {
      if s[i] == s[j] {
        DistinctCount(Indices(n), s[i]);
        TwiceCount(s, i, j);
      }
    }
  }
}
