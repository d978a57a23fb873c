/** When the micro-batches keep within the token limit that their number is computed from. */
module TokenLimit {
  import opened Options
  import opened Seqs
  import opened Partitions
  import opened BalancedPartitions
  import opened DynamicBatch
  import opened MicroBatching

  /** No micro-batch has more than `m` tokens. */
  ghost predicate WithinLimit(lens: seq<nat>, parts: seq<seq<nat>>, m: nat) {
    forall j :: 0 <= j < |parts| ==> Load(lens, parts[j]) <= m
  }

  /** Only the token limit is asked for. */
  function TokensOnly(m: nat): Limits { Limits(m, None, None, None) }

  /** A split of a batch without forced groups, as `rearrange_micro_batches` returns it. */
  ghost predicate IsResult(lens: seq<nat>, m: nat, parts: seq<seq<nat>>) {
    && m > 0 && (forall i :: 0 <= i < |lens| ==> lens[i] <= m)
    && FromGroups(lens, 1, parts) && |parts| == BatchCount(lens, 1, TokensOnly(m))
  }

  lemma CountIs(lens: seq<nat>, m: nat, n: nat)
    requires m > 0
    ensures BatchCount(lens, 1, TokensOnly(m)) <= n <==> |lens| <= n || Sum(lens) <= n * m
  {
    OwnCountIs(lens, 1, m, n);
    hide OwnCount, Sum;
  }

  lemma {:induction false} TotalIsSum(lens: seq<nat>)
    ensures Total(lens) == Sum(lens)
    decreases |lens|
  {
    if lens != [] {
      TotalIsSum(lens[..|lens| - 1]);
    }
  }

  // ----- Up to two samples -----

  lemma LoadOfOne(vals: seq<int>, part: seq<nat>)
    requires |part| == 1
    ensures Load(vals, part) == Value(vals, part[0])
  {
    assert part[1..] == [];
  }

  lemma PartSizes(parts: seq<seq<nat>>, n: nat)
    requires IsPartition(parts, n)
    ensures |parts| == 2 ==> |parts[0]| + |parts[1]| == n
    ensures |parts| == 1 ==> |parts[0]| == n
  {
    hide Indices;
    PartitionSize(parts, n);
    if |parts| == 2 {
      assert parts == [parts[0]] + [parts[1]];
      ConcatCons(parts[0], [parts[1]]);
      ConcatCons(parts[1], []);
    } else if |parts| == 1 {
      ConcatCons(parts[0], []);
      assert parts == [parts[0]] + [];
    }
  }

  lemma OnePartLoad(vals: seq<int>, parts: seq<seq<nat>>)
    requires |parts| == 1 && IsPartition(parts, |vals|)
    ensures Load(vals, parts[0]) == Total(vals)
  {
    LoadsAddUp(vals, parts);
    hide Load, Total, IsPartition;
    assert parts[..0] == [];
  }

  lemma ResultParts(lens: seq<nat>, m: nat, parts: seq<seq<nat>>)
    requires IsResult(lens, m, parts)
    ensures IsPartition(parts, |lens|) && AllInRange(parts, |lens|)
    ensures forall j :: 0 <= j < |parts| ==> parts[j] != []
  {
    hide FromGroups, WholeGroups, KeyLoad, IsPartition;
    SplitIsPartition(lens, 1, parts);
    forall j | 0 <= j < |parts| ensures parts[j] != [] {
      SplitKeepsGroups(lens, 1, parts, j);
    }
  }

  lemma TwoSamplesFit(lens: seq<nat>, m: nat, parts: seq<seq<nat>>)
    requires |lens| <= 2 && IsResult(lens, m, parts)
    ensures WithinLimit(lens, parts, m)
  {
    hide FromGroups, BatchCount, IsPartition, Load, Sum, Total;
    ResultParts(lens, m, parts);
    CountIs(lens, m, 2);
    PartSizes(parts, |lens|);
    if |parts| == 2 {
      LoadOfOne(lens, parts[0]);
      LoadOfOne(lens, parts[1]);
    } else if |parts| == 1 {
      OneBatch(lens, m, parts);
    }
  }

  lemma OneBatch(lens: seq<nat>, m: nat, parts: seq<seq<nat>>)
    requires |parts| == 1 && IsPartition(parts, |lens|) && m > 0 && forall i :: 0 <= i < |lens| ==> lens[i] <= m
    requires BatchCount(lens, 1, TokensOnly(m)) == 1
    ensures Load(lens, parts[0]) <= m
  {
    CountIs(lens, m, 1);
    OnePartLoad(lens, parts);
    TotalIsSum(lens);
    if |lens| == 1 {
      assert lens[..0] == [];
    }
    hide BatchCount, IsPartition, Load;
  }

  // ----- Three samples and more -----

  /** Three long samples and `n - 3` samples of one token. */
  function ThreeLong(n: nat): (lens: seq<nat>)
    requires n >= 3
    ensures |lens| == n && forall i :: 0 <= i < n ==> lens[i] == if i < 3 then n + 1 else 1
  {
    [n + 1, n + 1, n + 1] + Ones(n - 3)
  }

  function Ones(n: nat): (r: seq<nat>)
    ensures |r| == n && forall i :: 0 <= i < n ==> r[i] == 1
  {
    seq(n, _ => 1)
  }

  lemma {:induction false} SumWithOnes(lens: seq<nat>, n: nat)
    ensures Sum(lens + Ones(n)) == Sum(lens) + n
  {
    if n == 0 {
      assert lens + Ones(0) == lens;
    } else {
      SumWithOnes(lens, n - 1);
      SumSnoc(lens + Ones(n - 1), 1);
      assert lens + Ones(n) == (lens + Ones(n - 1)) + [1];
    }
  }

  lemma SumOfThree(x: nat)
    ensures Sum([x, x, x]) == 3 * x
  {
    SumSnoc([x, x], x);
    SumSnoc([x], x);
    SumSnoc([], x);
    assert [x, x] + [x] == [x, x, x] && [x] + [x] == [x, x] && [] + [x] == [x];
  }

  lemma TwoBatches(n: nat)
    requires n >= 3
    ensures BatchCount(ThreeLong(n), 1, TokensOnly(2 * n)) == 2
  {
    SumOfThree(n + 1);
    SumWithOnes([n + 1, n + 1, n + 1], n - 3);
    CountIs(ThreeLong(n), 2 * n, 2);
    CountIs(ThreeLong(n), 2 * n, 1);
    hide BatchCount, Sum;
  }

  lemma LoadOfTwo(vals: seq<int>, part: seq<nat>, x: nat, y: nat)
    requires NonNegative(vals) && x in part && y in part && x != y
    ensures Load(vals, part) >= Value(vals, x) + Value(vals, y)
  {
    var k :| 0 <= k < |part| && part[k] == x;
    var rest := part[..k] + part[k + 1..];
    assert part == part[..k] + [part[k]] + part[k + 1..];
    hide Load;
    LoadWithout(vals, part, k);
    LoadAtLeastMember(vals, rest, y);
  }

  /** Of three long samples two share a micro-batch. */
  lemma TwoParts(n: nat, parts: seq<seq<nat>>)
    requires n >= 3 && |parts| == 2 && IsPartition(parts, n)
    ensures !WithinLimit(ThreeLong(n), parts, 2 * n)
  {
    var lens := ThreeLong(n);
    hide IsPartition, Load;
    var a := PartOf(parts, n, 0);
    var b := PartOf(parts, n, 1);
    var c := PartOf(parts, n, 2);
    var (x, y, j) := if a == b then (0, 1, a) else if a == c then (0, 2, a) else (1, 2, b);
    LoadOfTwo(lens, parts[j], x, y);
  }

  /** The lengths and the limit are fit for two micro-batches, but no two micro-batches keep within the limit. */
  lemma LimitExceeded(n: nat) returns (parts: seq<seq<nat>>)
    requires n >= 3
    ensures IsResult(ThreeLong(n), 2 * n, parts)
    ensures forall p :: IsResult(ThreeLong(n), 2 * n, p) ==> !WithinLimit(ThreeLong(n), p, 2 * n)
  {
    hide *;
    var lens := ThreeLong(n);
    TwoBatches(n);
    parts := SomeResult(n);
    forall p | IsResult(lens, 2 * n, p) ensures !WithinLimit(lens, p, 2 * n) {
      EveryResultExceeds(n, p);
    }
  }

  lemma SomeResult(n: nat) returns (parts: seq<seq<nat>>)
    requires n >= 3 && BatchCount(ThreeLong(n), 1, TokensOnly(2 * n)) == 2
    ensures IsResult(ThreeLong(n), 2 * n, parts)
  {
    var vals := Workloads(ThreeLong(n));
    assert Divisible(|vals|, 2, false);
    hide *;
    parts := BalancedParts(vals, 2, false);
    BalancedPartsBalance(vals, 2, false);
    SamplesAreGroups(ThreeLong(n), parts, 2);
    IsAResult(n, parts);
  }

  lemma IsAResult(n: nat, parts: seq<seq<nat>>)
    requires n >= 3 && FromGroups(ThreeLong(n), 1, parts) && |parts| == BatchCount(ThreeLong(n), 1, TokensOnly(2 * n))
    ensures IsResult(ThreeLong(n), 2 * n, parts)
  {
    hide ThreeLong, FromGroups, BatchCount;
  }

  lemma EveryResultExceeds(n: nat, parts: seq<seq<nat>>)
    requires n >= 3 && IsResult(ThreeLong(n), 2 * n, parts) && BatchCount(ThreeLong(n), 1, TokensOnly(2 * n)) == 2
    ensures !WithinLimit(ThreeLong(n), parts, 2 * n)
  {
    ResultParts(ThreeLong(n), 2 * n, parts);
    hide ThreeLong, FromGroups, WithinLimit, BatchCount, IsPartition;
    TwoParts(n, parts);
  }

  lemma SamplesAreGroups(lens: seq<nat>, parts: seq<seq<nat>>, k: nat)
    requires Balanced(Workloads(lens), k, false, parts)
    ensures |parts| == k && FromGroups(lens, 1, parts)
  {
    SingleWorkloads(lens);
    ExpandAllSingles(parts);
    BalancedCount(Workloads(lens), k, parts);
    hide Balanced;
  }

  /**
   * Whatever the lengths and the limit, all micro-batches keep within the limit: this holds for batches of `n`
   * samples exactly when `n` is at most two.
   */
  lemma LimitHoldsIffTwo(n: nat)
    ensures (forall lens: seq<nat>, m: nat, parts: seq<seq<nat>> ::
               |lens| == n && IsResult(lens, m, parts) ==> WithinLimit(lens, parts, m))
      <==> n <= 2
  {
    hide IsResult, WithinLimit;
    if n <= 2 {
      forall lens: seq<nat>, m: nat, parts: seq<seq<nat>> | |lens| == n && IsResult(lens, m, parts)
        ensures WithinLimit(lens, parts, m)
      {
        TwoSamplesFit(lens, m, parts);
      }
    } else {
      var parts := LimitExceeded(n);
      assert |ThreeLong(n)| == n;
    }
  }
}
