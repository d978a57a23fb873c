/** Splitting a batch into micro-batches: how many, which samples, and in which order. */
module MicroBatching {
  import opened Arithmetic
  import opened Options
  import opened Seqs
  import opened Partitions
  import opened BalancedPartitions
  import opened DynamicBatch

  // ----- How many -----

  /** What is asked of the number of micro-batches: by this rank, by the other ranks and by the pipeline. */
  datatype Limits = Limits(maxTokenLen: nat, minimum: Option<nat>, peers: Option<nat>, divisor: Option<nat>)

  /** `n` micro-batches satisfy every request. */
  ghost predicate Enough(lens: seq<nat>, size: nat, limits: Limits, n: nat)
    requires size > 0
  {
    && (|lens| / size <= n || Sum(lens) <= n * limits.maxTokenLen)
    && (limits.minimum.Some? ==> limits.minimum.value <= n)
    && (limits.peers.Some? ==> limits.peers.value <= n)
    && (limits.divisor.Some? ==> IsMultiple(n, limits.divisor.value))
  }

  /** The number of micro-batches of this rank alone. */
  function OwnCount(lens: seq<nat>, size: nat, maxTokenLen: nat): (r: nat)
    requires size > 0 && maxTokenLen > 0
  {
    CeildivNatural(Sum(lens), maxTokenLen);
    QuotientNatural(|lens|, size);
    Min(|lens| / size, Ceildiv(Sum(lens), maxTokenLen))
  }

  lemma QuotientNatural(y: nat, n: nat)
    requires n > 0
    ensures y / n >= 0
  {
  }

  /** The number asked for by this rank, the minimum and the other ranks. */
  function AgreedCount(own: nat, limits: Limits): nat {
    var atLeast := if limits.minimum.Some? then Max(limits.minimum.value, own) else own;
    if limits.peers.Some? then Max(limits.peers.value, atLeast) else atLeast
  }

  /** The number of micro-batches. */
  function BatchCount(lens: seq<nat>, size: nat, limits: Limits): nat
    requires size > 0 && limits.maxTokenLen > 0 && limits.divisor != Some(0)
  {
    var agreed := AgreedCount(OwnCount(lens, size, limits.maxTokenLen), limits);
    if limits.divisor == None then agreed else
      RoundupIsLeast(agreed, limits.divisor.value, 0);
      RoundupDivisible(agreed, limits.divisor.value)
  }

  /** The number satisfies every request, and no smaller number does. */
  lemma BatchCountIsLeast(lens: seq<nat>, size: nat, limits: Limits, n: nat)
    requires size > 0 && limits.maxTokenLen > 0 && limits.divisor != Some(0)
    ensures Enough(lens, size, limits, BatchCount(lens, size, limits))
    ensures n < BatchCount(lens, size, limits) ==> !Enough(lens, size, limits, n)
  {
    OwnCountIs(lens, size, limits.maxTokenLen, BatchCount(lens, size, limits));
    OwnCountIs(lens, size, limits.maxTokenLen, n);
    hide OwnCount, Sum, RoundupDivisible, IsMultiple;
    if limits.divisor.Some? {
      RoundupIsLeast(AgreedCount(OwnCount(lens, size, limits.maxTokenLen), limits), limits.divisor.value, n);
    }
  }

  lemma OwnCountIs(lens: seq<nat>, size: nat, maxTokenLen: nat, n: nat)
    requires size > 0 && maxTokenLen > 0
    ensures OwnCount(lens, size, maxTokenLen) <= n <==> |lens| / size <= n || Sum(lens) <= n * maxTokenLen
  {
    CeildivIsLeast(Sum(lens), maxTokenLen, n);
    hide Ceildiv, Sum;
  }

  // ----- In which order -----

  /** The groups of a list of samples made of whole groups: every `size`-th sample, divided by `size`. */
  function Leaders(part: seq<nat>, size: nat): seq<nat>
    requires size > 0
    decreases |part|
  {
    if part == [] then [] else [part[0] / size] + Leaders(if size <= |part| then part[size..] else [], size)
  }

  lemma {:induction false} LeadersOfExpand(groups: seq<nat>, size: nat)
    requires size > 0
    ensures Leaders(Expand(groups, size), size) == groups
  {
    if groups != [] {
      assert groups == [groups[0]] + groups[1..];
      ExpandPlus([groups[0]], groups[1..], size);
      ExpandOne(groups[0], size);
      QuotientIs(size, groups[0], 0);
      LeadersOfExpand(groups[1..], size);
      assert Expand(groups, size)[size..] == Expand(groups[1..], size);
    }
  }

  lemma {:induction false} ExpandSingles(groups: seq<nat>)
    ensures Expand(groups, 1) == groups
    decreases |groups|
  {
    if groups != [] {
      ExpandSingles(groups[..|groups| - 1]);
    }
  }

  /** The first component of the sort key. */
  function KeyLoad(workloads: seq<int>, size: nat, part: seq<nat>): int
    requires size > 0
  {
    if size > 1 then Load(workloads, Leaders(part, size)) else Load(workloads, part)
  }

  /** The second component of the sort key. */
  function First(part: seq<nat>): nat { if part != [] then part[0] else 0 }

  predicate NotBefore(workloads: seq<int>, size: nat, a: seq<nat>, b: seq<nat>)
    requires size > 0
  {
    var ka, kb := KeyLoad(workloads, size, a), KeyLoad(workloads, size, b);
    ka > kb || (ka == kb && First(a) >= First(b))
  }

  function InsertDown(workloads: seq<int>, size: nat, p: seq<nat>, s: seq<seq<nat>>): seq<seq<nat>>
    requires size > 0
  {
    if s == [] then [p]
    else if NotBefore(workloads, size, p, s[0]) then [p] + s
    else [s[0]] + InsertDown(workloads, size, p, s[1..])
  }

  /** `sort(key=.., reverse=True)`: descending, and stable. */
  function SortDown(workloads: seq<int>, size: nat, s: seq<seq<nat>>): seq<seq<nat>>
    requires size > 0
  {
    if s == [] then [] else InsertDown(workloads, size, s[0], SortDown(workloads, size, s[1..]))
  }

  ghost predicate Falling(workloads: seq<int>, size: nat, s: seq<seq<nat>>)
    requires size > 0
  {
    forall i, j :: 0 <= i < j < |s| ==> NotBefore(workloads, size, s[i], s[j])
  }

  lemma {:induction false} InsertDownPermutes(workloads: seq<int>, size: nat, p: seq<nat>, s: seq<seq<nat>>)
    requires size > 0
    ensures multiset(InsertDown(workloads, size, p, s)) == multiset{p} + multiset(s)
  {
    hide NotBefore;
    if s != [] {
      assert s == [s[0]] + s[1..];
      InsertDownPermutes(workloads, size, p, s[1..]);
    }
  }

  lemma {:induction false} InsertDownFalls(workloads: seq<int>, size: nat, p: seq<nat>, s: seq<seq<nat>>)
    requires size > 0 && Falling(workloads, size, s)
    ensures Falling(workloads, size, InsertDown(workloads, size, p, s))
  {
    hide KeyLoad, First;
    if s != [] && !NotBefore(workloads, size, p, s[0]) {
      InsertDownFalls(workloads, size, p, s[1..]);
      InsertDownPermutes(workloads, size, p, s[1..]);
      var r := InsertDown(workloads, size, p, s[1..]);
      forall j | 0 <= j < |r| ensures NotBefore(workloads, size, s[0], r[j]) {
        assert r[j] in multiset(r);
        assert r[j] == p || r[j] in s[1..];
      }
    }
  }

  lemma {:induction false} SortDownFalls(workloads: seq<int>, size: nat, s: seq<seq<nat>>)
    requires size > 0
    ensures Falling(workloads, size, SortDown(workloads, size, s))
    ensures multiset(SortDown(workloads, size, s)) == multiset(s)
  {
    if s != [] {
      SortDownFalls(workloads, size, s[1..]);
      InsertDownFalls(workloads, size, s[0], SortDown(workloads, size, s[1..]));
      InsertDownPermutes(workloads, size, s[0], SortDown(workloads, size, s[1..]));
      assert s == [s[0]] + s[1..];
    }
  }

  /** `s[::2]` */
  function EverySecond<T>(s: seq<T>): (r: seq<T>)
    ensures |r| == (|s| + 1) / 2 && forall i :: 0 <= i < |r| ==> r[i] == s[2 * i]
  {
    seq((|s| + 1) / 2, i requires 0 <= i < (|s| + 1) / 2 => s[2 * i])
  }

  /** `s[1::2]` */
  function EveryOther<T>(s: seq<T>): (r: seq<T>)
    ensures |r| == |s| / 2 && forall i :: 0 <= i < |r| ==> r[i] == s[2 * i + 1]
  {
    if s == [] then [] else EverySecond(s[1..])
  }

  /** `s[::-1]` */
  function Reversed<T>(s: seq<T>): (r: seq<T>)
    ensures |r| == |s| && forall i :: 0 <= i < |r| ==> r[i] == s[|s| - 1 - i]
  {
    seq(|s|, i requires 0 <= i < |s| => s[|s| - 1 - i])
  }

  function EndsLight<T>(s: seq<T>): seq<T> {
    Reversed(EverySecond(s)) + EveryOther(s)
  }

  lemma {:induction false} ReversedPermutes<T>(s: seq<T>)
    ensures multiset(Reversed(s)) == multiset(s)
  {
    if s != [] {
      ReversedPermutes(s[1..]);
      assert Reversed(s) == Reversed(s[1..]) + [s[0]];
      assert s == [s[0]] + s[1..];
    }
  }

  lemma HalvesAlternate<T>(s: seq<T>)
    requires s != []
    ensures EverySecond(s) == [s[0]] + EveryOther(s[1..]) && EveryOther(s) == EverySecond(s[1..])
  {
  }

  lemma {:induction false} HalvesPermute<T>(s: seq<T>)
    ensures multiset(EverySecond(s)) + multiset(EveryOther(s)) == multiset(s)
  {
    hide *;
    if s == [] {
      assert |EverySecond(s)| == 0 && |EveryOther(s)| == 0;
    } else {
      HalvesPermute(s[1..]);
      HalvesAlternate(s);
      assert s == [s[0]] + s[1..];
    }
  }

  lemma EndsLightPermutes<T>(s: seq<T>)
    ensures multiset(EndsLight(s)) == multiset(s)
  {
    ReversedPermutes(EverySecond(s));
    HalvesPermute(s);
  }

  /** The loads rise up to the micro-batch `peak` and then fall. */
  ghost predicate RisesThenFalls(vals: seq<int>, parts: seq<seq<nat>>, peak: nat) {
    && (forall i, j :: 0 <= i < j <= peak && j < |parts| ==> Load(vals, parts[i]) <= Load(vals, parts[j]))
    && (forall i, j :: peak <= i < j < |parts| ==> Load(vals, parts[i]) >= Load(vals, parts[j]))
  }

  /** Placing every other list of a falling order in front, reversed, makes the loads rise and then fall. */
  lemma EndsLightRises(vals: seq<int>, parts: seq<seq<nat>>)
    requires parts != [] && forall i, j :: 0 <= i < j < |parts| ==> Load(vals, parts[i]) >= Load(vals, parts[j])
    ensures RisesThenFalls(vals, EndsLight(parts), (|parts| - 1) / 2)
  {
    hide Load, EndsLight;
    EndsLightAt(parts, 0);
    var peak := (|parts| - 1) / 2;
    var r := EndsLight(parts);
    forall i, j | 0 <= i < j <= peak && j < |parts| ensures Load(vals, r[i]) <= Load(vals, r[j]) {
      EndsLightAt(parts, i);
      EndsLightAt(parts, j);
    }
    forall i, j | peak <= i < j < |parts| ensures Load(vals, r[i]) >= Load(vals, r[j]) {
      EndsLightAt(parts, i);
      EndsLightAt(parts, j);
    }
  }

  lemma EndsLightAt<T>(s: seq<T>, i: nat)
    requires i < |s|
    ensures |EndsLight(s)| == |s|
    ensures EndsLight(s)[i] == var peak := (|s| - 1) / 2; if i <= peak then s[2 * (peak - i)] else s[2 * (i - peak) - 1]
  {
    var front, peak := EverySecond(s), (|s| - 1) / 2;
    assert |front| == peak + 1 && |front| + |EveryOther(s)| == |s|;
    if i <= peak {
      assert EndsLight(s)[i] == Reversed(front)[i] == front[peak - i];
    } else {
      assert EndsLight(s)[i] == EveryOther(s)[i - peak - 1];
    }
  }

  // ----- The split -----

  /** The list consists of whole groups of consecutive samples. */
  predicate WholeGroups(part: seq<nat>, size: nat)
    requires size > 0
  {
    part == Expand(Leaders(part, size), size)
  }

  /** The micro-batches are, in some order, the expansions of a balanced partition of the groups. */
  ghost predicate FromGroups(lens: seq<nat>, size: nat, parts: seq<seq<nat>>)
    requires size > 0
  {
    exists groups ::
      Balanced(GroupWorkloads(lens, size), |parts|, false, groups) && multiset(parts) == multiset(ExpandAll(groups, size))
  }

  /** Every sample is in exactly one micro-batch. */
  lemma SplitIsPartition(lens: seq<nat>, size: nat, parts: seq<seq<nat>>)
    requires size > 0 && |lens| % size == 0 && FromGroups(lens, size, parts)
    ensures IsPartition(parts, |lens|) && AllInRange(parts, |lens|)
  {
    hide Balanced, KeyLoad, Load, Workloads, Indices, Concat, ExpandAll;
    var groups :|
      Balanced(GroupWorkloads(lens, size), |parts|, false, groups) && multiset(parts) == multiset(ExpandAll(groups, size));
    var n := |lens| / size;
    assert n * size == |lens|;
    GroupsPartition(lens, size, |parts|, groups);
    ExpandedPartition(groups, n, size);
    ConcatPermuted<nat>(parts, ExpandAll(groups, size));
    forall j | 0 <= j < |parts| ensures InRange(parts[j], |lens|) {
      forall k | 0 <= k < |parts[j]| ensures parts[j][k] < |lens| {
        PartsInRange(parts, |lens|, j, parts[j][k]);
      }
    }
  }

  lemma GroupsPartition(lens: seq<nat>, size: nat, k: nat, groups: seq<seq<nat>>)
    requires size > 0 && Balanced(GroupWorkloads(lens, size), k, false, groups)
    ensures IsPartition(groups, |lens| / size) && |groups| == k
    ensures forall i :: 0 <= i < k ==> groups[i] != [] && InRange(groups[i], |lens| / size)
  {
    hide GroupWorkloads, Indices, Concat;
    forall i, m | 0 <= i < k && 0 <= m < |groups[i]| ensures groups[i][m] < |lens| / size {
      PartsInRange(groups, |lens| / size, i, groups[i][m]);
    }
  }

  /** No micro-batch is empty, groups stay whole and consecutive, and the key is the workload of the samples. */
  lemma SplitKeepsGroups(lens: seq<nat>, size: nat, parts: seq<seq<nat>>, j: nat)
    requires size > 0 && FromGroups(lens, size, parts) && j < |parts|
    ensures parts[j] != [] && WholeGroups(parts[j], size)
    ensures KeyLoad(GroupWorkloads(lens, size), size, parts[j]) == Load(Workloads(lens), parts[j])
  {
    hide Balanced, KeyLoad, WholeGroups, Load, Workloads, Expand;
    var groups :|
      Balanced(GroupWorkloads(lens, size), |parts|, false, groups) && multiset(parts) == multiset(ExpandAll(groups, size));
    GroupsPartition(lens, size, |parts|, groups);
    assert parts[j] in multiset(ExpandAll(groups, size));
    var i :| 0 <= i < |groups| && parts[j] == Expand(groups[i], size);
    ExpandedKey(lens, size, groups[i]);
  }

  lemma ExpandedKey(lens: seq<nat>, size: nat, group: seq<nat>)
    requires size > 0 && group != [] && InRange(group, |lens| / size)
    ensures var part := Expand(group, size);
      && part != [] && WholeGroups(part, size)
      && KeyLoad(GroupWorkloads(lens, size), size, part) == Load(Workloads(lens), part)
  {
    LeadersOfExpand(group, size);
    GroupedLoad(lens, group, size);
    if size == 1 {
      ExpandSingles(group);
    }
  }

  lemma SingleWorkloads(lens: seq<nat>)
    ensures GroupWorkloads(lens, 1) == Workloads(lens)
  {
    forall i | 0 <= i < |lens| ensures Load(Workloads(lens), Run(i, 1)) == Workloads(lens)[i] {
      assert Run(i, 1)[1..] == [];
    }
  }

  lemma {:induction false} ExpandAllSingles(parts: seq<seq<nat>>)
    ensures ExpandAll(parts, 1) == parts
  {
    forall j | 0 <= j < |parts| ensures Expand(parts[j], 1) == parts[j] {
      ExpandSingles(parts[j]);
    }
  }

  /** The loops that turn groups back into samples. */
  method ExpandGroups(parts: seq<seq<nat>>, size: nat) returns (r: seq<seq<nat>>)
    ensures r == ExpandAll(parts, size)
  {
    r := [];
    for j := 0 to |parts|
      invariant r == ExpandAll(parts[..j], size)
    {
      var samples: seq<nat> := [];
      for i := 0 to |parts[j]|
        invariant samples == Expand(parts[j][..i], size)
      {
        assert parts[j][..i + 1][..i] == parts[j][..i];
        samples := samples + Run(parts[j][i] * size, size);
      }
      assert parts[j][..|parts[j]|] == parts[j];
      r := r + [samples];
    }
    assert parts[..|parts|] == parts;
  }

  /** Reordering keeps the split and makes the workloads rise and fall. */
  lemma ReorderedSplit(lens: seq<nat>, size: nat, parts: seq<seq<nat>>, r: seq<seq<nat>>)
    requires size > 0 && FromGroups(lens, size, parts) && parts != []
    requires r == EndsLight(SortDown(GroupWorkloads(lens, size), size, parts))
    ensures FromGroups(lens, size, r) && |r| == |parts|
    ensures RisesThenFalls(Workloads(lens), r, (|r| - 1) / 2)
  {
    hide EndsLight, SortDown, Balanced, ExpandAll, Workloads, GroupWorkloads, KeyLoad, Load, WholeGroups, RisesThenFalls;
    var sorted := SortDown(GroupWorkloads(lens, size), size, parts);
    SortDownFalls(GroupWorkloads(lens, size), size, parts);
    EndsLightPermutes(sorted);
    assert |multiset(r)| == |r| && |multiset(sorted)| == |sorted| && |multiset(parts)| == |parts|;
    assert FromGroups(lens, size, sorted);
    forall i, j | 0 <= i < j < |sorted| ensures Load(Workloads(lens), sorted[i]) >= Load(Workloads(lens), sorted[j]) {
      SplitKeepsGroups(lens, size, sorted, i);
      SplitKeepsGroups(lens, size, sorted, j);
      assert NotBefore(GroupWorkloads(lens, size), size, sorted[i], sorted[j]);
    }
    EndsLightRises(Workloads(lens), sorted);
  }

  /** The balanced partition of the groups, as samples. */
  method SplitGroups(lens: seq<nat>, size: nat, count: nat) returns (r: Option<seq<seq<nat>>>)
    requires size > 0
    ensures r.Some? <==> 0 < count <= |lens| / size
    ensures r.Some? ==> |r.value| == count && FromGroups(lens, size, r.value)
  {
    hide Balanced, ExpandAll, GroupWorkloads, Workloads, NonNegative;
    if size > 1 {
      GroupWorkloadsNatural(lens, size);
      var groups := GetSeqlenBalancedPartitions(GroupWorkloads(lens, size), count, false);
      if groups == None {
        return None;
      }
      BalancedCount(GroupWorkloads(lens, size), count, groups.value);
      var parts := ExpandGroups(groups.value, size);
      r := Some(parts);
    } else {
      SingleWorkloads(lens);
      r := GetSeqlenBalancedPartitions(Workloads(lens), count, false);
      if r.Some? {
        BalancedCount(Workloads(lens), count, r.value);
        ExpandAllSingles(r.value);
      }
    }
  }

  method SelectMicroBatches<T>(batch: seq<T>, parts: seq<seq<nat>>) returns (batches: seq<seq<T>>)
    requires AllInRange(parts, |batch|)
    ensures batches == MicroBatches(batch, parts)
  {
    batches := [];
    for j := 0 to |parts|
      invariant |batches| == j && forall i :: 0 <= i < j ==> batches[i] == Select(batch, parts[i])
    {
      batches := batches + [Select(batch, parts[j])];
    }
  }

  /** With `balance`, the lists are sorted by their workloads and the light ones placed at both ends. */
  method Arrange(lens: seq<nat>, size: nat, parts: seq<seq<nat>>, balance: bool) returns (r: seq<seq<nat>>)
    requires size > 0 && FromGroups(lens, size, parts) && parts != []
    ensures |r| == |parts| && FromGroups(lens, size, r)
    ensures balance ==> RisesThenFalls(Workloads(lens), r, (|r| - 1) / 2)
  {
    hide RisesThenFalls, FromGroups, EndsLight, SortDown, Workloads, GroupWorkloads;
    r := parts;
    if balance {
      SingleWorkloads(lens);
      var workloads := if size > 1 then GroupWorkloads(lens, size) else Workloads(lens);
      r := EndsLight(SortDown(workloads, size, parts));
      ReorderedSplit(lens, size, parts, r);
    }
  }

  /** The arguments that do not raise. */
  predicate ArgumentsFit(lens: seq<nat>, width: nat, size: nat, limits: Limits) {
    && width <= limits.maxTokenLen && size > 0 && |lens| % size == 0
    && limits.maxTokenLen > 0 && limits.divisor != Some(0)
  }

  /** `rearrange_micro_batches`: the micro-batches and their index lists; `None` where it raises. */
  method RearrangeMicroBatches<T>(batch: seq<T>, lens: seq<nat>, width: nat, size: nat, limits: Limits, balance: bool)
    returns (r: Option<(seq<seq<T>>, seq<seq<nat>>)>)
    requires |batch| == |lens| && forall i :: 0 <= i < |lens| ==> lens[i] <= width
    ensures r.Some? <==> ArgumentsFit(lens, width, size, limits) && 0 < BatchCount(lens, size, limits) <= |lens| / size
    ensures r.Some? ==> |r.value.1| == BatchCount(lens, size, limits) && FromGroups(lens, size, r.value.1)
    ensures r.Some? ==> IsPartition(r.value.1, |lens|)
    ensures r.Some? ==> AllInRange(r.value.1, |lens|) && r.value.0 == MicroBatches(batch, r.value.1)
    ensures r.Some? && balance ==> RisesThenFalls(Workloads(lens), r.value.1, (|r.value.1| - 1) / 2)
  {
    hide IsPartition, RisesThenFalls, FromGroups, MicroBatches, BatchCount, AllInRange;
    r := None;
    if ArgumentsFit(lens, width, size, limits) {
      var count := BatchCount(lens, size, limits);
      if count <= |lens| / size {
        var split := SplitGroups(lens, size, count);
        if split.Some? {
          var parts := Arrange(lens, size, split.value, balance);
          SplitIsPartition(lens, size, parts);
          var batches := SelectMicroBatches(batch, parts);
          r := Some((batches, parts));
        }
      }
    }
  }

  lemma GroupWorkloadsNatural(lens: seq<nat>, size: nat)
    requires size > 0
    ensures NonNegative(GroupWorkloads(lens, size))
  {
    forall g | 0 <= g < |lens| / size ensures Load(Workloads(lens), Run(g * size, size)) >= 0 {
      LoadNonNegative(Workloads(lens), Run(g * size, size));
    }
  }

  lemma BalancedCount(vals: seq<int>, k: nat, parts: seq<seq<nat>>)
    requires Balanced(vals, k, false, parts)
    ensures |parts| == k
  {
  }
}
