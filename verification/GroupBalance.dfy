/** Balancing samples while keeping those with the same prefix together. */
module GroupBalance {
  import opened Arithmetic
  import opened Options
  import opened Seqs
  import opened Partitions
  import opened Differencing
  import opened BalancedPartitions
  import opened DynamicBatch

  // ----- Runs of equal uids -----

  /** Sample `n` joins the last group, or opens one. */
  function Extend(groups: seq<seq<nat>>, n: nat, same: bool): (r: seq<seq<nat>>)
    requires same ==> groups != []
    ensures r != []
  {
    if same then groups[..|groups| - 1] + [groups[|groups| - 1] + [n]] else groups + [[n]]
  }

  predicate SameAsBefore<U(==)>(uids: seq<U>, n: nat)
    requires n < |uids|
  {
    n > 0 && uids[n] == uids[n - 1]
  }

  /** The maximal runs of consecutive equal uids, as index lists. */
  function Runs<U(==)>(uids: seq<U>): (r: seq<seq<nat>>)
    ensures uids != [] ==> r != []
  {
    if uids == [] then [] else
      var n := |uids| - 1;
      Extend(Runs(uids[..n]), n, SameAsBefore(uids, n))
  }

  /** The number of the run of position `i`: how often the uid changes up to it. */
  function RunIndex<U(==)>(uids: seq<U>, i: nat): nat
    requires i < |uids|
  {
    if i == 0 then 0 else RunIndex(uids, i - 1) + if SameAsBefore(uids, i) then 0 else 1
  }

  lemma {:induction false} RunIndexPrefix<U>(uids: seq<U>, n: nat, i: nat)
    requires i < n <= |uids|
    ensures RunIndex(uids[..n], i) == RunIndex(uids, i)
  {
    if i > 0 {
      RunIndexPrefix(uids, n, i - 1);
    }
  }

  lemma ExtendConcat(groups: seq<seq<nat>>, n: nat, same: bool)
    requires same ==> groups != []
    ensures Concat<nat>(Extend(groups, n, same)) == Concat<nat>(groups) + [n]
  {
    if same {
      var m := |groups| - 1;
      ConcatSnoc<nat>(groups[..m], groups[m]);
      ConcatSnoc<nat>(groups[..m], groups[m] + [n]);
      assert groups[..m] + [groups[m]] == groups;
    } else {
      ConcatSnoc<nat>(groups, [n]);
    }
  }

  /** The runs list every position once, in order. */
  lemma {:induction false} RunsInOrder<U>(uids: seq<U>)
    ensures Concat<nat>(Runs(uids)) == Indices(|uids|)
    decreases |uids|
  {
    if uids != [] {
      var n := |uids| - 1;
      RunsInOrder(uids[..n]);
      ExtendConcat(Runs(uids[..n]), n, SameAsBefore(uids, n));
    }
  }

  lemma {:induction false} RunCount<U>(uids: seq<U>)
    ensures |Runs(uids)| == if uids == [] then 0 else RunIndex(uids, |uids| - 1) + 1
    decreases |uids|
  {
    if uids != [] {
      var n := |uids| - 1;
      RunCount(uids[..n]);
      if n > 0 {
        RunIndexPrefix(uids, n, n - 1);
      }
      ExtendCount(Runs(uids[..n]), n, SameAsBefore(uids, n));
      hide Extend, SameAsBefore;
    }
  }

  lemma ExtendCount(groups: seq<seq<nat>>, n: nat, same: bool)
    requires same ==> groups != []
    ensures |Extend(groups, n, same)| == |groups| + if same then 0 else 1
  {
  }

  /** A position lies in the run of its number and in no other. */
  lemma {:induction false} InRun<U>(uids: seq<U>, j: nat, i: nat)
    requires j < |Runs(uids)|
    ensures i in Runs(uids)[j] <==> i < |uids| && RunIndex(uids, i) == j
    decreases |uids|
  {
    var n := |uids| - 1;
    var front := Runs(uids[..n]);
    RunCount(uids[..n]);
    RunCount(uids);
    if i < n {
      RunIndexPrefix(uids, n, i);
    }
    if n > 0 {
      RunIndexPrefix(uids, n, n - 1);
    }
    if j < |front| {
      InRun(uids[..n], j, i);
    } else if i < n {
      RunIndexGrows(uids, i, n);
    }
  }

  /** Later positions have larger run numbers, equal ones exactly when nothing changes in between. */
  lemma {:induction false} RunIndexGrows<U>(uids: seq<U>, a: nat, c: nat)
    requires a <= c < |uids|
    ensures RunIndex(uids, a) <= RunIndex(uids, c)
    ensures RunIndex(uids, a) == RunIndex(uids, c) <==> forall b :: a <= b <= c ==> uids[b] == uids[a]
  {
    if a < c {
      RunIndexGrows(uids, a, c - 1);
    }
  }

  /** The loop that collects the runs. */
  method CollectRuns<U(==)>(uids: seq<U>) returns (groups: seq<seq<nat>>)
    ensures groups == Runs(uids)
  {
    groups := [];
    var currentUid: Option<U>, currentIndices: seq<nat> := None, [];
    for i := 0 to |uids|
      invariant (currentIndices == [] <==> i == 0) && (i > 0 ==> currentUid == Some(uids[i - 1]))
      invariant Runs(uids[..i]) == if i == 0 then [] else groups + [currentIndices]
      invariant i == 0 ==> groups == [] && currentUid == None
    {
      assert uids[..i + 1][..i] == uids[..i];
      if Some(uids[i]) != currentUid {
        if currentIndices != [] {
          groups := groups + [currentIndices];
        }
        currentUid, currentIndices := Some(uids[i]), [i];
      } else {
        currentIndices := currentIndices + [i];
      }
    }
    assert uids[..|uids|] == uids;
    if currentIndices != [] {
      groups := groups + [currentIndices];
    }
  }

  // ----- From partitions of runs to partitions of samples -----

  /** The samples of every list of runs. */
  function GatherAll(runs: seq<seq<nat>>, parts: seq<seq<nat>>): (r: seq<seq<nat>>)
    requires AllInRange(parts, |runs|)
    ensures |r| == |parts|
  {
    seq(|parts|, j requires 0 <= j < |parts| => Concat<nat>(Select(runs, parts[j])))
  }

  lemma {:induction false} GatherConcat(runs: seq<seq<nat>>, parts: seq<seq<nat>>)
    requires AllInRange(parts, |runs|)
    ensures InRange(Concat<nat>(parts), |runs|)
    ensures Concat<nat>(GatherAll(runs, parts)) == Concat<nat>(Select(runs, Concat<nat>(parts)))
    decreases |parts|
  {
    if parts != [] {
      var front, last := parts[..|parts| - 1], parts[|parts| - 1];
      GatherConcat(runs, front);
      assert GatherAll(runs, parts)[..|parts| - 1] == GatherAll(runs, front);
      assert Select(runs, Concat<nat>(front) + last) == Select(runs, Concat<nat>(front)) + Select(runs, last);
      ConcatPlus<nat>(Select(runs, Concat<nat>(front)), Select(runs, last));
    }
  }

  lemma {:induction false} SelectPermuted<T>(rows: seq<T>, p: seq<nat>, q: seq<nat>)
    requires multiset(p) == multiset(q) && InRange(p, |rows|) && InRange(q, |rows|)
    ensures multiset(Select(rows, p)) == multiset(Select(rows, q))
  {
    if p == [] {
      assert |multiset(q)| == 0;
    } else {
      var k := Position(p, q);
      SelectPermuted(rows, p[1..], q[..k] + q[k + 1..]);
      assert Select(rows, p) == [rows[p[0]]] + Select(rows, p[1..]);
      SelectWithout(rows, q, k);
    }
  }

  lemma SelectWithout<T>(rows: seq<T>, q: seq<nat>, k: nat)
    requires InRange(q, |rows|) && k < |q|
    ensures multiset(Select(rows, q)) == multiset{rows[q[k]]} + multiset(Select(rows, q[..k] + q[k + 1..]))
  {
    var s := Select(rows, q);
    assert Select(rows, q[..k] + q[k + 1..]) == s[..k] + s[k + 1..];
    assert s == s[..k] + [s[k]] + s[k + 1..];
  }

  lemma GatheredPartition(runs: seq<seq<nat>>, parts: seq<seq<nat>>, n: nat)
    requires IsPartition(parts, |runs|) && AllInRange(parts, |runs|) && Concat<nat>(runs) == Indices(n)
    ensures IsPartition(GatherAll(runs, parts), n)
  {
    hide Concat, Indices;
    GatherConcat(runs, parts);
    IndicesAre(|runs|);
    SelectPermuted(runs, Concat<nat>(parts), Indices(|runs|));
    assert Select(runs, Indices(|runs|)) == runs;
    ConcatPermuted<nat>(Select(runs, Concat<nat>(parts)), runs);
  }

  // ----- The partition of the samples -----

  /** The workload of every run. */
  function RunWorkloads(lens: seq<nat>, runs: seq<seq<nat>>): (r: seq<int>)
    ensures |r| == |runs|
  {
    seq(|runs|, g requires 0 <= g < |runs| => Load(Workloads(lens), runs[g]))
  }

  lemma RunWorkloadsNatural(lens: seq<nat>, runs: seq<seq<nat>>)
    ensures NonNegative(RunWorkloads(lens, runs))
  {
    forall g | 0 <= g < |runs| ensures Load(Workloads(lens), runs[g]) >= 0 {
      LoadNonNegative(Workloads(lens), runs[g]);
    }
  }

  /** The number of partitions divides the number of runs. */
  predicate Admissible<U(==)>(uids: seq<U>, k: nat) {
    0 < k <= |Runs(uids)| && |Runs(uids)| % k == 0
  }

  /** The balanced parts of the runs. */
  function RunParts<U(==)>(lens: seq<nat>, uids: seq<U>, k: nat): (parts: seq<seq<nat>>)
    requires Admissible(uids, k)
    ensures |parts| == k && IsPartition(parts, |Runs(uids)|) && AllInRange(parts, |Runs(uids)|)
  {
    var vals := RunWorkloads(lens, Runs(uids));
    PartsFit(vals, k);
    BalancedParts(vals, k, true)
  }

  lemma PartsFit(vals: seq<int>, k: nat)
    requires Divisible(|vals|, k, true)
    ensures var parts := BalancedParts(vals, k, true);
      |parts| == k && IsPartition(parts, |vals|) && AllInRange(parts, |vals|)
  {
    hide Differences, IsPartition, SortUp, Load;
    BalancedPartsAre(vals, k, true);
    var parts := BalancedParts(vals, k, true);
    forall j, i | 0 <= j < |parts| && 0 <= i < |parts[j]| ensures parts[j][i] < |vals| {
      PartsInRange(parts, |vals|, j, parts[j][i]);
    }
  }

  /** What `get_group_balanced_partitions` returns: the samples of each part of the runs, sorted. */
  function GroupPartitions<U(==)>(lens: seq<nat>, uids: seq<U>, k: nat): (samples: seq<seq<nat>>)
    requires Admissible(uids, k)
    ensures |samples| == k
  {
    SortedParts(GatherAll(Runs(uids), RunParts(lens, uids, k)))
  }

  /** A sample is in a list of samples exactly when its run is in the list of runs. */
  lemma {:induction false} SampleOfRun<U>(uids: seq<U>, part: seq<nat>, i: nat)
    requires InRange(part, |Runs(uids)|)
    ensures i in Concat<nat>(Select(Runs(uids), part)) <==> i < |uids| && RunIndex(uids, i) in part
    decreases |part|
  {
    if part == [] {
      assert Select(Runs(uids), part) == [];
    } else {
      var last := |part| - 1;
      SampleOfRun(uids, part[..last], i);
      InRun(uids, part[last], i);
      assert part == part[..last] + [part[last]];
      assert Select(Runs(uids), part) == Select(Runs(uids), part[..last]) + [Runs(uids)[part[last]]];
      ConcatSnoc<nat>(Select(Runs(uids), part[..last]), Runs(uids)[part[last]]);
    }
  }

  lemma SampleIn<U>(lens: seq<nat>, uids: seq<U>, k: nat, j: nat, i: nat)
    requires Admissible(uids, k) && j < k
    ensures i in GroupPartitions(lens, uids, k)[j] <==> i < |uids| && RunIndex(uids, i) in RunParts(lens, uids, k)[j]
  {
    hide Concat, SortUp, RunParts, Runs;
    var part := RunParts(lens, uids, k)[j];
    var gathered := Concat<nat>(Select(Runs(uids), part));
    SampleOfRun(uids, part, i);
    SortUpSorts(gathered);
    SameElements(SortUp(gathered), gathered);
  }

  /** Every sample is in exactly one of the sorted partitions. */
  lemma SamplesPartition<U>(lens: seq<nat>, uids: seq<U>, k: nat)
    requires Admissible(uids, k)
    ensures IsPartition(GroupPartitions(lens, uids, k), |uids|)
    ensures forall j :: 0 <= j < k ==> Ascending(GroupPartitions(lens, uids, k)[j])
  {
    hide Concat, SortUp, Runs, Indices, RunParts;
    RunsInOrder(uids);
    var gathered := GatherAll(Runs(uids), RunParts(lens, uids, k));
    GatheredPartition(Runs(uids), RunParts(lens, uids, k), |uids|);
    forall j | 0 <= j < k
      ensures multiset(SortedParts(gathered)[j]) == multiset(gathered[j]) && Ascending(SortedParts(gathered)[j])
    {
      SortUpSorts(gathered[j]);
    }
    PartitionSorted(gathered, SortedParts(gathered));
  }

  // ----- Which samples stay together -----

  ghost predicate Contiguous<U(!new)>(uids: seq<U>) {
    forall a, b, c :: 0 <= a <= b <= c < |uids| && uids[a] == uids[c] ==> uids[b] == uids[a]
  }

  /** Samples with the same uid are in the same list. */
  ghost predicate Together<U(!new)>(uids: seq<U>, samples: seq<seq<nat>>) {
    forall a: nat, c: nat, j :: a <= c < |uids| && uids[a] == uids[c] && 0 <= j < |samples| ==>
      (a in samples[j] <==> c in samples[j])
  }

  /** Two samples are kept together for sure when nothing but their uid lies between them. */
  lemma RunsStayWhole<U>(lens: seq<nat>, uids: seq<U>, k: nat, j: nat, a: nat, c: nat)
    requires Admissible(uids, k) && j < k && a <= c < |uids|
    requires forall b :: a <= b <= c ==> uids[b] == uids[a]
    ensures a in GroupPartitions(lens, uids, k)[j] <==> c in GroupPartitions(lens, uids, k)[j]
  {
    hide GroupPartitions, RunParts;
    RunIndexGrows(uids, a, c);
    SampleIn(lens, uids, k, j, a);
    SampleIn(lens, uids, k, j, c);
  }

  /** The lengths that make the runs `p` and `q` lighter than all others. */
  function LightRuns<U(==)>(uids: seq<U>, p: nat, q: nat): (lens: seq<nat>)
    ensures |lens| == |uids| && forall i :: 0 <= i < |lens| ==> lens[i] > 0
  {
    seq(|uids|, i requires 0 <= i < |uids| => if RunIndex(uids, i) == p || RunIndex(uids, i) == q then 1 else |uids| + 1)
  }

  lemma {:induction false} LoadAtMost(vals: seq<int>, part: seq<nat>, most: nat)
    requires forall i :: i in part ==> Value(vals, i) <= most
    ensures Load(vals, part) <= |part| * most
  {
    if part != [] {
      LoadAtMost(vals, part[1..], most);
      StepDown(|part|, most);
    }
  }

  lemma RunSize<U>(uids: seq<U>, g: nat)
    requires g < |Runs(uids)|
    ensures |Runs(uids)[g]| <= |uids|
  {
    RunsInOrder(uids);
    IndicesAre(|uids|);
    ConcatTake(Runs(uids), g);
  }

  lemma LightRun<U>(uids: seq<U>, p: nat, q: nat, g: nat)
    requires g < |Runs(uids)| && (g == p || g == q)
    ensures Load(Workloads(LightRuns(uids, p, q)), Runs(uids)[g]) <= |uids| * 24577
  {
    var run, vals := Runs(uids)[g], Workloads(LightRuns(uids, p, q));
    forall i | i in run ensures Value(vals, i) <= 24577 {
      InRun(uids, g, i);
    }
    hide Load, Runs, RunIndex, Workloads;
    LoadAtMost(vals, run, 24577);
    RunSize(uids, g);
    AtLeastAsMany(|run|, |uids|, 24577);
  }

  lemma {:induction false} RunsNotEmpty<U>(uids: seq<U>, g: nat)
    requires g < |Runs(uids)|
    ensures Runs(uids)[g] != []
    decreases |uids|
  {
    var n := |uids| - 1;
    if g < |Runs(uids[..n])| {
      RunsNotEmpty(uids[..n], g);
    }
  }

  lemma HeavyWorkload(n: nat)
    ensures Workload(n + 1) > n * 24577
  {
    AtLeastAsMany(1, n + 1, n + 1);
  }

  lemma HeavyRun<U>(uids: seq<U>, p: nat, q: nat, g: nat)
    requires g < |Runs(uids)| && g != p && g != q
    ensures Load(Workloads(LightRuns(uids, p, q)), Runs(uids)[g]) > |uids| * 24577
  {
    var run, vals := Runs(uids)[g], Workloads(LightRuns(uids, p, q));
    RunsNotEmpty(uids, g);
    InRun(uids, g, run[0]);
    hide Load, Runs, RunIndex, Workload;
    LoadAtLeastMember(vals, run, run[0]);
    HeavyWorkload(|uids|);
  }

  /** With more than one partition, the two lightest runs are separated. */
  lemma LightRunsSeparated<U>(uids: seq<U>, k: nat, p: nat, q: nat, j: nat)
    requires Admissible(uids, k) && k > 1 && p < q < |Runs(uids)| && j < k
    ensures var part := RunParts(LightRuns(uids, p, q), uids, k)[j]; !(p in part && q in part)
  {
    var lens := LightRuns(uids, p, q);
    var vals := RunWorkloads(lens, Runs(uids));
    LightRun(uids, p, q, p);
    LightRun(uids, p, q, q);
    forall z | 0 <= z < |vals| && z != p && z != q ensures vals[p] < vals[z] && vals[q] < vals[z] {
      HeavyRun(uids, p, q, z);
    }
    assert RunParts(lens, uids, k) == BalancedParts(vals, k, true);
    hide Differences, Runs, SortUp, Load, LightRuns;
    LightestSeparated(vals, k, p, q, j);
    var sorted, part := BalancedParts(vals, k, true)[j], Differences(vals, k, true)[j];
    SortUpSorts(part);
    SameElements(sorted, part);
  }

  lemma RunsDiffer<U>(uids: seq<U>, a: nat, c: nat)
    requires a <= c < |uids| && exists b :: a <= b <= c && uids[b] != uids[a]
    ensures RunIndex(uids, a) < RunIndex(uids, c) < |Runs(uids)|
  {
    hide Runs, RunIndex;
    RunIndexGrows(uids, a, c);
    RunIndexGrows(uids, c, |uids| - 1);
    RunCount(uids);
  }

  /** Two samples of different runs are separated when their runs are the lightest. */
  lemma Separated<U>(uids: seq<U>, k: nat, a: nat, c: nat, j: nat)
    requires Admissible(uids, k) && k > 1 && a <= c < |uids| && (exists b :: a <= b <= c && uids[b] != uids[a]) && j < k
    ensures var samples := GroupPartitions(LightRuns(uids, RunIndex(uids, a), RunIndex(uids, c)), uids, k);
      !(a in samples[j] && c in samples[j])
  {
    hide *;
    var p, q := RunIndex(uids, a), RunIndex(uids, c);
    RunsDiffer(uids, a, c);
    SampleIn(LightRuns(uids, p, q), uids, k, j, a);
    SampleIn(LightRuns(uids, p, q), uids, k, j, c);
    LightRunsSeparated(uids, k, p, q, j);
  }

  /** Where two samples of one uid stand in different runs, some positive lengths separate them. */
  lemma SomeSeparated<U(!new)>(uids: seq<U>, k: nat, a: nat, c: nat)
    requires Admissible(uids, k) && k > 1 && a <= c < |uids| && uids[a] == uids[c]
    requires exists b :: a <= b <= c && uids[b] != uids[a]
    ensures !Together(uids, GroupPartitions(LightRuns(uids, RunIndex(uids, a), RunIndex(uids, c)), uids, k))
  {
    hide GroupPartitions, Runs, LightRuns;
    var lens := LightRuns(uids, RunIndex(uids, a), RunIndex(uids, c));
    SamplesPartition(lens, uids, k);
    var j := PartOf(GroupPartitions(lens, uids, k), |uids|, a);
    Separated(uids, k, a, c, j);
  }

  lemma OnePartition<U>(lens: seq<nat>, uids: seq<U>, i: nat)
    requires Admissible(uids, 1) && i < |uids|
    ensures i in GroupPartitions(lens, uids, 1)[0]
  {
    hide GroupPartitions, Runs;
    SamplesPartition(lens, uids, 1);
    var j := PartOf(GroupPartitions(lens, uids, 1), |uids|, i);
  }

  lemma StaysTogether<U(!new)>(lens: seq<nat>, uids: seq<U>, k: nat)
    requires Admissible(uids, k) && (k == 1 || Contiguous(uids))
    ensures Together(uids, GroupPartitions(lens, uids, k))
  {
    hide GroupPartitions, Admissible;
    forall a: nat, c: nat, j | a <= c < |uids| && uids[a] == uids[c] && 0 <= j < k
      ensures a in GroupPartitions(lens, uids, k)[j] <==> c in GroupPartitions(lens, uids, k)[j]
    {
      if k == 1 {
        OnePartition(lens, uids, a);
        OnePartition(lens, uids, c);
      } else {
        RunsStayWhole(lens, uids, k, j, a, c);
      }
    }
  }

  /**
   * What is promised, that samples with the same uid share a partition, holds for every choice of lengths exactly
   * when there is one partition or equal uids are contiguous.
   */
  lemma TogetherIffContiguous<U(!new)>(uids: seq<U>, k: nat)
    requires Admissible(uids, k)
    ensures (forall lens: seq<nat> :: |lens| == |uids| ==> Together(uids, GroupPartitions(lens, uids, k)))
      <==> k == 1 || Contiguous(uids)
  {
    hide GroupPartitions, Together, Admissible;
    if k == 1 || Contiguous(uids) {
      forall lens: seq<nat> | |lens| == |uids| ensures Together(uids, GroupPartitions(lens, uids, k)) {
        StaysTogether(lens, uids, k);
      }
    } else {
      AtLeastOnePart(uids, k);
      var a, b, c :| 0 <= a <= b <= c < |uids| && uids[a] == uids[c] && uids[b] != uids[a];
      SomeSeparated(uids, k, a, c);
    }
  }

  lemma AtLeastOnePart<U>(uids: seq<U>, k: nat)
    requires Admissible(uids, k)
    ensures k > 0
  {
  }

  /** Uids `0, 1, 0, 2` on two partitions: the two samples of uid 0 are separated when they are the shortest. */
  lemma InterleavedUidsSeparated()
    ensures Admissible([0, 1, 0, 2], 2) && !Together([0, 1, 0, 2], GroupPartitions([1, 5, 1, 5], [0, 1, 0, 2], 2))
  {
    var uids := [0, 1, 0, 2];
    assert RunIndex(uids, 0) == 0 && RunIndex(uids, 1) == 1 && RunIndex(uids, 2) == 2 && RunIndex(uids, 3) == 3;
    RunCount(uids);
    assert LightRuns(uids, 0, 2) == [1, 5, 1, 5];
    SomeSeparated(uids, 2, 0, 2);
  }

  /** `get_group_balanced_partitions`, with `None` where it raises. */
  method GetGroupBalancedPartitions<U(==)>(lens: seq<nat>, uids: seq<U>, k: nat) returns (r: Option<seq<seq<nat>>>)
    ensures r.Some? <==> |lens| == |uids| && Admissible(uids, k)
    ensures r.Some? ==> r.value == GroupPartitions(lens, uids, k) && IsPartition(r.value, |lens|)
  {
    r := None;
    if |lens| == |uids| {
      var groups := CollectRuns(uids);
      RunWorkloadsNatural(lens, groups);
      hide BalancedParts, SortedParts;
      var balanced := GetSeqlenBalancedPartitions(RunWorkloads(lens, groups), k, true);
      if balanced.Some? {
        assert balanced.value == RunParts(lens, uids, k);
        SamplesPartition(lens, uids, k);
        var samples := SortedSamples(groups, balanced.value);
        r := Some(samples);
      }
    }
  }

  /** The loops that turn runs back into sorted samples. */
  method SortedSamples(groups: seq<seq<nat>>, parts: seq<seq<nat>>) returns (samples: seq<seq<nat>>)
    requires AllInRange(parts, |groups|)
    ensures samples == SortedParts(GatherAll(groups, parts))
  {
    samples := [];
    for j := 0 to |parts|
      invariant |samples| == j
      invariant forall m :: 0 <= m < j ==> samples[m] == SortUp(Concat<nat>(Select(groups, parts[m])))
    {
      var indices := GatherRuns(groups, parts[j]);
      samples := samples + [SortUp(indices)];
    }
  }

  method GatherRuns(groups: seq<seq<nat>>, part: seq<nat>) returns (indices: seq<nat>)
    requires InRange(part, |groups|)
    ensures indices == Concat<nat>(Select(groups, part))
  {
    indices := [];
    for i := 0 to |part|
      invariant indices == Concat<nat>(Select(groups, part)[..i])
    {
      indices := indices + groups[part[i]];
      ConcatSnoc<nat>(Select(groups, part)[..i], groups[part[i]]);
      assert Select(groups, part)[..i + 1] == Select(groups, part)[..i] + [groups[part[i]]];
    }
    assert Select(groups, part)[..|part|] == Select(groups, part);
  }
}
