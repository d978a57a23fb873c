/** How many layers every pipeline stage gets, and where its layers start. */
module PipelinePlan {
  import opened Arithmetic
  import opened Options
  import opened Seqs

  // ----- What a plan is -----

  function Distance(a: nat, b: nat): nat { if a < b then b - a else a - b }

  /**
   * A plan for at least three stages: the layers add up, the middle stages are equal, the first and the last stage
   * differ by at most one, are not empty, and are at most as large as a middle stage.
   */
  ghost predicate IsPlan(plan: seq<nat>, layers: nat, stages: nat)
    requires stages >= 3
  {
    && |plan| == stages && Sum(plan) == layers
    && (forall i :: 1 <= i < stages - 1 ==> plan[i] == plan[1])
    && 0 < plan[0] <= plan[stages - 1] <= plan[0] + 1
    && plan[stages - 1] <= plan[1]
  }

  /** The plan with `m` layers in every middle stage; `ends` are left for the first and the last. */
  function PlanOf(m: nat, ends: nat, stages: nat): (r: seq<nat>)
    requires stages >= 3
    ensures |r| == stages
  {
    [ends / 2] + seq(stages - 2, _ => m) + [ends - ends / 2]
  }

  lemma {:induction false} SumOfEqual(first: nat, m: nat, n: nat)
    ensures Sum([first] + seq(n, _ => m)) == first + n * m
  {
    if n == 0 {
      assert [first] + seq(0, _ => m) == [first];
    } else {
      SumOfEqual(first, m, n - 1);
      StepDown(n, m);
      assert [first] + seq(n, _ => m) == [first] + seq(n - 1, _ => m) + [m];
      SumSnoc([first] + seq(n - 1, _ => m), m);
    }
  }

  /** The stages before stage `r` of a plan. */
  lemma PlanPrefix(m: nat, ends: nat, stages: nat, r: nat)
    requires stages >= 3 && r <= stages
    ensures Sum(PlanOf(m, ends, stages)[..r])
         == if r == 0 then 0 else if r < stages then ends / 2 + (r - 1) * m else ends + (stages - 2) * m
  {
    var plan := PlanOf(m, ends, stages);
    if r == 0 {
    } else if r < stages {
      assert plan[..r] == [ends / 2] + seq(r - 1, _ => m);
      SumOfEqual(ends / 2, m, r - 1);
    } else {
      SumOfEqual(ends / 2, m, stages - 2);
      SumSnoc([ends / 2] + seq(stages - 2, _ => m), ends - ends / 2);
      assert plan[..stages] == plan;
    }
  }

  /** The middle sizes that leave two to `2 * m` layers for the ends. */
  predicate Admissible(m: nat, layers: nat, stages: nat)
    requires stages >= 3
  {
    (stages - 2) * m + 2 <= layers <= (stages - 2) * m + 2 * m
  }

  lemma AdmissibleIsPlan(m: nat, layers: nat, stages: nat)
    requires stages >= 3 && Admissible(m, layers, stages)
    ensures (stages - 2) * m >= 0 && IsPlan(PlanOf(m, layers - (stages - 2) * m, stages), layers, stages)
  {
    var ends := layers - (stages - 2) * m;
    var plan := PlanOf(m, ends, stages);
    PlanPrefix(m, ends, stages, stages);
    assert plan[..stages] == plan;
  }

  /** There is no other plan. */
  lemma PlanIsAdmissible(plan: seq<nat>, layers: nat, stages: nat)
    requires stages >= 3 && IsPlan(plan, layers, stages)
    ensures Admissible(plan[1], layers, stages) && plan == PlanOf(plan[1], layers - (stages - 2) * plan[1], stages)
  {
    var ends := plan[0] + plan[stages - 1];
    assert plan == PlanOf(plan[1], ends, stages);
    PlanPrefix(plan[1], ends, stages, stages);
    assert plan[..stages] == plan;
  }

  // ----- When a plan exists -----

  lemma CeilingIsAdmissible(layers: nat, stages: nat)
    requires stages >= 3 && (stages - 2) * Ceildiv(layers, stages) + 2 <= layers
    ensures Ceildiv(layers, stages) >= 0 && Admissible(Ceildiv(layers, stages), layers, stages)
  {
    var c := Ceildiv(layers, stages);
    CeildivIsLeast(layers, stages, c);
    CeildivNatural(layers, stages);
    hide Ceildiv;
    assert c * stages == (stages - 2) * c + 2 * c;
  }

  /** A plan exists exactly when the smallest sufficient middle size leaves a layer for both ends. */
  lemma PlanExists(layers: nat, stages: nat)
    requires stages >= 3
    ensures (exists plan :: IsPlan(plan, layers, stages)) <==> (stages - 2) * Ceildiv(layers, stages) + 2 <= layers
  {
    var c := Ceildiv(layers, stages);
    hide IsPlan, PlanOf, Admissible;
    if (stages - 2) * c + 2 <= layers {
      CeilingIsAdmissible(layers, stages);
      AdmissibleIsPlan(c, layers, stages);
    }
    forall plan | IsPlan(plan, layers, stages) ensures (stages - 2) * c + 2 <= layers {
      PlanNeeds(plan, layers, stages);
    }
  }

  lemma PlanNeeds(plan: seq<nat>, layers: nat, stages: nat)
    requires stages >= 3 && IsPlan(plan, layers, stages)
    ensures (stages - 2) * Ceildiv(layers, stages) + 2 <= layers
  {
    PlanIsAdmissible(plan, layers, stages);
    hide IsPlan, PlanOf;
    AdmissibleNeeds(plan[1], layers, stages);
  }

  lemma AdmissibleNeeds(m: nat, layers: nat, stages: nat)
    requires stages >= 3 && Admissible(m, layers, stages)
    ensures (stages - 2) * Ceildiv(layers, stages) + 2 <= layers
  {
    assert layers <= m * stages;
    CeildivIsLeast(layers, stages, m);
    hide Ceildiv;
    Monotone(Ceildiv(layers, stages), m, stages - 2);
  }

  /** Five layers on four stages: enough layers for every stage, but no plan. */
  lemma NoPlanForFiveOnFour()
    ensures !exists plan :: IsPlan(plan, 5, 4)
  {
    PlanExists(5, 4);
  }

  // ----- The program -----

  /** The first candidate with the smallest distance: the head of the stable sort. */
  method FirstSmallest(candidates: seq<(seq<nat>, nat)>) returns (k: nat)
    requires candidates != []
    ensures k < |candidates| && forall i :: 0 <= i < |candidates| ==> candidates[k].1 <= candidates[i].1
    ensures forall i :: 0 <= i < k ==> candidates[k].1 < candidates[i].1
  {
    k := 0;
    for i := 1 to |candidates|
      invariant k < i <= |candidates|
      invariant forall j :: 0 <= j < i ==> candidates[k].1 <= candidates[j].1
      invariant forall j :: 0 <= j < k ==> candidates[k].1 < candidates[j].1
    {
      if candidates[i].1 < candidates[k].1 {
        k := i;
      }
    }
  }

  /** One turn of the loop: the plan with `m` layers in every middle stage, if there is one. */
  method Candidate(layers: nat, stages: nat, m: nat) returns (r: Option<seq<nat>>)
    requires stages >= 3
    ensures r.Some? ==> IsPlan(r.value, layers, stages) && r.value[1] == m
    ensures forall plan :: IsPlan(plan, layers, stages) && plan[1] == m ==> r == Some(plan)
  {
    var ends := layers - m * (stages - 2);
    var first, last := ends / 2, ends - ends / 2;
    forall plan | IsPlan(plan, layers, stages) && plan[1] == m
      ensures 0 < first <= m && 0 < last <= m && plan == PlanOf(m, ends, stages)
    {
      PlanIsAdmissible(plan, layers, stages);
    }
    hide IsPlan;
    r := None;
    if 0 < first <= m && 0 < last <= m {
      AdmissibleIsPlan(m, layers, stages);
      r := Some([first] + seq(stages - 2, _ => m) + [last]);
    }
  }

  ghost predicate Lists(candidates: seq<(seq<nat>, nat)>, plan: seq<nat>) {
    exists i :: 0 <= i < |candidates| && candidates[i].0 == plan
  }

  /** The loop over the middle sizes: all plans, with the distance between the first and the middle size. */
  method Candidates(layers: nat, stages: nat) returns (r: seq<(seq<nat>, nat)>)
    requires stages >= 3
    ensures forall i :: 0 <= i < |r| ==> IsPlan(r[i].0, layers, stages) && r[i].1 == Distance(r[i].0[0], r[i].0[1])
    ensures forall plan :: IsPlan(plan, layers, stages) ==> Lists(r, plan)
  {
    forall plan | IsPlan(plan, layers, stages) ensures plan[1] < layers && |plan| == stages {
      PlanIsAdmissible(plan, layers, stages);
      AtLeastAsMany(1, stages - 2, plan[1]);
    }
    hide IsPlan;
    r := [];
    for m := 0 to layers
      invariant forall i :: 0 <= i < |r| ==>
        IsPlan(r[i].0, layers, stages) && |r[i].0| == stages && r[i].1 == Distance(r[i].0[0], r[i].0[1])
      invariant forall plan :: IsPlan(plan, layers, stages) && plan[1] < m ==> Lists(r, plan)
    {
      var plan := Candidate(layers, stages, m);
      ghost var before := r;
      if plan.Some? {
        r := r + [(plan.value, Distance(plan.value[0], plan.value[1]))];
        assert r[|before|].0 == plan.value;
      }
      forall p | IsPlan(p, layers, stages) && p[1] < m + 1 ensures Lists(r, p) {
        if p[1] < m {
          var i :| 0 <= i < |before| && before[i].0 == p;
          assert r[i].0 == p;
        }
      }
    }
  }

  /** What the program promises about its result. */
  ghost predicate IsResult(shards: seq<nat>, layers: nat, stages: nat) {
    && |shards| == stages && Sum(shards) == layers && (forall i :: 0 <= i < stages ==> shards[i] > 0)
    && (stages == 2 ==> shards[0] <= shards[1] <= shards[0] + 1)
    && (stages >= 3 ==>
          && IsPlan(shards, layers, stages)
          && forall plan :: IsPlan(plan, layers, stages) ==> Distance(shards[0], shards[1]) <= Distance(plan[0], plan[1]))
  }

  /** `get_dynamic_pipeline_shards`; nothing is returned where it raises. */
  method GetDynamicPipelineShards(layers: nat, stages: nat) returns (r: Option<seq<nat>>)
    ensures r.Some? <==>
      1 <= stages <= layers && (stages >= 3 ==> (stages - 2) * Ceildiv(layers, stages) + 2 <= layers)
    ensures r.Some? ==> IsResult(r.value, layers, stages)
  {
    if layers < stages || stages < 1 {
      return None;
    }
    if stages == 1 {
      SumSnoc([], layers);
      assert [] + [layers] == [layers];
      return Some([layers]);
    }
    if stages == 2 {
      SumOfTwo(layers / 2, layers - layers / 2);
      return Some([layers / 2, layers - layers / 2]);
    }
    PlanExists(layers, stages);
    var candidates := Candidates(layers, stages);
    assert forall i :: 0 <= i < |candidates| ==> IsPlan(candidates[i].0, layers, stages);
    if candidates == [] {
      return None;
    }
    var k := FirstSmallest(candidates);
    var shards := candidates[k].0;
    if Sum(shards) != layers {
      return None;
    }
    forall plan | IsPlan(plan, layers, stages) ensures Distance(shards[0], shards[1]) <= Distance(plan[0], plan[1]) {
      var i :| 0 <= i < |candidates| && candidates[i].0 == plan;
    }
    r := Some(shards);
  }

  lemma SumOfTwo(a: nat, b: nat)
    ensures Sum([a, b]) == a + b
  {
    SumSnoc([a], b);
    SumSnoc([], a);
    assert [a] + [b] == [a, b] && [] + [a] == [a];
  }

  // ----- Where the layers of a stage start -----

  /** The part of the transformer configuration that the offsets depend on. */
  datatype Config = Config(stages: nat, layers: nat, first: Option<nat>, last: Option<nat>)

  /** The configuration that the merger builds. */
  function MergerConfig(layers: nat, shards: seq<nat>): Config {
    Config(|shards|, layers, if |shards| > 1 then Some(shards[0]) else None,
           if |shards| > 2 then Some(shards[|shards| - 1]) else None)
  }

  /** `get_transformer_layer_offset` without a layout and without virtual stages. */
  function LayerOffset(rank: nat, c: Config): int {
    if c.stages <= 1 then 0
    else if c.first.Some? || c.last.Some? then
      var middleStages := c.stages - (if c.first.Some? then 1 else 0) - (if c.last.Some? then 1 else 0);
      var first := if c.first.Some? then c.first.value else 0;
      var last := if c.last.Some? then c.last.value else 0;
      var perRank := if middleStages > 0 then (c.layers - first - last) / middleStages else 0;
      var middleRank := if c.first == None then rank else rank - 1;
      if rank == 0 then 0 else middleRank * perRank + first
    else rank * (c.layers / c.stages)
  }

  /** Every stage starts where the stages before it end. */
  lemma OffsetsAreStarts(layers: nat, stages: nat, shards: seq<nat>, rank: nat)
    requires IsResult(shards, layers, stages) && rank < stages
    ensures LayerOffset(rank, MergerConfig(layers, shards)) == Sum(shards[..rank])
  {
    if stages >= 3 {
      PlanIsAdmissible(shards, layers, stages);
      var m, n := shards[1], stages - 2;
      PlanPrefix(m, layers - n * m, stages, rank);
      Commutes(n, m);
      QuotientIs(n, m, 0);
    } else if rank == 1 {
      SumSnoc([], shards[0]);
      assert shards[..1] == [] + [shards[0]];
      SumOfTwo(shards[0], shards[1]);
      assert shards == [shards[0], shards[1]];
    }
  }

  lemma {:induction false} PrefixesGrow(shards: seq<nat>, r: nat, s: nat)
    requires r <= s <= |shards|
    ensures Sum(shards[..r]) <= Sum(shards[..s])
  {
    if r < s {
      PrefixesGrow(shards, r, s - 1);
      SumSnoc(shards[..s - 1], shards[s - 1]);
      assert shards[..s] == shards[..s - 1] + [shards[s - 1]];
    }
  }

  /** Every layer of the model is a layer of exactly one stage. */
  lemma {:induction false} StageOfLayer(shards: seq<nat>, layer: nat) returns (rank: nat)
    requires layer < Sum(shards)
    ensures rank < |shards| && Sum(shards[..rank]) <= layer < Sum(shards[..rank]) + shards[rank]
    ensures forall s :: 0 <= s < |shards| && Sum(shards[..s]) <= layer < Sum(shards[..s]) + shards[s] ==> s == rank
    decreases |shards|
  {
    var n := |shards| - 1;
    if layer < Sum(shards[..n]) {
      rank := StageOfLayer(shards[..n], layer);
      assert shards[..n][..rank] == shards[..rank];
    } else {
      rank := n;
    }
    forall s | 0 <= s < |shards| && s != rank
      ensures layer < Sum(shards[..s]) || Sum(shards[..s]) + shards[s] <= layer
    {
      if s < rank {
        StageEnds(shards, s, rank);
      } else {
        StageEnds(shards, rank, s);
      }
    }
  }

  /** A later stage starts at or after the end of an earlier one. */
  lemma StageEnds(shards: seq<nat>, r: nat, s: nat)
    requires r < s < |shards|
    ensures Sum(shards[..r]) + shards[r] <= Sum(shards[..s])
  {
    SumSnoc(shards[..r], shards[r]);
    assert shards[..r + 1] == shards[..r] + [shards[r]];
    PrefixesGrow(shards, r + 1, s);
  }

  // ----- The layer numbers of the merged dictionaries -----

  function Largest(numbers: seq<nat>): nat {
    if numbers == [] then 0 else Max(Largest(numbers[..|numbers| - 1]), numbers[|numbers| - 1])
  }

  lemma {:induction false} LargestIs(numbers: seq<nat>, k: nat)
    requires k < |numbers|
    ensures numbers[k] <= Largest(numbers)
    decreases |numbers|
  {
    if k < |numbers| - 1 {
      LargestIs(numbers[..|numbers| - 1], k);
    }
  }

  /**
   * How many numbers every dictionary takes, given the local layer number of each of its layer keys: one more than
   * the largest, and one number also without any layer key.
   */
  function BlockSizes(dicts: seq<seq<nat>>): (sizes: seq<nat>)
    ensures |sizes| == |dicts| && forall i :: 0 <= i < |dicts| ==> sizes[i] == Largest(dicts[i]) + 1
  {
    seq(|dicts|, i requires 0 <= i < |dicts| => Largest(dicts[i]) + 1)
  }

  /** The loop over the keys of one dictionary. */
  method RenumberDict(numbers: seq<nat>, layersCum: nat) returns (renumbered: seq<nat>, handled: nat)
    ensures handled == Largest(numbers) && |renumbered| == |numbers|
    ensures forall k :: 0 <= k < |numbers| ==> renumbered[k] == layersCum + numbers[k]
  {
    renumbered, handled := [], 0;
    for k := 0 to |numbers|
      invariant |renumbered| == k && forall l :: 0 <= l < k ==> renumbered[l] == layersCum + numbers[l]
      invariant handled == Largest(numbers[..k])
    {
      assert numbers[..k + 1][..k] == numbers[..k];
      handled := Max(numbers[k], handled);
      renumbered := renumbered + [numbers[k] + layersCum];
    }
    assert numbers[..|numbers|] == numbers;
  }

  /**
   * The layer numbers of `_merge_state_dicts`: the dictionaries of one rank, whose first layer is `start`, get
   * consecutive blocks of numbers.
   */
  method RenumberLayers(dicts: seq<seq<nat>>, start: nat) returns (r: seq<seq<nat>>)
    ensures |r| == |dicts| && forall i :: 0 <= i < |r| ==> |r[i]| == |dicts[i]|
    ensures forall i, k :: 0 <= i < |r| && 0 <= k < |r[i]| ==> r[i][k] == start + Sum(BlockSizes(dicts)[..i]) + dicts[i][k]
  {
    hide Sum, Largest;
    ghost var sizes := BlockSizes(dicts);
    r := [];
    var layersCum := start;
    NoBlocks(sizes);
    for i := 0 to |dicts|
      invariant layersCum == start + Sum(sizes[..i])
      invariant |r| == i && forall j :: 0 <= j < i ==> |r[j]| == |dicts[j]|
      invariant forall j, k :: 0 <= j < i && 0 <= k < |r[j]| ==> r[j][k] == start + Sum(sizes[..j]) + dicts[j][k]
    {
      var renumbered, handled := RenumberDict(dicts[i], layersCum);
      r := r + [renumbered];
      layersCum := layersCum + handled + 1;
      SumSnoc(sizes[..i], sizes[i]);
      assert sizes[..i + 1] == sizes[..i] + [sizes[i]];
    }
  }

  lemma NoBlocks(sizes: seq<nat>)
    ensures Sum(sizes[..0]) == 0
  {
  }

  /** The blocks do not overlap: a layer of an earlier dictionary gets a smaller number than one of a later dictionary. */
  lemma BlocksAreApart(dicts: seq<seq<nat>>, i: nat, k: nat, j: nat, l: nat)
    requires i < j < |dicts| && k < |dicts[i]| && l < |dicts[j]|
    ensures Sum(BlockSizes(dicts)[..i]) + dicts[i][k] < Sum(BlockSizes(dicts)[..j]) + dicts[j][l]
  {
    LargestIs(dicts[i], k);
    StageEnds(BlockSizes(dicts), i, j);
    hide Sum;
  }

  /** A rank whose dictionaries hold exactly its layers numbers them from its start to its end. */
  lemma BlocksFillStage(dicts: seq<seq<nat>>, layers: nat, i: nat, k: nat)
    requires Sum(BlockSizes(dicts)) == layers && i < |dicts| && k < |dicts[i]|
    ensures Sum(BlockSizes(dicts)[..i]) + dicts[i][k] < layers
  {
    var sizes := BlockSizes(dicts);
    LargestIs(dicts[i], k);
    SumSnoc(sizes[..i], sizes[i]);
    assert sizes[..i + 1] == sizes[..i] + [sizes[i]];
    PrefixesGrow(sizes, i + 1, |sizes|);
    assert sizes[..|sizes|] == sizes;
    hide Sum;
  }
}
