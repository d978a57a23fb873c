/** How the trainer ranks of the Kimi engine share the weights among them, and group them into buckets. */
module KimiBuckets {
  import opened Options
  import opened Seqs
  import opened Weights
  import opened Packing

  /** The rank that takes the weight number `i`. */
  function TakerOf(i: nat, ranks: nat): (r: nat)
    requires ranks > 0
    ensures r < ranks
  {
    i % ranks
  }

  /** The weights of one rank. */
  function Share(ws: seq<Weight>, ranks: nat, rank: nat): seq<Weight>
    requires ranks > 0
  {
    if ws == [] then [] else
      var last := |ws| - 1;
      Share(ws[..last], ranks, rank) + if TakerOf(last, ranks) == rank then [ws[last]] else []
  }

  function Shares(ws: seq<Weight>, ranks: nat): (r: seq<seq<Weight>>)
    requires ranks > 0
    ensures |r| == ranks
  {
    seq(ranks, rank requires 0 <= rank < ranks => Share(ws, ranks, rank))
  }

  /** Across the ranks, every weight is taken exactly once. */
  lemma {:induction false} SharesPartition(ws: seq<Weight>, ranks: nat)
    requires ranks > 0
    ensures multiset(Concat(Shares(ws, ranks))) == multiset(ws)
    decreases |ws|
  {
    if ws == [] {
      EmptyShares(Shares(ws, ranks));
    } else {
      var last := |ws| - 1;
      SharesPartition(ws[..last], ranks);
      SharesGrow(ws[..last], ws[last], ranks);
      assert ws == ws[..last] + [ws[last]];
    }
  }

  lemma SharesGrow(ws: seq<Weight>, w: Weight, ranks: nat)
    requires ranks > 0
    ensures multiset(Concat(Shares(ws + [w], ranks))) == multiset(Concat(Shares(ws, ranks))) + multiset{w}
  {
    hide TakerOf, Concat;
    var before, k := Shares(ws, ranks), TakerOf(|ws|, ranks);
    forall rank | 0 <= rank < ranks
      ensures Share(ws + [w], ranks, rank) == if rank == k then before[rank] + [w] else before[rank]
    {
      assert (ws + [w])[..|ws|] == ws;
    }
    assert Shares(ws + [w], ranks) == before[k := before[k] + [w]];
    ConcatGrows(before, k, w);
  }

  lemma {:induction false} EmptyShares(parts: seq<seq<Weight>>)
    requires forall k :: 0 <= k < |parts| ==> parts[k] == []
    ensures Concat(parts) == []
    decreases |parts|
  {
    if parts != [] {
      EmptyShares(parts[..|parts| - 1]);
    }
  }

  // ----- The buckets of one rank -----

  /** `current_bucket[name] = tensor`: a known name keeps its place. */
  function Insert(bucket: seq<Weight>, w: Weight): seq<Weight> {
    if bucket == [] then [w]
    else if bucket[0].name == w.name then [w] + bucket[1..]
    else [bucket[0]] + Insert(bucket[1..], w)
  }

  /** The dictionary that holds the weights of a group. */
  function Dictionary(group: seq<Weight>): seq<Weight> {
    if group == [] then [] else Insert(Dictionary(group[..|group| - 1]), group[|group| - 1])
  }

  function Dictionaries(groups: seq<seq<Weight>>): (r: seq<seq<Weight>>)
    ensures |r| == |groups| && forall k :: 0 <= k < |groups| ==> r[k] == Dictionary(groups[k])
  {
    seq(|groups|, k requires 0 <= k < |groups| => Dictionary(groups[k]))
  }

  lemma {:induction false} InsertNew(bucket: seq<Weight>, w: Weight)
    requires forall i :: 0 <= i < |bucket| ==> bucket[i].name != w.name
    ensures Insert(bucket, w) == bucket + [w]
  {
    if bucket != [] {
      InsertNew(bucket[1..], w);
    }
  }

  /** Under distinct names the dictionary holds the whole group in order. */
  lemma {:induction false} DictionaryIsGroup(group: seq<Weight>)
    requires DistinctNames(group)
    ensures Dictionary(group) == group
    decreases |group|
  {
    if group != [] {
      var front, last := group[..|group| - 1], group[|group| - 1];
      assert group == front + [last];
      DictionaryIsGroup(front);
      InsertNew(front, last);
    }
  }

  /** A group exceeds the limit only when it holds a single weight. */
  ghost predicate FitsOrSingle(group: seq<Weight>, limit: nat) {
    group != [] && (Load(group) <= limit || |group| == 1)
  }

  /** The groups divide the share in order, and none could have taken the first weight of the next one. */
  ghost predicate Grouped(groups: seq<seq<Weight>>, share: seq<Weight>, limit: nat) {
    && Concat(groups) == share
    && (forall k :: 0 <= k < |groups| ==> FitsOrSingle(groups[k], limit))
    && (forall k :: 0 <= k < |groups| - 1 ==> Load(groups[k]) + |groups[k + 1][0].data| > limit)
  }

  /** The loop state: the groups closed, and the one being filled, which is empty only before the first weight. */
  ghost predicate Running(closed: seq<seq<Weight>>, open: seq<Weight>, share: seq<Weight>, limit: nat) {
    if open == [] then closed == [] && share == [] else Grouped(closed + [open], share, limit)
  }

  lemma OpenGrows(closed: seq<seq<Weight>>, open: seq<Weight>, share: seq<Weight>, limit: nat, w: Weight)
    requires Grouped(closed + [open], share, limit) && open != [] && Load(open) + |w.data| <= limit
    ensures Grouped(closed + [open + [w]], share + [w], limit)
  {
    hide Flat;
    LoadSnoc(open, w);
    ConcatSnoc(closed, open);
    ConcatSnoc(closed, open + [w]);
    var before, after := closed + [open], closed + [open + [w]];
    forall k | 0 <= k < |after| ensures FitsOrSingle(after[k], limit) {
      assert FitsOrSingle(before[k], limit);
    }
    forall k | 0 <= k < |after| - 1 ensures Load(after[k]) + |after[k + 1][0].data| > limit {
      assert Load(before[k]) + |before[k + 1][0].data| > limit;
    }
  }

  lemma NextOpens(closed: seq<seq<Weight>>, share: seq<Weight>, limit: nat, w: Weight)
    requires Grouped(closed, share, limit)
    requires closed != [] ==> Load(closed[|closed| - 1]) + |w.data| > limit
    ensures Grouped(closed + [[w]], share + [w], limit)
  {
    hide Flat;
    LoadOne(w);
    ConcatSnoc(closed, [w]);
    var after := closed + [[w]];
    forall k | 0 <= k < |after| - 1 ensures Load(after[k]) + |after[k + 1][0].data| > limit {
      if k < |closed| - 1 {
        assert Load(closed[k]) + |closed[k + 1][0].data| > limit;
      }
    }
  }

  lemma GroupTakes(closed: seq<seq<Weight>>, open: seq<Weight>, w: Weight, limit: nat, share: seq<Weight>)
    requires Running(closed, open, share, limit)
    ensures if Load(open) + |w.data| > limit && open != [] then Running(closed + [open], [w], share + [w], limit)
      else Running(closed, open + [w], share + [w], limit)
  {
    hide Grouped, Load;
    if open == [] {
      NoGroups(limit);
      NextOpens([], [], limit, w);
      assert [] + [[w]] == [[w]] && open + [w] == [w] && closed + [[w]] == [[w]];
    } else if Load(open) + |w.data| > limit {
      NextOpens(closed + [open], share, limit, w);
    } else {
      OpenGrows(closed, open, share, limit, w);
    }
  }

  lemma DictionarySnoc(group: seq<Weight>, w: Weight)
    ensures Dictionary(group + [w]) == Insert(Dictionary(group), w) && Dictionary(group + [w]) != []
    ensures Load(group + [w]) == Load(group) + |w.data|
  {
    assert (group + [w])[..|group|] == group;
    LoadSnoc(group, w);
  }

  lemma DictionariesSnoc(groups: seq<seq<Weight>>, group: seq<Weight>)
    ensures Dictionaries(groups + [group]) == Dictionaries(groups) + [Dictionary(group)]
  {
  }

  /** One turn of the loop for a weight of this rank. */
  method TakeWeight(buckets: seq<seq<Weight>>, bucket: seq<Weight>, size: nat, w: Weight, limit: nat,
                    ghost closed: seq<seq<Weight>>, ghost open: seq<Weight>, ghost share: seq<Weight>)
    returns (buckets': seq<seq<Weight>>, bucket': seq<Weight>, size': nat,
             ghost closed': seq<seq<Weight>>, ghost open': seq<Weight>)
    requires Running(closed, open, share, limit) && (bucket == [] <==> open == [])
    requires buckets == Dictionaries(closed) && bucket == Dictionary(open) && size == Load(open)
    ensures Running(closed', open', share + [w], limit) && bucket' != [] && open' != []
    ensures buckets' == Dictionaries(closed') && bucket' == Dictionary(open') && size' == Load(open')
  {
    hide Running, Grouped, Load, Dictionary, Insert;
    GroupTakes(closed, open, w, limit, share);
    buckets', bucket', size' := buckets, bucket, size;
    closed', open' := closed, open;
    if size + |w.data| > limit {
      if bucket != [] {
        DictionariesSnoc(closed, open);
        buckets', bucket', size' := buckets + [bucket], [], 0;
        closed', open' := closed + [open], [];
        EmptyGroup();
      }
    }
    DictionarySnoc(open', w);
    assert open' == [] ==> open' + [w] == [w];
    bucket', size', open' := Insert(bucket', w), size' + |w.data|, open' + [w];
  }

  lemma EmptyGroup()
    ensures Load([]) == 0 && Dictionary([]) == []
  {
  }

  lemma NoGroups(limit: nat)
    ensures Grouped([], [], limit)
  {
  }

  /**
   * `ckpt_get_named_tensor_buckets` on weights of the rollout type; nothing is returned where it raises. The buckets
   * are the dictionaries of consecutive groups of the rank's share.
   */
  method NamedTensorBuckets(ws: seq<Weight>, bucketBytes: int, ranks: nat, rank: nat)
    returns (r: Option<seq<seq<Weight>>>, ghost groups: seq<seq<Weight>>)
    requires ranks > 0
    ensures r == None <==> bucketBytes <= 0
    ensures r.Some? ==> Grouped(groups, Share(ws, ranks, rank), bucketBytes) && r.value == Dictionaries(groups)
  {
    groups := [];
    if bucketBytes <= 0 {
      return None, [];
    }
    hide Running, Grouped, Load, TakerOf, Dictionary;
    var buckets: seq<seq<Weight>>, bucket: seq<Weight>, size: nat := [], [], 0;
    ghost var open: seq<Weight> := [];
    EmptyGroup();
    NothingRuns(bucketBytes);
    for i := 0 to |ws|
      invariant Running(groups, open, Share(ws[..i], ranks, rank), bucketBytes) && (bucket == [] <==> open == [])
      invariant buckets == Dictionaries(groups) && bucket == Dictionary(open) && size == Load(open)
    {
      assert ws[..i + 1][..i] == ws[..i];
      if TakerOf(i, ranks) == rank {
        buckets, bucket, size, groups, open :=
          TakeWeight(buckets, bucket, size, ws[i], bucketBytes, groups, open, Share(ws[..i], ranks, rank));
      }
    }
    assert ws[..|ws|] == ws;
    LastCloses(groups, open, Share(ws, ranks, rank), bucketBytes);
    if bucket != [] {
      DictionariesSnoc(groups, open);
      buckets, groups := buckets + [bucket], groups + [open];
    }
    r := Some(buckets);
  }

  lemma NothingRuns(limit: nat)
    ensures Running([], [], [], limit)
  {
  }

  lemma LastCloses(closed: seq<seq<Weight>>, open: seq<Weight>, share: seq<Weight>, limit: nat)
    requires Running(closed, open, share, limit)
    ensures Grouped(if open == [] then closed else closed + [open], share, limit)
  {
    NoGroups(limit);
  }

  lemma {:induction false} ShareNamesDistinct(ws: seq<Weight>, ranks: nat, rank: nat)
    requires ranks > 0 && DistinctNames(ws)
    ensures DistinctNames(Share(ws, ranks, rank))
    decreases |ws|
  {
    if ws != [] {
      var last := |ws| - 1;
      ShareNamesDistinct(ws[..last], ranks, rank);
      forall i | 0 <= i < |Share(ws[..last], ranks, rank)| ensures Share(ws[..last], ranks, rank)[i].name != ws[last].name {
        var j := ShareMember(ws[..last], ranks, rank, i);
      }
      hide Share;
    }
  }

  lemma {:induction false} ShareMember(ws: seq<Weight>, ranks: nat, rank: nat, i: nat) returns (j: nat)
    requires ranks > 0 && i < |Share(ws, ranks, rank)|
    ensures j < |ws| && Share(ws, ranks, rank)[i] == ws[j]
    decreases |ws|
  {
    var last := |ws| - 1;
    if i < |Share(ws[..last], ranks, rank)| {
      j := ShareMember(ws[..last], ranks, rank, i);
    } else {
      j := last;
    }
  }

  /** Under distinct names the buckets hold all weights of the share, in order. */
  lemma BucketsHoldShare(ws: seq<Weight>, ranks: nat, rank: nat, limit: nat, groups: seq<seq<Weight>>)
    requires ranks > 0 && DistinctNames(ws) && Grouped(groups, Share(ws, ranks, rank), limit)
    ensures Dictionaries(groups) == groups && Concat(Dictionaries(groups)) == Share(ws, ranks, rank)
  {
    hide Share, Load, Dictionary;
    ShareNamesDistinct(ws, ranks, rank);
    forall k | 0 <= k < |groups| ensures Dictionary(groups[k]) == groups[k] {
      ConcatTake(groups, k);
      GroupNamesDistinct(Concat(groups), Concat(groups[..k]), groups[k]);
      DictionaryIsGroup(groups[k]);
    }
  }

  lemma GroupNamesDistinct(all: seq<Weight>, before: seq<Weight>, group: seq<Weight>)
    requires DistinctNames(all) && before + group <= all
    ensures DistinctNames(group)
  {
    forall i, j | 0 <= i < j < |group| ensures group[i].name != group[j].name {
      assert all[|before| + i] == group[i] && all[|before| + j] == group[j];
    }
  }
}
