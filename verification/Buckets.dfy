/** What is transferred: the buckets the sender forms, and their metadata. */
module Buckets {
  import opened Seqs
  import opened Weights
  import Packing

  /** `groups` are the buckets the sender forms, `cap` is `bucket_size`, `ranks` the number of rollout ranks. */
  datatype Config = Config(groups: seq<seq<Weight>>, cap: nat, ranks: nat)

  ghost predicate ValidConfig(c: Config) {
    && c.ranks >= 1
    && c.groups != []
    && forall k :: 0 <= k < |c.groups| ==> |Flat(c.groups[k])| <= c.cap && DistinctNames(c.groups[k])
  }

  datatype BucketMeta = BucketMeta(entries: seq<Entry>, isLast: bool)

  function MetaOf(c: Config, k: nat): BucketMeta
    requires k < |c.groups|
  {
    BucketMeta(Metas(c.groups[k]), k == |c.groups| - 1)
  }

  function Overwrite(buf: seq<Byte>, offset: nat, data: seq<Byte>): seq<Byte>
    requires offset + |data| <= |buf|
  {
    buf[..offset] + data + buf[offset + |data|..]
  }

  lemma OverwriteExtends(buf: seq<Byte>, front: seq<Byte>, data: seq<Byte>)
    requires front <= buf && |front| + |data| <= |buf|
    ensures front + data <= Overwrite(buf, |front|, data) && |Overwrite(buf, |front|, data)| == |buf|
  {
  }

  /** The next weight of a bucket that fits follows the packed bytes, and fits as well. */
  lemma NextFits(group: seq<Weight>, j: nat, cap: nat)
    requires |Flat(group)| <= cap && j < |group|
    ensures Flat(group[..j + 1]) == Flat(group[..j]) + group[j].data && |Flat(group[..j + 1])| <= cap
  {
    FlatPrefix(group, j);
    FlatSnoc(group[..j], group[j]);
    assert group[..j + 1] == group[..j] + [group[j]];
  }

  lemma {:induction false} PartsHaveDistinctNames(parts: seq<seq<Weight>>, k: nat)
    requires DistinctNames(Concat(parts)) && k < |parts|
    ensures DistinctNames(parts[k])
  {
    ConcatTake(parts, k);
    var before, part := Concat(parts[..k]), parts[k];
    forall i, j | 0 <= i < j < |part| ensures part[i].name != part[j].name {
      assert Concat(parts)[|before| + i] == (before + part)[|before| + i] == part[i];
      assert Concat(parts)[|before| + j] == (before + part)[|before| + j] == part[j];
    }
  }

  /** The transfer of the buckets the packing loop forms. */
  function PackedConfig(weights: seq<Weight>, bucketSize: nat, ranks: nat): Config {
    Config(Packing.Groups(weights, bucketSize), bucketSize, ranks)
  }

  lemma PackedConfigIsValid(weights: seq<Weight>, bucketSize: nat, ranks: nat)
    requires DistinctNames(weights) && Packing.AllFit(weights, bucketSize) && ranks >= 1
    ensures ValidConfig(PackedConfig(weights, bucketSize, ranks))
    ensures Concat(PackedConfig(weights, bucketSize, ranks).groups) == weights
  {
    var c := PackedConfig(weights, bucketSize, ranks);
    Packing.GroupsAreASplit(weights, bucketSize);
    forall k | 0 <= k < |c.groups| ensures |Flat(c.groups[k])| <= c.cap && DistinctNames(c.groups[k]) {
      assert Packing.Load(c.groups[k]) <= bucketSize;
      PartsHaveDistinctNames(c.groups, k);
    }
  }
}
