/** Named weight tensors as byte strings, and the byte layout of one transfer bucket. */
module Weights {

  newtype Byte = b: int | 0 <= b < 256

  datatype DType = DType(name: string, itemsize: nat)

  /** `shape.numel()`: the product of the dimensions. */
  function Numel(shape: seq<nat>): nat {
    if shape == [] then 1 else shape[0] * Numel(shape[1..])
  }

  function NumBytes(dtype: DType, shape: seq<nat>): nat {
    dtype.itemsize * Numel(shape)
  }

  datatype Tensor = Tensor(name: string, dtype: DType, shape: seq<nat>, data: seq<Byte>)

  /** A contiguous tensor: `data` is its row-major content, `nbytes` long. */
  type Weight = t: Tensor | |t.data| == NumBytes(t.dtype, t.shape)
    witness Tensor("", DType("uint8", 1), [0], [])

  /** One value of the `bucket_meta` dictionary; the key is `name`. */
  datatype Entry = Entry(name: string, dtype: DType, shape: seq<nat>, offset: nat) {
    function Size(): nat { NumBytes(dtype, shape) }
  }

  /** The bytes of consecutive weights, packed without gaps. */
  function Flat(group: seq<Weight>): seq<Byte> {
    if group == [] then [] else Flat(group[..|group| - 1]) + group[|group| - 1].data
  }

  /** Insertion into an insertion-ordered dictionary: an existing key keeps its place. */
  function Put(meta: seq<Entry>, e: Entry): seq<Entry> {
    if meta == [] then [e]
    else if meta[0].name == e.name then [e] + meta[1..]
    else [meta[0]] + Put(meta[1..], e)
  }

  /** The `bucket_meta` that the send loop builds while it packs `group`. */
  function Metas(group: seq<Weight>): seq<Entry> {
    if group == [] then []
    else Put(Metas(group[..|group| - 1]), EntryOf(group, |group| - 1))
  }

  function EntryOf(group: seq<Weight>, j: nat): Entry
    requires j < |group|
  {
    Entry(group[j].name, group[j].dtype, group[j].shape, |Flat(group[..j])|)
  }

  /** The tensor a receiver cuts out of its buffer for one entry. */
  function Cut(buf: seq<Byte>, e: Entry): Weight
    requires e.offset + e.Size() <= |buf|
  {
    Tensor(e.name, e.dtype, e.shape, buf[e.offset..e.offset + e.Size()])
  }

  ghost predicate DistinctNames(group: seq<Weight>) {
    forall i, j :: 0 <= i < j < |group| ==> group[i].name != group[j].name
  }

  lemma FlatSnoc(group: seq<Weight>, w: Weight)
    ensures Flat(group + [w]) == Flat(group) + w.data
  {
    assert (group + [w])[..|group|] == group;
  }

  lemma {:induction false} FlatPrefix(group: seq<Weight>, j: nat)
    requires j <= |group|
    ensures Flat(group[..j]) <= Flat(group)
    ensures j < |group| ==> |Flat(group[..j])| + |group[j].data| <= |Flat(group)|
                            && Flat(group)[|Flat(group[..j])|..|Flat(group[..j])| + |group[j].data|] == group[j].data
    decreases |group|
  {
    if j == |group| {
      assert group[..j] == group;
    } else {
      var front := group[..|group| - 1];
      assert front[..j] == group[..j];
      FlatPrefix(front, j);
      if j == |group| - 1 {
        assert group[..j] == front;
      } else {
        assert front[j] == group[j];
      }
    }
  }

  lemma {:induction false} PutNew(meta: seq<Entry>, e: Entry)
    requires forall i :: 0 <= i < |meta| ==> meta[i].name != e.name
    ensures Put(meta, e) == meta + [e]
  {
    if meta != [] {
      PutNew(meta[1..], e);
    }
  }

  predicate HasName(meta: seq<Entry>, name: string) {
    meta != [] && (meta[0].name == name || HasName(meta[1..], name))
  }

  lemma {:induction false} PutSize(meta: seq<Entry>, e: Entry)
    ensures |Put(meta, e)| == if HasName(meta, e.name) then |meta| else |meta| + 1
  {
    if meta != [] {
      PutSize(meta[1..], e);
    }
  }

  lemma {:induction false} PutKeys(meta: seq<Entry>, e: Entry, name: string)
    ensures HasName(Put(meta, e), name) <==> HasName(meta, name) || name == e.name
  {
    if meta != [] {
      PutKeys(meta[1..], e, name);
    }
  }

  /** Every name of the group is a key of its dictionary. */
  lemma {:induction false} MetasKeys(group: seq<Weight>, i: nat)
    requires i < |group|
    ensures HasName(Metas(group), group[i].name)
    decreases |group|
  {
    var front := group[..|group| - 1];
    PutKeys(Metas(front), EntryOf(group, |group| - 1), group[i].name);
    if i < |front| {
      MetasKeys(front, i);
    }
  }

  lemma {:induction false} MetasSize(group: seq<Weight>)
    ensures |Metas(group)| <= |group|
    decreases |group|
  {
    if group != [] {
      MetasSize(group[..|group| - 1]);
      PutSize(Metas(group[..|group| - 1]), EntryOf(group, |group| - 1));
    }
  }

  /** With distinct names the dictionary lists the weights in order, each with the offset of its bytes. */
  lemma {:induction false} MetasInOrder(group: seq<Weight>)
    requires DistinctNames(group)
    ensures |Metas(group)| == |group|
    ensures forall j :: 0 <= j < |group| ==> Metas(group)[j] == EntryOf(group, j)
    decreases |group|
  {
    if group != [] {
      var front := group[..|group| - 1];
      MetasInOrder(front);
      forall j | 0 <= j < |front| ensures EntryOf(front, j) == EntryOf(group, j) {
        assert front[..j] == group[..j];
      }
      PutNew(Metas(front), EntryOf(group, |group| - 1));
    }
  }

  /** The entries tile `[0, |Flat(group)|)`: each starts where its predecessor ends, and the last ends at the end. */
  lemma EntriesTile(group: seq<Weight>, j: nat)
    requires DistinctNames(group) && j < |group|
    ensures |Metas(group)| == |group|
    ensures j == 0 ==> Metas(group)[j].offset == 0
    ensures Metas(group)[j].offset + Metas(group)[j].Size()
      == if j + 1 < |group| then Metas(group)[j + 1].offset else |Flat(group)|
  {
    hide *;
    MetasInOrder(group);
    EntryEnds(group, j);
  }

  /** An entry ends where the bytes of the weights up to its own end. */
  lemma EntryEnds(group: seq<Weight>, j: nat)
    requires j < |group|
    ensures j == 0 ==> EntryOf(group, j).offset == 0
    ensures EntryOf(group, j).offset + EntryOf(group, j).Size() == |Flat(group[..j + 1])|
    ensures j + 1 < |group| ==> EntryOf(group, j + 1).offset == |Flat(group[..j + 1])|
    ensures j + 1 == |group| ==> group[..j + 1] == group
  {
    FlatSnoc(group[..j], group[j]);
    assert group[..j] + [group[j]] == group[..j + 1];
  }

  /** Round trip of one bucket: any buffer that starts with the packed bytes gives every weight back. */
  lemma CutGivesWeight(group: seq<Weight>, buf: seq<Byte>, j: nat)
    requires DistinctNames(group) && Flat(group) <= buf && j < |group|
    ensures |Metas(group)| == |group|
    ensures Metas(group)[j].offset + Metas(group)[j].Size() <= |Flat(group)|
    ensures Cut(buf, Metas(group)[j]) == group[j]
  {
    hide Metas, Flat, DistinctNames;
    MetasInOrder(group);
    FlatPrefix(group, j);
    var e := Metas(group)[j];
    assert buf[e.offset..e.offset + e.Size()] == Flat(group)[e.offset..e.offset + e.Size()];
  }

  lemma DistinctFront(group: seq<Weight>)
    requires group != [] && DistinctNames(group[..|group| - 1])
    ensures forall i, j :: 0 <= i < j < |group| - 1 ==> group[i].name != group[j].name
  {
    var front := group[..|group| - 1];
    forall i, j | 0 <= i < j < |group| - 1 ensures group[i].name != group[j].name {
      assert front[i].name != front[j].name;
    }
  }

  /** If only the last name is a repetition, it is a key already. */
  lemma LastRepeats(group: seq<Weight>)
    requires group != [] && DistinctNames(group[..|group| - 1]) && !DistinctNames(group)
    ensures HasName(Metas(group[..|group| - 1]), group[|group| - 1].name)
  {
    DistinctFront(group);
    var i, j :| 0 <= i < j < |group| && group[i].name == group[j].name;
    hide *;
    MetasKeys(group[..|group| - 1], i);
  }

  lemma MetasLast(group: seq<Weight>)
    requires group != []
    ensures var front := group[..|group| - 1];
      |Metas(group)| == if HasName(Metas(front), group[|group| - 1].name) then |Metas(front)| else |Metas(front)| + 1
  {
    PutSize(Metas(group[..|group| - 1]), EntryOf(group, |group| - 1));
  }

  /** The dictionary keeps every weight of a bucket exactly when their names are distinct. */
  lemma {:induction false} DictionaryKeepsAll(group: seq<Weight>)
    ensures |Metas(group)| == |group| <==> DistinctNames(group)
    decreases |group|
  {
    hide Metas, HasName;
    if DistinctNames(group) {
      MetasInOrder(group);
    } else {
      var front := group[..|group| - 1];
      MetasSize(front);
      MetasLast(group);
      if DistinctNames(front) {
        LastRepeats(group);
      } else {
        DictionaryKeepsAll(front);
      }
    }
  }
}
