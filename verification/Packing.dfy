/** The bucket packing loop of the NIXL sender: what it announces, and that it uses as few buckets as possible. */
module Packing {
  import opened Seqs
  import opened Weights

  ghost predicate AllFit(ws: seq<Weight>, cap: nat) {
    forall i :: 0 <= i < |ws| ==> |ws[i].data| <= cap
  }

  /** The buckets formed so far: the announced ones, and the one being filled. */
  datatype Buckets = Buckets(closed: seq<seq<Weight>>, open: seq<Weight>) {
    function All(): seq<seq<Weight>> { closed + [open] }
  }

  function Load(group: seq<Weight>): nat { |Flat(group)| }

  /** One turn of the packing loop. */
  function Add(b: Buckets, w: Weight, cap: nat): Buckets {
    if Load(b.open) + |w.data| > cap then Buckets(b.closed + [b.open], [w]) else Buckets(b.closed, b.open + [w])
  }

  function Fill(ws: seq<Weight>, cap: nat): Buckets {
    if ws == [] then Buckets([], []) else Add(Fill(ws[..|ws| - 1], cap), ws[|ws| - 1], cap)
  }

  lemma FillNext(ws: seq<Weight>, i: nat, cap: nat)
    requires i < |ws|
    ensures Fill(ws[..i + 1], cap) == Add(Fill(ws[..i], cap), ws[i], cap)
    ensures AllFit(ws[..i + 1], cap) <==> AllFit(ws[..i], cap) && |ws[i].data| <= cap
  {
    assert ws[..i + 1][..i] == ws[..i];
  }

  function Groups(ws: seq<Weight>, cap: nat): seq<seq<Weight>> {
    Fill(ws, cap).All()
  }

  /** A split of `ws` into consecutive groups that each fit in a bucket. */
  ghost predicate IsSplit(parts: seq<seq<Weight>>, ws: seq<Weight>, cap: nat) {
    Concat(parts) == ws && Fits(parts, cap)
  }

  ghost predicate Fits(parts: seq<seq<Weight>>, cap: nat) {
    forall i :: 0 <= i < |parts| ==> Load(parts[i]) <= cap
  }

  lemma LoadSnoc(group: seq<Weight>, w: Weight)
    ensures Load(group + [w]) == Load(group) + |w.data|
  {
    FlatSnoc(group, w);
  }

  lemma LoadOne(w: Weight)
    ensures Load([w]) == |w.data|
  {
    LoadSnoc([], w);
    assert [] + [w] == [w];
  }

  lemma AddSplits(b: Buckets, w: Weight, cap: nat, ws: seq<Weight>)
    requires IsSplit(b.All(), ws, cap) && |w.data| <= cap
    ensures IsSplit(Add(b, w, cap).All(), ws + [w], cap)
  {
    LoadOne(w);
    LoadSnoc(b.open, w);
    ConcatSnoc(b.closed, b.open);
    var r := Add(b, w, cap);
    if Load(b.open) + |w.data| > cap {
      ConcatSnoc(b.All(), [w]);
    } else {
      ConcatSnoc(b.closed, b.open + [w]);
    }
    FitsSnoc(b.closed, b.open, cap);
    FitsSnoc(r.closed, r.open, cap);
  }

  /** The packing loop loses and reorders nothing, and no bucket overflows. */
  lemma {:induction false} GroupsAreASplit(ws: seq<Weight>, cap: nat)
    requires AllFit(ws, cap)
    ensures IsSplit(Groups(ws, cap), ws, cap)
    decreases |ws|
  {
    if ws == [] {
      assert Buckets([], []).All() == [[]];
      assert Concat<Weight>([[]]) == [];
    } else {
      var front, w := ws[..|ws| - 1], ws[|ws| - 1];
      GroupsAreASplit(front, cap);
      hide IsSplit, Add, Load;
      AddSplits(Fill(front, cap), w, cap, front);
      assert front + [w] == ws;
    }
  }

  /** At least as good: fewer groups, or as many with a last one that is no heavier. */
  ghost predicate Ahead(b: Buckets, parts: seq<seq<Weight>>) {
    || |b.closed| + 1 < |parts|
    || (|b.closed| + 1 == |parts| && Load(b.open) <= Load(parts[|parts| - 1]))
  }

  lemma AddStaysAhead(b: Buckets, w: Weight, cap: nat, done: seq<seq<Weight>>, last: seq<Weight>)
    requires Ahead(b, done + [last])
    requires Load(last + [w]) <= cap
    ensures Ahead(Add(b, w, cap), done + [last + [w]])
  {
    LoadOne(w);
    LoadSnoc(b.open, w);
    LoadSnoc(last, w);
  }

  lemma SplitWithoutLastWeight(done: seq<seq<Weight>>, front: seq<Weight>, w: Weight, ws: seq<Weight>, cap: nat)
    requires IsSplit(done + [front + [w]], ws, cap)
    ensures ws != [] && ws[|ws| - 1] == w && IsSplit(done + [front], ws[..|ws| - 1], cap)
    ensures Load(front + [w]) <= cap
  {
    ConcatSnoc(done, front);
    ConcatSnoc(done, front + [w]);
    assert ws == (Concat(done) + front) + [w];
    LoadSnoc(front, w);
    FitsSnoc(done, front + [w], cap);
    FitsSnoc(done, front, cap);
  }

  lemma FitsSnoc(done: seq<seq<Weight>>, last: seq<Weight>, cap: nat)
    ensures Fits(done + [last], cap) <==> Fits(done, cap) && Load(last) <= cap
  {
    assert forall i :: 0 <= i < |done| ==> (done + [last])[i] == done[i];
    assert (done + [last])[|done|] == last;
  }

  lemma SplitWithoutEmptyGroup(done: seq<seq<Weight>>, ws: seq<Weight>, cap: nat)
    requires IsSplit(done + [[]], ws, cap)
    ensures IsSplit(done, ws, cap) && (done == [] ==> ws == [])
  {
    ConcatSnoc(done, []);
    FitsSnoc(done, [], cap);
  }

  /** Greedy packing stays ahead of every other split. */
  lemma {:induction false} GreedyStaysAhead(ws: seq<Weight>, cap: nat, parts: seq<seq<Weight>>)
    requires IsSplit(parts, ws, cap) && parts != []
    ensures Ahead(Fill(ws, cap), parts)
    decreases |ws|, |parts|
  {
    var done, last := parts[..|parts| - 1], parts[|parts| - 1];
    assert parts == done + [last];
    if last == [] {
      SplitWithoutEmptyGroup(done, ws, cap);
      if done != [] {
        GreedyStaysAhead(ws, cap, done);
      }
    } else {
      var front, w := last[..|last| - 1], last[|last| - 1];
      assert last == front + [w];
      SplitWithoutLastWeight(done, front, w, ws, cap);
      GreedyStaysAhead(ws[..|ws| - 1], cap, done + [front]);
      AddStaysAhead(Fill(ws[..|ws| - 1], cap), w, cap, done, front);
    }
  }

  /** The sender uses the least number of buckets among all splits of a non-empty weight sequence. */
  lemma FewestBuckets(ws: seq<Weight>, cap: nat, parts: seq<seq<Weight>>)
    requires AllFit(ws, cap) && ws != [] && IsSplit(parts, ws, cap)
    ensures IsSplit(Groups(ws, cap), ws, cap)
    ensures |Groups(ws, cap)| <= |parts|
  {
    GroupsAreASplit(ws, cap);
    GreedyStaysAhead(ws, cap, parts);
  }

  /** The two buffers take turns: bucket `k` is filled in `send_buf` exactly when `k` is even. */
  predicate InSendBuf(k: nat) {
    if k == 0 then true else !InSendBuf(k - 1)
  }

  /** What the next agent is told about one bucket, and the bytes its buffer holds at that moment. */
  datatype Announcement = Announcement(inSendBuf: bool, content: seq<Byte>, meta: seq<Entry>, isLast: bool)

  ghost predicate Announces(a: Announcement, group: seq<Weight>, k: nat, isLast: bool) {
    && a.inSendBuf == InSendBuf(k)
    && Flat(group) <= a.content
    && a.meta == Metas(group)
    && a.isLast == isLast
  }

  /** `sent` announces the groups in order; the last one is marked exactly when `finished`. */
  ghost predicate AnnouncesAll(sent: seq<Announcement>, groups: seq<seq<Weight>>, finished: bool) {
    && |sent| == |groups|
    && forall k :: 0 <= k < |sent| ==> Announces(sent[k], groups[k], k, finished && k == |sent| - 1)
  }

  lemma AnnounceNext(sent: seq<Announcement>, groups: seq<seq<Weight>>, a: Announcement, group: seq<Weight>)
    requires AnnouncesAll(sent, groups, false) && Announces(a, group, |groups|, a.isLast)
    ensures AnnouncesAll(sent + [a], groups + [group], a.isLast)
  {
  }

  /** `content` and the two accumulators describe a bucket filled with `cur`. */
  ghost predicate Packs(content: seq<Byte>, meta: seq<Entry>, offset: nat, cur: seq<Weight>) {
    meta == Metas(cur) && offset == |Flat(cur)| && Flat(cur) <= content
  }

  lemma PackOne(content: seq<Byte>, content': seq<Byte>, meta: seq<Entry>, offset: nat, cur: seq<Weight>, w: Weight)
    requires Packs(content, meta, offset, cur) && offset + |w.data| <= |content|
    requires content' == content[..offset] + w.data + content[offset + |w.data|..]
    ensures Packs(content', Put(meta, Entry(w.name, w.dtype, w.shape, offset)), offset + |w.data|, cur + [w])
  {
    FlatSnoc(cur, w);
    assert (cur + [w])[..|cur|] == cur;
    assert content[..offset] == Flat(cur);
  }

  lemma GroupsOf(ws: seq<Weight>, cap: nat)
    ensures Groups(ws, cap) == Fill(ws, cap).All()
  {
  }

  lemma NothingPacked(content: seq<Byte>, cap: nat)
    ensures Packs(content, [], 0, []) && Fill([], cap) == Buckets([], [])
  {
  }

  /** The offset is the load of the bucket. */
  lemma OffsetIsLoad(content: seq<Byte>, meta: seq<Entry>, offset: nat, cur: seq<Weight>)
    requires Packs(content, meta, offset, cur)
    ensures offset == Load(cur)
  {
  }

  class Sender {
    const bucketSize: nat
    const sendBuf: array<Byte>
    const recvBuf: array<Byte>

    ghost predicate Valid()
    {
      sendBuf.Length == bucketSize && recvBuf.Length == bucketSize && sendBuf != recvBuf
    }

    constructor (bucketSize: nat)
      ensures Valid() && this.bucketSize == bucketSize && fresh(sendBuf) && fresh(recvBuf)
    {
      this.bucketSize := bucketSize;
      sendBuf := new Byte[bucketSize](_ => 0);
      recvBuf := new Byte[bucketSize](_ => 0);
    }

    /** `send_buf[offset : offset + nbytes].copy_(weight)`. */
    method CopyInto(buf: array<Byte>, offset: nat, data: seq<Byte>)
      requires offset + |data| <= buf.Length
      modifies buf
      ensures buf[..] == old(buf[..offset]) + data + old(buf[offset + |data|..])
    {
      for i := 0 to |data|
        invariant forall k :: 0 <= k < i ==> buf[offset + k] == data[k]
        invariant forall k :: 0 <= k < offset ==> buf[k] == old(buf[k])
        invariant forall k :: offset + |data| <= k < buf.Length ==> buf[k] == old(buf[k])
      {
        buf[offset + i] := data[i];
      }
    }

    /** One weight enters the bucket: its entry is recorded and its bytes follow those already there. */
    method PackWeight(buf: array<Byte>, meta: seq<Entry>, offset: nat, weight: Weight, ghost cur: seq<Weight>)
      returns (meta': seq<Entry>, offset': nat)
      requires Packs(buf[..], meta, offset, cur) && offset + |weight.data| <= buf.Length
      modifies buf
      ensures Packs(buf[..], meta', offset', cur + [weight]) && offset' == offset + |weight.data|
    {
      meta' := Put(meta, Entry(weight.name, weight.dtype, weight.shape, offset));
      CopyInto(buf, offset, weight.data);
      offset' := offset + |weight.data|;
      PackOne(old(buf[..]), buf[..], meta, offset, cur, weight);
    }

    /** The buffer in hand, the other one, and the announcements made so far. */
    ghost predicate Filling(buf: array<Byte>, other: array<Byte>, sent: seq<Announcement>, b: Buckets) {
      && buf == (if InSendBuf(|b.closed|) then sendBuf else recvBuf)
      && other == (if InSendBuf(|b.closed|) then recvBuf else sendBuf)
      && AnnouncesAll(sent, b.closed, false)
    }

    /** The bucket in hand is announced. */
    method Announce(buf: array<Byte>, other: array<Byte>, meta: seq<Entry>, offset: nat, isLast: bool,
                    sent: seq<Announcement>, ghost b: Buckets) returns (sent': seq<Announcement>)
      requires Valid() && Filling(buf, other, sent, b) && Packs(buf[..], meta, offset, b.open)
      ensures AnnouncesAll(sent', b.All(), isLast)
      ensures !isLast ==> Filling(other, buf, sent', Buckets(b.All(), []))
    {
      hide Flat, Metas;
      var a := Announcement(buf == sendBuf, buf[..], meta, isLast);
      AnnounceNext(sent, b.closed, a, b.open);
      sent' := sent + [a];
    }

    lemma FillingBuffers(buf: array<Byte>, other: array<Byte>, sent: seq<Announcement>, b: Buckets)
      requires Valid() && Filling(buf, other, sent, b)
      ensures (buf == sendBuf || buf == recvBuf) && buf.Length == bucketSize
    {
    }

    /**
     * The announcements made by `send_weights`, in order, and how many weights it packed. A weight larger than
     * a bucket stops the loop with a failed assertion, after the bucket before it (empty if it comes first)
     * was announced; otherwise all weights are packed and the last announcement is marked.
     */
    method SendWeights(weights: seq<Weight>) returns (sent: seq<Announcement>, packed: nat)
      requires Valid()
      modifies sendBuf, recvBuf
      ensures packed <= |weights| && AllFit(weights[..packed], bucketSize)
      ensures packed < |weights| ==> |weights[packed].data| > bucketSize
      ensures AnnouncesAll(sent, Groups(weights[..packed], bucketSize), packed == |weights|)
    {
      sent, packed := [], |weights|;
      var buf, other := sendBuf, recvBuf;
      var meta: seq<Entry>, offset: nat := [], 0;
      NothingPacked(sendBuf[..], bucketSize);
      assert weights[..0] == [] && AllFit([], bucketSize);
      assert Filling(buf, other, sent, Buckets([], []));
      hide Fill, Flat, Metas, Packs, Announces, AllFit, AnnouncesAll, Load, Groups, Filling, InSendBuf;
      for i := 0 to |weights|
        invariant AllFit(weights[..i], bucketSize)
        invariant Filling(buf, other, sent, Fill(weights[..i], bucketSize))
        invariant Packs(buf[..], meta, offset, Fill(weights[..i], bucketSize).open)
      {
        var weight := weights[i];
        FillNext(weights, i, bucketSize);
        ghost var b := Fill(weights[..i], bucketSize);
        OffsetIsLoad(buf[..], meta, offset, b.open);
        if offset + |weight.data| > bucketSize {
          sent := Announce(buf, other, meta, offset, false, sent, b);
          b := Buckets(b.All(), []);
          NothingPacked(other[..], bucketSize);
          buf, other := other, buf;
          meta, offset := [], 0;
          if |weight.data| > bucketSize {
            packed := i;
            GroupsOf(weights[..i], bucketSize);
            return;
          }
        }
        FillingBuffers(buf, other, sent, b);
        assert b.open + [weight] == Fill(weights[..i + 1], bucketSize).open;
        meta, offset := PackWeight(buf, meta, offset, weight, b.open);
        FillingAlike(buf, other, sent, b, Fill(weights[..i + 1], bucketSize));
      }
      assert weights[..|weights|] == weights;
      sent := Announce(buf, other, meta, offset, true, sent, Fill(weights, bucketSize));
      GroupsOf(weights, bucketSize);
    }

    lemma FillingAlike(buf: array<Byte>, other: array<Byte>, sent: seq<Announcement>, b: Buckets, b': Buckets)
      requires Filling(buf, other, sent, b) && b'.closed == b.closed
      ensures Filling(buf, other, sent, b')
    {
    }
  }

  /** End-to-end content of one announced bucket: every weight is cut back out of the announced bytes. */
  lemma AnnouncedBucketRoundTrips(a: Announcement, group: seq<Weight>, k: nat, isLast: bool)
    requires Announces(a, group, k, isLast) && DistinctNames(group)
    ensures |a.meta| == |group|
    ensures forall j :: 0 <= j < |group| ==>
      a.meta[j].offset + a.meta[j].Size() <= |a.content| && Cut(a.content, a.meta[j]) == group[j]
  {
    MetasInOrder(group);
    forall j | 0 <= j < |group|
      ensures a.meta[j].offset + a.meta[j].Size() <= |a.content| && Cut(a.content, a.meta[j]) == group[j]
    {
      CutGivesWeight(group, a.content, j);
    }
  }
}
