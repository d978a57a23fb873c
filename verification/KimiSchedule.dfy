/** The order in which the Kimi receivers broadcast their buckets: the same on every rank. */
module KimiSchedule {
  import opened Options
  import opened Seqs
  import opened Weights

  /** A bucket that rank `receiver` fetches from the trainer and broadcasts. */
  datatype Bucket = Bucket(receiver: nat, bytes: seq<Byte>, items: seq<Entry>)

  /** The buckets that rank `k` broadcasts, in order. */
  function Of(bs: seq<Bucket>, k: nat): seq<Bucket> {
    if bs == [] then [] else
      var last := |bs| - 1;
      Of(bs[..last], k) + if bs[last].receiver == k then [bs[last]] else []
  }

  lemma {:induction false} OfPlus(a: seq<Bucket>, b: seq<Bucket>, k: nat)
    ensures Of(a + b, k) == Of(a, k) + Of(b, k)
    decreases |b|
  {
    if b == [] {
      assert a + b == a;
    } else {
      assert (a + b)[..|a + b| - 1] == a + b[..|b| - 1];
      OfPlus(a, b[..|b| - 1], k);
    }
  }

  lemma OfSnoc(bs: seq<Bucket>, b: Bucket, k: nat)
    ensures Of(bs + [b], k) == if b.receiver == k then Of(bs, k) + [b] else Of(bs, k)
  {
    assert (bs + [b])[..|bs|] == bs;
  }

  lemma {:induction false} OfCount(bs: seq<Bucket>, b: Bucket)
    ensures multiset(bs)[b] == multiset(Of(bs, b.receiver))[b]
    decreases |bs|
  {
    if bs != [] {
      var front, last := bs[..|bs| - 1], bs[|bs| - 1];
      assert bs == front + [last];
      hide *;
      OfCount(front, b);
      OfSnoc(front, last, b.receiver);
      CountSnoc(front, last, b);
      CountSnoc(Of(front, b.receiver), last, b);
    }
  }

  lemma {:induction false} OfMember(bs: seq<Bucket>, k: nat, i: nat)
    requires i < |Of(bs, k)|
    ensures Of(bs, k)[i].receiver == k && Of(bs, k)[i] in bs
    decreases |bs|
  {
    if i < |Of(bs[..|bs| - 1], k)| {
      OfMember(bs[..|bs| - 1], k, i);
    }
  }

  /** The ranks in the order in which they first appear: the keys of the dictionary. */
  function Keys(bs: seq<Bucket>): seq<nat> {
    if bs == [] then [] else
      var front, k := Keys(bs[..|bs| - 1]), bs[|bs| - 1].receiver;
      if k in front then front else front + [k]
  }

  lemma {:induction false} KeysAre(bs: seq<Bucket>)
    ensures Distinct(Keys(bs)) && forall k :: k in Keys(bs) <==> Of(bs, k) != []
    decreases |bs|
  {
    if bs != [] {
      KeysAre(bs[..|bs| - 1]);
    }
  }

  /** The length of the longest list. */
  function MaxLen(bs: seq<Bucket>): nat {
    if bs == [] then 0 else
      var front, n := MaxLen(bs[..|bs| - 1]), |Of(bs, bs[|bs| - 1].receiver)|;
      if n > front then n else front
  }

  lemma {:induction false} MaxLenBounds(bs: seq<Bucket>, k: nat)
    ensures |Of(bs, k)| <= MaxLen(bs)
    decreases |bs|
  {
    if bs != [] {
      MaxLenBounds(bs[..|bs| - 1], k);
    }
  }

  /** Round `i`: every rank that still has a bucket broadcasts its bucket number `i`. */
  function Round(bs: seq<Bucket>, keys: seq<nat>, i: nat): seq<Bucket> {
    if keys == [] then [] else
      var last := |keys| - 1;
      Round(bs, keys[..last], i) + if i < |Of(bs, keys[last])| then [Of(bs, keys[last])[i]] else []
  }

  function Rounds(bs: seq<Bucket>, n: nat): seq<Bucket> {
    if n == 0 then [] else Rounds(bs, n - 1) + Round(bs, Keys(bs), n - 1)
  }

  /** The sequence of broadcasts. It depends on the shared list of buckets only, not on the rank that computes it. */
  function Schedule(bs: seq<Bucket>): seq<Bucket> {
    Rounds(bs, MaxLen(bs))
  }

  lemma RoundLast(bs: seq<Bucket>, keys: seq<nat>, i: nat, k: nat)
    ensures Round(bs, keys, i) == if keys == [] then [] else
      Round(bs, keys[..|keys| - 1], i)
      + if i < |Of(bs, keys[|keys| - 1])| then [Of(bs, keys[|keys| - 1])[i]] else []
    ensures Of([], k) == []
  {
  }

  lemma DistinctFront(keys: seq<nat>, k: nat)
    requires keys != [] && Distinct(keys)
    ensures Distinct(keys[..|keys| - 1]) && keys[|keys| - 1] !in keys[..|keys| - 1]
    ensures k in keys <==> k in keys[..|keys| - 1] || k == keys[|keys| - 1]
  {
    assert keys == keys[..|keys| - 1] + [keys[|keys| - 1]];
  }

  lemma {:induction false} RoundOf(bs: seq<Bucket>, keys: seq<nat>, i: nat, k: nat)
    requires Distinct(keys)
    ensures Of(Round(bs, keys, i), k) == if k in keys && i < |Of(bs, k)| then [Of(bs, k)[i]] else []
    decreases |keys|
  {
    hide *;
    RoundLast(bs, keys, i, k);
    if keys != [] {
      var last := |keys| - 1;
      DistinctFront(keys, k);
      RoundOf(bs, keys[..last], i, k);
      NextOfRound(bs, keys[last], i, k, Round(bs, keys[..last], i));
    }
  }

  lemma NextOfRound(bs: seq<Bucket>, key: nat, i: nat, k: nat, before: seq<Bucket>)
    ensures Of(before + if i < |Of(bs, key)| then [Of(bs, key)[i]] else [], k)
         == Of(before, k) + if i < |Of(bs, key)| && key == k then [Of(bs, key)[i]] else []
  {
    hide Of;
    if i < |Of(bs, key)| {
      var b := Of(bs, key)[i];
      OfMember(bs, key, i);
      OfPlus(before, [b], k);
      OneOf(b, k);
    } else {
      assert before + [] == before;
    }
  }

  lemma OneOf(b: Bucket, k: nat)
    ensures Of([b], k) == if b.receiver == k then [b] else []
  {
    assert [b][..0] == [];
  }

  lemma RoundsLast(bs: seq<Bucket>, n: nat, k: nat)
    ensures Rounds(bs, n) == if n == 0 then [] else Rounds(bs, n - 1) + Round(bs, Keys(bs), n - 1)
    ensures Of([], k) == []
  {
    hide Round, Keys;
  }

  lemma {:induction false} RoundsOf(bs: seq<Bucket>, n: nat, k: nat)
    ensures Of(Rounds(bs, n), k) == if n < |Of(bs, k)| then Of(bs, k)[..n] else Of(bs, k)
    decreases n
  {
    hide *;
    RoundsLast(bs, n, k);
    if n > 0 {
      RoundsOf(bs, n - 1, k);
      NextRoundOf(bs, n, k, Rounds(bs, n - 1));
    }
  }

  lemma NextRoundOf(bs: seq<Bucket>, n: nat, k: nat, before: seq<Bucket>)
    requires n > 0
    requires Of(before, k) == if n - 1 < |Of(bs, k)| then Of(bs, k)[..n - 1] else Of(bs, k)
    ensures Of(before + Round(bs, Keys(bs), n - 1), k) == if n < |Of(bs, k)| then Of(bs, k)[..n] else Of(bs, k)
  {
    hide Of, Keys, Round;
    KeysAre(bs);
    RoundOf(bs, Keys(bs), n - 1, k);
    OfPlus(before, Round(bs, Keys(bs), n - 1), k);
    if n <= |Of(bs, k)| {
      assert Of(bs, k)[..n] == Of(bs, k)[..n - 1] + [Of(bs, k)[n - 1]];
      assert n == |Of(bs, k)| ==> Of(bs, k)[..n] == Of(bs, k);
    }
  }

  /** The broadcasts of one rank come in the order of its own list. */
  lemma ScheduleKeepsOrder(bs: seq<Bucket>, k: nat)
    ensures Of(Schedule(bs), k) == Of(bs, k)
  {
    MaxLenBounds(bs, k);
    RoundsOf(bs, MaxLen(bs), k);
  }

  /** Every bucket is broadcast exactly once. */
  lemma ScheduleIsPermutation(bs: seq<Bucket>)
    ensures multiset(Schedule(bs)) == multiset(bs)
  {
    forall b: Bucket ensures multiset(Schedule(bs))[b] == multiset(bs)[b] {
      OfCount(Schedule(bs), b);
      OfCount(bs, b);
      ScheduleKeepsOrder(bs, b.receiver);
    }
  }

  // ----- The loop of one rank -----

  /** One turn: the bucket, its half of the buffer, and for the sending rank what its staging buffer held. */
  datatype Turn = Turn(bucket: Bucket, half: bool, staged: Option<Bucket>)

  /** Half `g % 2` of the buffer: the halves take turns. */
  function Half(g: nat): bool {
    if g == 0 then false else !Half(g - 1)
  }

  ghost predicate TurnsAre(turns: seq<Turn>, schedule: seq<Bucket>, rank: nat) {
    && |turns| == |schedule|
    && forall g :: 0 <= g < |turns| ==>
      turns[g] == Turn(schedule[g], Half(g), if schedule[g].receiver == rank then Some(schedule[g]) else None)
  }

  lemma NextBucket(bs: seq<Bucket>, b: Bucket, k: nat)
    ensures Of(bs + [b], k) == if b.receiver == k then Of(bs, k) + [b] else Of(bs, k)
    ensures Keys(bs + [b]) == if b.receiver in Keys(bs) then Keys(bs) else Keys(bs) + [b.receiver]
    ensures var n := |Of(bs + [b], b.receiver)|; MaxLen(bs + [b]) == if n > MaxLen(bs) then n else MaxLen(bs)
  {
    OfSnoc(bs, b, k);
    OfSnoc(bs, b, b.receiver);
    assert (bs + [b])[..|bs|] == bs;
  }

  /** The dictionary holds the list of every rank that occurs. */
  ghost predicate Grouped(keys: seq<nat>, lists: map<nat, seq<Bucket>>, bs: seq<Bucket>) {
    && keys == Keys(bs)
    && (forall k :: k in keys <==> k in lists)
    && (forall k :: k in lists ==> lists[k] == Of(bs, k))
    && (forall k :: k !in lists ==> Of(bs, k) == [])
  }

  lemma GroupedNext(keys: seq<nat>, lists: map<nat, seq<Bucket>>, bs: seq<Bucket>, b: Bucket)
    requires Grouped(keys, lists, bs)
    ensures var k := b.receiver;
      Grouped(if k in lists then keys else keys + [k], lists[k := (if k in lists then lists[k] else []) + [b]], bs + [b])
  {
    hide Of, Keys, MaxLen;
    forall k ensures Of(bs + [b], k) == if b.receiver == k then Of(bs, k) + [b] else Of(bs, k) {
      NextBucket(bs, b, k);
    }
    NextBucket(bs, b, b.receiver);
  }

  lemma GroupedList(keys: seq<nat>, lists: map<nat, seq<Bucket>>, bs: seq<Bucket>, b: Bucket)
    requires Grouped(keys, lists, bs)
    ensures (if b.receiver in lists then lists[b.receiver] else []) + [b] == Of(bs + [b], b.receiver)
  {
    NextBucket(bs, b, b.receiver);
  }

  /** One turn of the loop that fills the dictionary. */
  method AddBucket(keys: seq<nat>, lists: map<nat, seq<Bucket>>, maxLen: nat, b: Bucket, ghost bs: seq<Bucket>)
    returns (keys': seq<nat>, lists': map<nat, seq<Bucket>>, maxLen': nat)
    requires Grouped(keys, lists, bs) && maxLen == MaxLen(bs)
    ensures Grouped(keys', lists', bs + [b]) && maxLen' == MaxLen(bs + [b])
  {
    GroupedNext(keys, lists, bs, b);
    NextBucket(bs, b, b.receiver);
    GroupedList(keys, lists, bs, b);
    hide *;
    var k := b.receiver;
    var list := (if k in lists then lists[k] else []) + [b];
    keys' := if k in lists then keys else keys + [k];
    lists' := lists[k := list];
    maxLen' := if |list| > maxLen then |list| else maxLen;
  }

  /** The dictionary of buckets by rank, and its longest list. */
  method ByReceiver(bs: seq<Bucket>) returns (keys: seq<nat>, lists: map<nat, seq<Bucket>>, maxLen: nat)
    ensures Grouped(keys, lists, bs) && maxLen == MaxLen(bs)
  {
    hide *;
    keys, lists, maxLen := [], map[], 0;
    NoBuckets(bs);
    for i := 0 to |bs|
      invariant Grouped(keys, lists, bs[..i])
      invariant maxLen == MaxLen(bs[..i])
    {
      keys, lists, maxLen := AddBucket(keys, lists, maxLen, bs[i], bs[..i]);
      NextPrefix(bs, i);
    }
    NextPrefix(bs, |bs|);
  }

  lemma NoBuckets(bs: seq<Bucket>)
    ensures Grouped([], map[], bs[..0]) && MaxLen(bs[..0]) == 0
  {
  }

  lemma NextPrefix(bs: seq<Bucket>, i: nat)
    requires i <= |bs|
    ensures if i < |bs| then bs[..i + 1] == bs[..i] + [bs[i]] else bs[..i] == bs
  {
  }

  /** The buckets of this rank. */
  method OwnBuckets(bs: seq<Bucket>, rank: nat) returns (own: seq<Bucket>)
    ensures own == Of(bs, rank)
  {
    own := [];
    for i := 0 to |bs|
      invariant own == Of(bs[..i], rank)
    {
      assert bs[..i + 1][..i] == bs[..i];
      if bs[i].receiver == rank {
        own := own + [bs[i]];
      }
    }
    assert bs[..|bs|] == bs;
  }

  lemma NoTurns(rank: nat)
    ensures TurnsAre([], [], rank)
  {
  }

  lemma TurnAdded(turns: seq<Turn>, schedule: seq<Bucket>, rank: nat, t: Turn)
    requires TurnsAre(turns, schedule, rank)
    requires t == Turn(t.bucket, Half(|turns|), if t.bucket.receiver == rank then Some(t.bucket) else None)
    ensures TurnsAre(turns + [t], schedule + [t.bucket], rank)
  {
  }

  /** The inner loop: one round. */
  method TakeRound(bs: seq<Bucket>, rank: nat, keys: seq<nat>, lists: map<nat, seq<Bucket>>, i: nat, staged: Option<Bucket>,
                   turns: seq<Turn>, ghost done: seq<Bucket>) returns (turns': seq<Turn>)
    requires forall k :: k in keys ==> k in lists && lists[k] == Of(bs, k)
    requires i < |Of(bs, rank)| ==> staged == Some(Of(bs, rank)[i])
    requires TurnsAre(turns, done, rank)
    ensures TurnsAre(turns', done + Round(bs, keys, i), rank)
  {
    hide TurnsAre, Half, Of;
    turns' := turns;
    assert done + Round(bs, keys[..0], i) == done;
    for j := 0 to |keys|
      invariant TurnsAre(turns', done + Round(bs, keys[..j], i), rank)
    {
      var k := keys[j];
      var buckets := lists[k];
      assert keys[..j + 1][..j] == keys[..j];
      assert Round(bs, keys[..j + 1], i) == Round(bs, keys[..j], i) + if i < |buckets| then [buckets[i]] else [];
      if i < |buckets| {
        OfMember(bs, k, i);
        var t := Turn(buckets[i], Half(|turns'|), if k == rank then staged else None);
        TurnAdded(turns', done + Round(bs, keys[..j], i), rank, t);
        assert done + Round(bs, keys[..j + 1], i) == done + Round(bs, keys[..j], i) + [buckets[i]];
        turns' := turns' + [t];
      } else {
        assert Round(bs, keys[..j + 1], i) == Round(bs, keys[..j], i);
      }
    }
    assert keys[..|keys|] == keys;
  }

  /**
   * The turns that `receive_tensor` takes on one rank. All ranks broadcast the same buckets in the same order, into
   * alternating halves, and a sending rank has staged exactly the bucket that it is about to send.
   */
  method Turns(bs: seq<Bucket>, rank: nat) returns (turns: seq<Turn>)
    ensures TurnsAre(turns, Schedule(bs), rank)
  {
    hide Of, Keys, Round, MaxLen, TurnsAre;
    var own := OwnBuckets(bs, rank);
    var keys, lists, maxLen := ByReceiver(bs);
    var staged := None;
    turns := [];
    NoTurns(rank);
    for i := 0 to maxLen
      invariant TurnsAre(turns, Rounds(bs, i), rank)
    {
      if i < |own| {
        staged := Some(own[i]);
      }
      turns := TakeRound(bs, rank, keys, lists, i, staged, turns, Rounds(bs, i));
    }
  }
}
