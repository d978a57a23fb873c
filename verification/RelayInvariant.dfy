/** The inductive invariant of the relay: one predicate per rank and one per link of the chain. */
module RelayInvariant {
  import opened Buckets
  import opened Options
  import opened Seqs
  import opened Weights
  import opened Relay

  /** How many buckets the rank has announced. */
  function Sent(n: Node): int {
    if n.pc.Announcing? then n.b - 1 else n.b
  }

  /** How many reads the rank has begun, and how many of them are complete. */
  function Begun(n: Node): nat {
    if n.read.Some? then n.b + 1 else n.b
  }

  function Completed(n: Node): nat {
    if n.read.Some? && n.read.value.done then n.b + 1 else n.b
  }

  ghost predicate Holds(c: Config, buf: seq<Byte>, k: int) {
    0 <= k < |c.groups| && Flat(c.groups[k]) <= buf
  }

  ghost predicate SenderInv(c: Config, n: Node) {
    && n.read == None && n.inbox == []
    && (n.op.Some? ==> Holds(c, n.Buf(n.op.value.side), n.b - 1))
    && match n.pc
       case Filling(j) =>
         && n.b < |c.groups| && j <= |c.groups[n.b]|
         && Flat(c.groups[n.b][..j]) <= n.Buf(n.side)
         && (n.op.Some? ==> n.op.value.side != n.side)
       case Draining => n.b == |c.groups|
       case Finished => n.b == |c.groups| && n.op == None
       case _ => false
  }

  /** The part of `group`, the bucket in hand, that a receiver has yielded. */
  function GivenOf(pc: Pc, group: seq<Weight>): seq<Weight> {
    match pc
    case Yielding(j) => if j <= |group| then group[..j] else []
    case Finished => group
    case _ => []
  }

  /** The part of the sequence a receiver has yielded, as its program counter tells. */
  ghost function Given(c: Config, n: Node): seq<Weight>
    requires n.b <= |c.groups|
  {
    if n.b == 0 then [] else Concat(c.groups[..n.b - 1]) + GivenOf(n.pc, c.groups[n.b - 1])
  }

  ghost predicate ReadInv(c: Config, n: Node, t: Transfer) {
    && n.b < |c.groups| && n.next == MetaOf(c, n.b)
    && (forall i :: i in t.copied && i < |Flat(c.groups[n.b])| ==>
          i < |n.Buf(!n.side)| && n.Buf(!n.side)[i] == Flat(c.groups[n.b])[i])
    && (forall i :: i in t.copied ==> i < c.cap)
    && (t.done ==> forall i :: 0 <= i < c.cap ==> i in t.copied)
  }

  ghost predicate ReceiverInv(c: Config, r: nat, n: Node) {
    && n.b <= |c.groups|
    && n.meta == (if n.b == 0 then BucketMeta([], false) else MetaOf(c, n.b - 1))
    && n.yielded == Given(c, n)
    && (n.b > 0 && !n.pc.Finished? ==> Holds(c, n.Buf(n.side), n.b - 1))
    && (n.read.Some? ==> ReadInv(c, n, n.read.value))
    && (n.op.Some? ==> r < c.ranks && n.b > 0 && n.op.value.side == n.side)
    && match n.pc
       case Announcing => n.b > 0 && n.op == None && n.read == None
       case AwaitMeta => n.b < |c.groups| && n.read == None
       case Yielding(j) => j <= |n.meta.entries| && (n.read.Some? <==> n.b < |c.groups|)
       case Finished => n.b == |c.groups| && n.op == None && n.read == None
       case _ => false
  }

  ghost predicate NodeInv(c: Config, r: nat, n: Node) {
    && |n.buf0| == c.cap && |n.buf1| == c.cap
    && (r == 0 ==> SenderInv(c, n))
    && (r > 0 ==> ReceiverInv(c, r, n))
    && (r == c.ranks ==> n.notes == [])
  }

  // The four phases of the link between rank `r` (`x`) and rank `r + 1` (`y`).

  ghost predicate Idle(x: Node, y: Node) {
    x.notes == [] && y.inbox == [] && Begun(y) == Completed(y) == Sent(x)
  }

  ghost predicate Queued(c: Config, x: Node, op: Readable, y: Node) {
    && 0 < Sent(x) <= |c.groups|
    && x.notes == [] && y.inbox == [Message(op.key, op.side, MetaOf(c, Sent(x) - 1))]
    && Begun(y) == Completed(y) == Sent(x) - 1
  }

  ghost predicate InFlight(x: Node, op: Readable, y: Node) {
    && x.notes == [] && y.inbox == []
    && Begun(y) == Sent(x) && Completed(y) == Sent(x) - 1
    && y.read.Some? && y.read.value.key == op.key && y.read.value.side == op.side
  }

  ghost predicate Confirmed(x: Node, op: Readable, y: Node) {
    x.notes == [op.key] && y.inbox == [] && Begun(y) == Completed(y) == Sent(x)
  }

  ghost predicate LinkInv(c: Config, x: Node, y: Node) {
    match x.op
    case None => Idle(x, y)
    case Some(op) => Queued(c, x, op, y) || InFlight(x, op, y) || Confirmed(x, op, y)
  }

  ghost predicate Inv(c: Config, s: State) {
    && |s| == c.ranks + 1
    && (forall r :: 0 <= r <= c.ranks ==> NodeInv(c, r, s[r]))
    && (forall r :: 0 <= r < c.ranks ==> LinkInv(c, s[r], s[r + 1]))
  }

  lemma InitInv(c: Config, s: State)
    requires ValidConfig(c) && Init(c, s)
    ensures Inv(c, s)
  {
  }

  lemma UpdateOne(c: Config, s: State, r: nat, n: Node)
    requires Inv(c, s) && r <= c.ranks && NodeInv(c, r, n)
    requires r > 0 ==> LinkInv(c, s[r - 1], n)
    requires r < c.ranks ==> LinkInv(c, n, s[r + 1])
    ensures Inv(c, s[r := n])
  {
    hide NodeInv, LinkInv;
    var s' := s[r := n];
    forall q | 0 <= q < c.ranks ensures LinkInv(c, s'[q], s'[q + 1]) {
      assert LinkInv(c, s[q], s[q + 1]);
    }
    forall q | 0 <= q <= c.ranks ensures NodeInv(c, q, s'[q]) {
      assert NodeInv(c, q, s[q]);
    }
  }

  lemma UpdateTwo(c: Config, s: State, r: nat, x: Node, y: Node)
    requires Inv(c, s) && r < c.ranks && NodeInv(c, r, x) && NodeInv(c, r + 1, y)
    requires r > 0 ==> LinkInv(c, s[r - 1], x)
    requires LinkInv(c, x, y)
    requires r + 1 < c.ranks ==> LinkInv(c, y, s[r + 2])
    ensures Inv(c, s[r := x][r + 1 := y])
  {
    hide NodeInv, LinkInv;
    var s' := s[r := x][r + 1 := y];
    forall q | 0 <= q < c.ranks ensures LinkInv(c, s'[q], s'[q + 1]) {
      assert LinkInv(c, s[q], s[q + 1]);
    }
    forall q | 0 <= q <= c.ranks ensures NodeInv(c, q, s'[q]) {
      assert NodeInv(c, q, s[q]);
    }
  }

  // A link depends on little of its two ends.

  ghost predicate SameAbove(n: Node, n': Node) {
    n'.op == n.op && n'.notes == n.notes && Sent(n') == Sent(n)
  }

  ghost predicate SameBelow(n: Node, n': Node) {
    && n'.inbox == n.inbox && Begun(n') == Begun(n) && Completed(n') == Completed(n)
    && (n'.read.Some? ==> n.read.Some? && n'.read.value.key == n.read.value.key && n'.read.value.side == n.read.value.side)
  }

  lemma LinkAbove(c: Config, n: Node, n': Node, y: Node)
    requires LinkInv(c, n, y) && SameAbove(n, n')
    ensures LinkInv(c, n', y)
  {
  }

  lemma LinkBelow(c: Config, x: Node, n: Node, n': Node)
    requires LinkInv(c, x, n) && SameBelow(n, n')
    ensures LinkInv(c, x, n')
  {
  }

  /** A rank that changes nothing its neighbours see keeps the invariant. */
  lemma UpdateQuietly(c: Config, s: State, r: nat, n: Node)
    requires Inv(c, s) && r <= c.ranks && NodeInv(c, r, n) && SameAbove(s[r], n) && SameBelow(s[r], n)
    ensures Inv(c, s[r := n])
  {
    hide NodeInv, LinkInv, SameAbove, SameBelow;
    if r > 0 {
      assert LinkInv(c, s[r - 1], s[r - 1 + 1]);
      LinkBelow(c, s[r - 1], s[r], n);
    }
    if r < c.ranks {
      LinkAbove(c, s[r], n, s[r + 1]);
    }
    UpdateOne(c, s, r, n);
  }

  // Rank 0 packs one more weight.

  lemma SenderFilled(c: Config, n: Node)
    requires SenderInv(c, n) && n.pc.Filling? && n.pc.packed < |c.groups[n.b]|
    requires var g, j := c.groups[n.b], n.pc.packed;
      && Flat(g[..j + 1]) == Flat(g[..j]) + g[j].data && |Flat(g[..j + 1])| <= |n.Buf(n.side)|
    ensures SenderInv(c, Filled(c, n)) && |Filled(c, n).Buf(n.side)| == |n.Buf(n.side)|
  {
    hide Flat, Metas;
    var g, j := c.groups[n.b], n.pc.packed;
    OverwriteExtends(n.Buf(n.side), Flat(g[..j]), g[j].data);
  }

  lemma FilledInv(c: Config, n: Node)
    requires ValidConfig(c) && NodeInv(c, 0, n)
    requires n.pc.Filling? && n.pc.packed < |c.groups[n.b]|
    ensures |Flat(c.groups[n.b][..n.pc.packed])| + |c.groups[n.b][n.pc.packed].data| <= |n.Buf(n.side)|
    ensures NodeInv(c, 0, Filled(c, n)) && SameAbove(n, Filled(c, n)) && SameBelow(n, Filled(c, n))
  {
    hide Metas, Flat;
    NextFits(c.groups[n.b], n.pc.packed, c.cap);
    SenderFilled(c, n);
  }

  lemma FillKeepsInv(c: Config, s: State)
    requires ValidConfig(c) && Inv(c, s) && Enabled(c, s, Fill)
    ensures Inv(c, Apply(c, s, Fill))
  {
    hide LinkInv;
    FilledInv(c, s[0]);
    UpdateQuietly(c, s, 0, Filled(c, s[0]));
  }

  // A rank offers the bucket in its `send_buf` to the next one.

  ghost predicate CanAnnounce(c: Config, n: Node) {
    n.pc.Announcing? || (n.pc.Filling? && AtEnd(c, n) && n.op == None)
  }

  lemma SenderAnnounced(c: Config, n: Node, key: Key)
    requires ValidConfig(c) && SenderInv(c, n) && n.pc.Filling? && AtEnd(c, n) && n.op == None
    ensures SenderInv(c, Announced(c, 0, n, key))
  {
    var g := c.groups[n.b];
    assert g[..n.pc.packed] == g;
    if n.b + 1 < |c.groups| {
      assert c.groups[n.b + 1][..0] == [];
    }
  }

  lemma ReceiverAnnounced(c: Config, r: nat, n: Node, key: Key)
    requires r <= c.ranks && ReceiverInv(c, r, n) && n.pc.Announcing?
    ensures ReceiverInv(c, r, Announced(c, r, n, key))
  {
    if n.meta.isLast {
      assert c.groups[n.b - 1][..0] == [];
    }
  }

  lemma AnnouncedInv(c: Config, r: nat, n: Node, key: Key)
    requires ValidConfig(c) && NodeInv(c, r, n) && r <= c.ranks && CanAnnounce(c, n)
    ensures NodeInv(c, r, Announced(c, r, n, key))
    ensures r > 0 ==> SameBelow(n, Announced(c, r, n, key))
  {
    if r == 0 {
      SenderAnnounced(c, n, key);
    } else {
      ReceiverAnnounced(c, r, n, key);
    }
  }

  lemma AnnouncedLink(c: Config, r: nat, n: Node, y: Node, key: Key)
    requires ValidConfig(c) && NodeInv(c, r, n) && r < c.ranks && CanAnnounce(c, n) && LinkInv(c, n, y)
    ensures LinkInv(c, Announced(c, r, n, key), Offered(y, Message(key, n.side, AnnouncedMeta(c, n))))
  {
    var n', m := Announced(c, r, n, key), Message(key, n.side, AnnouncedMeta(c, n));
    assert n.op == None && Idle(n, y);
    assert Sent(n') == Sent(n) + 1;
    assert m.meta == MetaOf(c, Sent(n') - 1);
    assert Queued(c, n', n'.op.value, Offered(y, m));
  }

  lemma OfferedInv(c: Config, r: nat, n: Node, m: Message)
    requires 0 < r && NodeInv(c, r, n)
    ensures NodeInv(c, r, Offered(n, m)) && SameAbove(n, Offered(n, m))
  {
  }

  lemma AnnounceKeepsInv(c: Config, s: State, r: nat, key: Key)
    requires ValidConfig(c) && Inv(c, s) && Enabled(c, s, Announce(r, key))
    ensures Inv(c, Apply(c, s, Announce(r, key)))
  {
    hide NodeInv, LinkInv, SameBelow, SameAbove, Announced, Offered, AnnouncedMeta, ValidConfig;
    var n := s[r];
    var n' := Announced(c, r, n, key);
    AnnouncedInv(c, r, n, key);
    if r > 0 {
      assert LinkInv(c, s[r - 1], s[r - 1 + 1]);
      LinkBelow(c, s[r - 1], n, n');
    }
    if r < c.ranks {
      var m := Message(key, n.side, AnnouncedMeta(c, n));
      var y := s[r + 1];
      AnnouncedLink(c, r, n, y, key);
      OfferedInv(c, r + 1, y, m);
      if r + 1 < c.ranks {
        assert LinkInv(c, s[r + 1], s[r + 1 + 1]);
        LinkAbove(c, y, Offered(y, m), s[r + 2]);
      }
      UpdateTwo(c, s, r, n', Offered(y, m));
    } else {
      UpdateOne(c, s, r, n');
    }
  }

  // A rank takes the notification that its announced bucket was read.

  lemma AckedInv(c: Config, r: nat, n: Node, y: Node)
    requires NodeInv(c, r, n) && n.op.Some? && n.notes != [] && LinkInv(c, n, y) && AtEnd(c, n)
    ensures NodeInv(c, r, Acked(n)) && LinkInv(c, Acked(n), y) && SameBelow(n, Acked(n))
    ensures n.notes[0] == n.op.value.key
  {
    assert Confirmed(n, n.op.value, y);
    assert Idle(Acked(n), y);
  }

  lemma AckKeepsInv(c: Config, s: State, r: nat)
    requires ValidConfig(c) && Inv(c, s) && Enabled(c, s, Ack(r))
    ensures Inv(c, Apply(c, s, Ack(r)))
  {
    hide LinkInv, SameBelow, Acked, ValidConfig;
    AckedInv(c, r, s[r], s[r + 1]);
    if r > 0 {
      assert LinkInv(c, s[r - 1], s[r - 1 + 1]);
      LinkBelow(c, s[r - 1], s[r], Acked(s[r]));
    }
    UpdateOne(c, s, r, Acked(s[r]));
  }

  // A rank takes the metadata of the next bucket and begins to read it.

  lemma StartedInv(c: Config, r: nat, x: Node, n: Node)
    requires 0 < r && NodeInv(c, r, n) && n.pc.AwaitMeta? && n.inbox != [] && LinkInv(c, x, n)
    ensures NodeInv(c, r, Started(n)) && LinkInv(c, x, Started(n)) && SameAbove(n, Started(n))
  {
    assert x.op.Some? && Queued(c, x, x.op.value, n);
    assert n.b == Sent(x) - 1;
    if n.b > 0 {
      assert c.groups[n.b - 1][..0] == [];
    }
    assert InFlight(x, x.op.value, Started(n));
  }

  lemma StartKeepsInv(c: Config, s: State, r: nat)
    requires ValidConfig(c) && Inv(c, s) && Enabled(c, s, Start(r))
    ensures Inv(c, Apply(c, s, Start(r)))
  {
    hide NodeInv, LinkInv, SameAbove, Started, ValidConfig;
    assert LinkInv(c, s[r - 1], s[r - 1 + 1]);
    StartedInv(c, r, s[r - 1], s[r]);
    if r < c.ranks {
      LinkAbove(c, s[r], Started(s[r]), s[r + 1]);
    }
    UpdateOne(c, s, r, Started(s[r]));
  }

  // One byte of a read arrives.

  lemma CopiedRead(c: Config, n: Node, i: nat, byte: Byte)
    requires n.read.Some? && ReadInv(c, n, n.read.value) && !n.read.value.done
    requires i < c.cap && |n.Buf(!n.side)| == c.cap
    requires i < |Flat(c.groups[n.b])| ==> byte == Flat(c.groups[n.b])[i]
    ensures var n' := Copied(n, i, byte); ReadInv(c, n', n'.read.value)
  {
    hide Flat, Metas;
  }

  lemma SourceHolds(c: Config, r: nat, x: Node, n: Node)
    requires NodeInv(c, r, x) && LinkInv(c, x, n) && n.read.Some? && !n.read.value.done
    ensures Holds(c, x.Buf(n.read.value.side), n.b)
  {
    hide Flat, Metas, Concat;
    assert x.op.Some? && InFlight(x, x.op.value, n);
    assert Sent(x) == n.b + 1;
  }

  lemma CopiedInv(c: Config, r: nat, n: Node, i: nat, byte: Byte)
    requires 0 < r && NodeInv(c, r, n)
    requires n.read.Some? && !n.read.value.done && i < c.cap
    requires i < |Flat(c.groups[n.b])| ==> byte == Flat(c.groups[n.b])[i]
    ensures NodeInv(c, r, Copied(n, i, byte)) && SameAbove(n, Copied(n, i, byte)) && SameBelow(n, Copied(n, i, byte))
  {
    hide Flat, Metas, Concat;
    CopiedRead(c, n, i, byte);
  }

  lemma CopyKeepsInv(c: Config, s: State, r: nat, i: nat)
    requires ValidConfig(c) && Inv(c, s) && Enabled(c, s, Copy(r, i))
    ensures Inv(c, Apply(c, s, Copy(r, i)))
  {
    hide LinkInv, SameAbove, SameBelow, Copied, ValidConfig, SenderInv, ReceiverInv;
    assert LinkInv(c, s[r - 1], s[r - 1 + 1]);
    SourceHolds(c, r - 1, s[r - 1], s[r]);
    CopiedInv(c, r, s[r], i, s[r - 1].Buf(s[r].read.value.side)[i]);
    UpdateQuietly(c, s, r, Copied(s[r], i, s[r - 1].Buf(s[r].read.value.side)[i]));
  }

  // A read ends: the reader sees DONE and the rank read from gets the notification.

  lemma NotifiedInv(c: Config, r: nat, x: Node, key: Key)
    requires NodeInv(c, r, x) && r < c.ranks
    ensures NodeInv(c, r, Notified(x, key)) && SameBelow(x, Notified(x, key))
  {
    hide Flat, Metas, Concat, Holds;
  }

  lemma ReadDoneInv(c: Config, r: nat, n: Node)
    requires 0 < r <= c.ranks && NodeInv(c, r, n)
    requires n.read.Some? && !n.read.value.done && forall i :: 0 <= i < c.cap ==> i in n.read.value.copied
    ensures NodeInv(c, r, ReadDone(n)) && SameAbove(n, ReadDone(n))
  {
    hide Flat, Metas, Concat, Holds;
    assert ReadInv(c, ReadDone(n), ReadDone(n).read.value);
  }

  lemma ReadDoneLink(c: Config, x: Node, n: Node)
    requires LinkInv(c, x, n) && n.read.Some? && !n.read.value.done
    ensures LinkInv(c, Notified(x, n.read.value.key), ReadDone(n))
  {
    hide Flat, Metas, Concat, Holds;
    assert x.op.Some? && InFlight(x, x.op.value, n);
    assert Confirmed(Notified(x, n.read.value.key), x.op.value, ReadDone(n));
  }

  lemma CompleteKeepsInv(c: Config, s: State, r: nat)
    requires ValidConfig(c) && Inv(c, s) && Enabled(c, s, Complete(r))
    ensures Inv(c, Apply(c, s, Complete(r)))
  {
    hide NodeInv, LinkInv, SameAbove, SameBelow, Notified, ReadDone, ValidConfig;
    var x, n := s[r - 1], s[r];
    assert LinkInv(c, s[r - 1], s[r - 1 + 1]);
    ReadDoneInv(c, r, n);
    NotifiedInv(c, r - 1, x, n.read.value.key);
    ReadDoneLink(c, x, n);
    var x' := Notified(x, n.read.value.key);
    if r > 1 {
      assert LinkInv(c, s[r - 2], s[r - 2 + 1]);
      LinkBelow(c, s[r - 2], x, x');
    }
    if r < c.ranks {
      LinkAbove(c, n, ReadDone(n), s[r + 1]);
    }
    UpdateTwo(c, s, r - 1, x', ReadDone(n));
  }

  // A receiver hands one tensor to its consumer.

  lemma ReceiverGave(c: Config, r: nat, n: Node)
    requires ReceiverInv(c, r, n) && n.pc.Yielding? && n.pc.given < |n.meta.entries|
    requires var e := n.meta.entries[n.pc.given]; e.offset + e.Size() <= |n.Buf(n.side)|
    requires n.b > 0 ==> |c.groups[n.b - 1]| == |n.meta.entries|
    requires n.b > 0 ==> Cut(n.Buf(n.side), n.meta.entries[n.pc.given]) == c.groups[n.b - 1][n.pc.given]
    ensures ReceiverInv(c, r, Gave(n))
  {
    hide Flat, Concat, Metas, Cut, Holds;
    var g, j := c.groups[n.b - 1], n.pc.given;
    assert Concat(c.groups[..n.b - 1]) + g[..j] + [g[j]] == Concat(c.groups[..n.b - 1]) + g[..j + 1];
  }

  lemma GaveInv(c: Config, r: nat, n: Node)
    requires ValidConfig(c) && 0 < r && NodeInv(c, r, n)
    requires n.pc.Yielding? && n.pc.given < |n.meta.entries|
    ensures var e := n.meta.entries[n.pc.given]; e.offset + e.Size() <= |n.Buf(n.side)|
    ensures NodeInv(c, r, Gave(n)) && SameAbove(n, Gave(n)) && SameBelow(n, Gave(n))
  {
    var g := c.groups[n.b - 1];
    MetasInOrder(g);
    CutGivesWeight(g, n.Buf(n.side), n.pc.given);
    ReceiverGave(c, r, n);
  }

  lemma YieldKeepsInv(c: Config, s: State, r: nat)
    requires ValidConfig(c) && Inv(c, s) && Enabled(c, s, Yield(r))
    ensures Inv(c, Apply(c, s, Yield(r)))
  {
    hide NodeInv, LinkInv, SameAbove, SameBelow, Gave, ValidConfig;
    GaveInv(c, r, s[r]);
    UpdateQuietly(c, s, r, Gave(s[r]));
  }

  // A receiver turns to the bucket it has just read.

  lemma WholeBucket(c: Config, b: nat)
    requires 0 < b <= |c.groups|
    ensures Concat(c.groups[..b - 1]) + c.groups[b - 1] == Concat(c.groups[..b])
  {
    ConcatSnoc(c.groups[..b - 1], c.groups[b - 1]);
    hide Concat;
    assert c.groups[..b - 1] + [c.groups[b - 1]] == c.groups[..b];
  }

  lemma SwappedGiven(c: Config, n: Node)
    requires n.b < |c.groups| && n.yielded == Given(c, n) && n.pc.Yielding?
    requires n.b > 0 ==> n.pc.given == |c.groups[n.b - 1]|
    ensures n.yielded == Given(c, Swapped(n))
  {
    if n.b > 0 {
      WholeBucket(c, n.b);
      hide Concat;
      var g := c.groups[n.b - 1];
      assert g[..|g|] == g;
    }
  }

  lemma ReadHolds(c: Config, n: Node)
    requires n.read.Some? && ReadInv(c, n, n.read.value) && n.read.value.done
    requires |n.Buf(!n.side)| == c.cap && |Flat(c.groups[n.b])| <= c.cap
    ensures Holds(c, n.Buf(!n.side), n.b)
  {
    hide Flat, Metas;
  }

  lemma SwappedInv(c: Config, r: nat, n: Node)
    requires ValidConfig(c) && 0 < r && NodeInv(c, r, n)
    requires n.pc.Yielding? && n.pc.given == |n.meta.entries| && n.op == None
    requires n.read.Some? && n.read.value.done
    ensures NodeInv(c, r, Swapped(n)) && SameAbove(n, Swapped(n)) && SameBelow(n, Swapped(n))
  {
    if n.b > 0 {
      MetasInOrder(c.groups[n.b - 1]);
    }
    hide Flat, Metas, Concat, Given;
    SwappedGiven(c, n);
    ReadHolds(c, n);
  }

  lemma SwapKeepsInv(c: Config, s: State, r: nat)
    requires ValidConfig(c) && Inv(c, s) && Enabled(c, s, Swap(r))
    ensures Inv(c, Apply(c, s, Swap(r)))
  {
    hide NodeInv, LinkInv, SameAbove, SameBelow, Swapped, ValidConfig;
    SwappedInv(c, r, s[r]);
    UpdateQuietly(c, s, r, Swapped(s[r]));
  }

  // A rank returns.

  lemma FinishedInv(c: Config, r: nat, n: Node)
    requires ValidConfig(c) && NodeInv(c, r, n) && n.op == None
    requires n.pc.Draining? || (n.pc.Yielding? && AtEnd(c, n) && n.meta.isLast)
    ensures NodeInv(c, r, n.(pc := Finished)) && SameAbove(n, n.(pc := Finished)) && SameBelow(n, n.(pc := Finished))
  {
    hide Flat, Metas, Concat, ValidConfig, Holds, ReadInv;
    if r > 0 {
      BucketGiven(c, n.b);
    }
  }

  /** A bucket has as many entries as weights, and is yielded when all of them are. */
  lemma BucketGiven(c: Config, b: nat)
    requires ValidConfig(c)
    ensures 0 < b <= |c.groups| ==>
      |MetaOf(c, b - 1).entries| == |c.groups[b - 1]| && c.groups[b - 1][..|c.groups[b - 1]|] == c.groups[b - 1]
  {
    if 0 < b <= |c.groups| {
      MetasInOrder(c.groups[b - 1]);
    }
  }

  lemma FinishKeepsInv(c: Config, s: State, r: nat)
    requires ValidConfig(c) && Inv(c, s) && Enabled(c, s, Finish(r))
    ensures Inv(c, Apply(c, s, Finish(r)))
  {
    hide NodeInv, LinkInv, SameAbove, SameBelow, ValidConfig;
    FinishedInv(c, r, s[r]);
    UpdateQuietly(c, s, r, s[r].(pc := Finished));
  }

  lemma StepKeepsInv(c: Config, s: State, a: Action)
    requires ValidConfig(c) && Inv(c, s) && Enabled(c, s, a)
    ensures Inv(c, Apply(c, s, a))
  {
    match a
    case Fill => FillKeepsInv(c, s);
    case Announce(r, key) => AnnounceKeepsInv(c, s, r, key);
    case Ack(r) => AckKeepsInv(c, s, r);
    case Start(r) => StartKeepsInv(c, s, r);
    case Copy(r, i) => CopyKeepsInv(c, s, r, i);
    case Complete(r) => CompleteKeepsInv(c, s, r);
    case Yield(r) => YieldKeepsInv(c, s, r);
    case Swap(r) => SwapKeepsInv(c, s, r);
    case Finish(r) => FinishKeepsInv(c, s, r);
  }

  lemma {:induction false} RunInv(c: Config, states: seq<State>, acts: seq<Action>, t: nat)
    requires ValidConfig(c) && IsRun(c, states, acts) && t < |states|
    ensures Inv(c, states[t])
  {
    if t == 0 {
      InitInv(c, states[0]);
    } else {
      RunInv(c, states, acts, t - 1);
      StepKeepsInv(c, states[t - 1], acts[t - 1]);
    }
  }
}
