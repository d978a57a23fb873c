/** The invariant of the broadcast engine, between the sender and each receiver separately. */
module BroadcastInvariant {
  import opened Buckets
  import opened Options
  import opened Seqs
  import opened Weights
  import opened Broadcast

  ghost predicate Holds(c: Config, buf: seq<Byte>, k: nat) {
    k < |c.groups| && Flat(c.groups[k]) <= buf
  }

  // ----- The sender -----

  ghost predicate SenderInv(c: Config, n: Sender) {
    && |n.buf0| == |n.buf1| == c.cap
    && n.b <= |c.groups|
    && (n.op == None <==> n.b == 0)
    && (n.op.Some? ==> OpInv(c, n, n.op.value))
    && match n.pc
       case Packing(j) => n.b < |c.groups| && j <= |c.groups[n.b]| && Flat(c.groups[n.b][..j]) <= n.Buf(n.side)
       case Last => n.b == |c.groups|
       case Sent => n.b == |c.groups| && Awaited(n.op)
  }

  /** The operation broadcasts bucket `b - 1` from the buffer that is not being packed. */
  ghost predicate OpInv(c: Config, n: Sender, op: Operation) {
    && n.b > 0 && op.meta == MetaAt(c, n.b - 1) && Holds(c, n.Buf(op.side), n.b - 1)
    && op.side == (if n.pc.Packing? then !n.side else n.side)
  }

  lemma PackInv(c: Config, n: Sender)
    requires ValidConfig(c) && SenderInv(c, n) && CanPack(c, n)
    ensures SenderInv(c, Packed(c, n))
    ensures n.op.Some? ==> Packed(c, n).Buf(n.op.value.side) == n.Buf(n.op.value.side)
  {
    hide Metas;
    var g, j := c.groups[n.b], n.pc.packed;
    FlatSnoc(g[..j], g[j]);
    assert g[..j + 1] == g[..j] + [g[j]];
    hide Flat, Overwrite;
    OverwriteExtends(n.Buf(n.side), Flat(g[..j]), g[j].data);
  }

  lemma LaunchInv(c: Config, n: Sender)
    requires ValidConfig(c) && SenderInv(c, n) && CanLaunch(c, n)
    ensures SenderInv(c, Launched(c, n))
  {
    hide Metas, Flat;
    var g := c.groups[n.b];
    assert g[..|g|] == g;
    assert n.b + 1 < |c.groups| ==> Flat(c.groups[n.b + 1][..0]) == [] by {
      EmptyFlat(c, n.b + 1);
    }
  }

  lemma EmptyFlat(c: Config, k: nat)
    ensures k < |c.groups| ==> Flat(c.groups[k][..0]) == []
  {
  }

  lemma SenderStepInv(c: Config, n: Sender, a: SenderStep)
    requires ValidConfig(c) && SenderInv(c, n)
    requires match a
      case Pack => CanPack(c, n)
      case Launch => CanLaunch(c, n)
      case Publish => CanPublish(n)
      case Leave => n.op.Some?
      case Return => n.pc.Last? && Awaited(n.op)
    ensures SenderInv(c, SenderAfter(c, n, a))
  {
    match a
    case Pack => PackInv(c, n);
    case Launch => LaunchInv(c, n);
    case _ =>
  }

  // ----- Between the sender and a receiver -----

  /** How many metadata the sender has published. */
  function Published(x: Sender): nat {
    if x.b > 0 && x.op.Some? && x.op.value.phase.Queued? then x.b - 1 else x.b
  }

  /** How many metadata the receiver has taken. */
  function Taken(n: Receiver): nat {
    if n.op.Some? && !n.op.value.phase.Queued? then n.b + 1 else n.b
  }

  /** How many buckets have arrived completely, awaited or not. */
  function Got(c: Config, n: Receiver): nat {
    if HasBytes(c, n, n.b) then n.b + 1 else n.b
  }

  ghost predicate LinkInv(c: Config, x: Sender, n: Receiver) {
    && ReceiverInv(c, n)
    && x.b <= Got(c, n) + 1 && Taken(n) <= Published(x)
    && (x.op.Some? && x.op.value.phase.Returned? ==> x.b <= Got(c, n))
    && n.inbox == (if Taken(n) < Published(x) then [MetaAt(c, Taken(n))] else [])
    && (n.op.Some? && n.op.value.phase.Moving? && !HasBytes(c, n, n.b) ==> CopiedInv(c, x, n, n.op.value))
  }

  /** The bytes copied so far are those of the sender's buffer, which belongs to the same call. */
  ghost predicate CopiedInv(c: Config, x: Sender, n: Receiver, op: Operation)
    requires op.phase.Moving?
  {
    && x.op.Some? && x.b == n.b + 1 && |x.Buf(x.op.value.side)| == |n.Buf(op.side)| == c.cap
    && forall i :: i in op.phase.copied ==> i < c.cap && n.Buf(op.side)[i] == x.Buf(x.op.value.side)[i]
  }

  ghost predicate ReceiverInv(c: Config, n: Receiver) {
    && |n.buf0| == |n.buf1| == c.cap
    && n.b <= |c.groups|
    && (n.op == None <==> n.pc.Idle? || n.b == |c.groups|)
    && (n.op.Some? ==> n.op.value.side == !n.side)
    && (n.op.Some? && !n.op.value.phase.Queued? ==> n.b < |c.groups| && n.op.value.meta == MetaAt(c, n.b))
    && (n.op.Some? && n.op.value.phase.Moving? ==> forall i :: i in n.op.value.phase.copied ==> i < c.cap)
    && (HasBytes(c, n, n.b) ==> Holds(c, n.Buf(!n.side), n.b))
    && n.meta == (if n.b == 0 then NO_META else MetaAt(c, n.b - 1))
    && (n.b > 0 ==> Holds(c, n.Buf(n.side), n.b - 1))
    && match n.pc
       case Idle => n.b == 0 && n.yielded == []
       case Giving(j) => j <= |n.meta.entries| && n.yielded == Given(c, n.b, j)
       case Ended => n.b == |c.groups| && n.yielded == Given(c, n.b, |n.meta.entries|)
  }

  /** What has been yielded after `b` buckets, `j` entries into the last one. */
  function Given(c: Config, b: nat, j: nat): seq<Weight> {
    if b == 0 || b > |c.groups| || j > |c.groups[b - 1]| then []
    else Concat(c.groups[..b - 1]) + c.groups[b - 1][..j]
  }

  lemma BeginInv(c: Config, x: Sender, n: Receiver)
    requires ValidConfig(c) && LinkInv(c, x, n) && n.pc.Idle?
    ensures LinkInv(c, x, Received(c, x, n, Begin))
  {
    hide Flat, Metas;
  }

  lemma TakeInv(c: Config, x: Sender, n: Receiver)
    requires ValidConfig(c) && SenderInv(c, x) && LinkInv(c, x, n) && CanReceive(c, x, n, Take)
    ensures LinkInv(c, x, Received(c, x, n, Take))
  {
    hide Flat, Metas, Given, Holds;
    QueuedLacksBytes(c, n);
    JustTaken(c, Received(c, x, n, Take));
    EmptyBucket(c, n.Buf(!n.side), n.b);
    hide HasBytes;
  }

  lemma QueuedLacksBytes(c: Config, n: Receiver)
    requires n.op.Some? && n.op.value.phase.Queued?
    ensures !HasBytes(c, n, n.b)
  {
  }

  lemma JustTaken(c: Config, n: Receiver)
    requires n.op.Some? && n.op.value.phase == Moving({})
    ensures HasBytes(c, n, n.b) <==> c.cap == 0
  {
    assert c.cap > 0 ==> 0 !in n.op.value.phase.copied;
  }

  /** Without any bytes, every bucket is empty. */
  lemma EmptyBucket(c: Config, buf: seq<Byte>, k: nat)
    requires ValidConfig(c)
    ensures k < |c.groups| && c.cap == 0 ==> Holds(c, buf, k)
  {
  }

  lemma CopyInv(c: Config, x: Sender, n: Receiver, i: nat)
    requires ValidConfig(c) && SenderInv(c, x) && LinkInv(c, x, n) && CanCopy(x, n, i)
    ensures LinkInv(c, x, Copied(x, n, i))
  {
    hide Flat, Metas, Given;
    var n' := Copied(x, n, i);
    assert !HasBytes(c, n, n.b);
    assert CopiedInv(c, x, n', n'.op.value);
    if HasBytes(c, n', n.b) {
      assert n'.Buf(!n.side) == x.Buf(x.op.value.side);
    }
  }

  lemma ArriveInv(c: Config, x: Sender, n: Receiver)
    requires ValidConfig(c) && LinkInv(c, x, n) && CanReceive(c, x, n, Arrive)
    ensures LinkInv(c, x, Received(c, x, n, Arrive))
  {
    hide Flat, Metas, Given;
  }

  lemma GiveInv(c: Config, x: Sender, n: Receiver)
    requires ValidConfig(c) && LinkInv(c, x, n) && CanGive(n)
    ensures LinkInv(c, x, Gave(n))
  {
    hide Flat, Metas, Cut;
    NextGiven(c, n.Buf(n.side), n.b, n.pc.given);
  }

  /** Cutting the next entry out of the bucket gives the next weight. */
  lemma NextGiven(c: Config, buf: seq<Byte>, b: nat, j: nat)
    requires ValidConfig(c) && 0 < b && Holds(c, buf, b - 1) && j < |MetaAt(c, b - 1).entries|
    requires var e := MetaAt(c, b - 1).entries[j]; e.offset + e.Size() <= |buf|
    ensures Given(c, b, j + 1) == Given(c, b, j) + [Cut(buf, MetaAt(c, b - 1).entries[j])]
  {
    hide Metas, Cut;
    var g := c.groups[b - 1];
    MetasInOrder(g);
    CutGivesWeight(g, buf, j);
    assert g[..j + 1] == g[..j] + [g[j]];
  }

  lemma SwapInv(c: Config, x: Sender, n: Receiver)
    requires ValidConfig(c) && LinkInv(c, x, n) && CanSwap(n)
    ensures LinkInv(c, x, Swapped(n))
  {
    hide Flat, Metas, CopiedInv;
    GivenAll(c, n.b);
  }

  /** A bucket is yielded completely when all its entries are. */
  lemma GivenAll(c: Config, b: nat)
    requires ValidConfig(c) && b <= |c.groups|
    ensures b > 0 ==> |MetaAt(c, b - 1).entries| == |c.groups[b - 1]|
    ensures b > 0 ==> Given(c, b, |c.groups[b - 1]|) == Concat(c.groups[..b])
    ensures b < |c.groups| ==> Given(c, b + 1, 0) == Concat(c.groups[..b])
  {
    hide Flat, Metas;
    if b > 0 {
      MetasInOrder(c.groups[b - 1]);
      ConcatSnoc(c.groups[..b - 1], c.groups[b - 1]);
      assert c.groups[..b] == c.groups[..b - 1] + [c.groups[b - 1]];
    }
  }

  lemma EndInv(c: Config, x: Sender, n: Receiver)
    requires ValidConfig(c) && LinkInv(c, x, n) && CanReceive(c, x, n, End)
    ensures LinkInv(c, x, Received(c, x, n, End))
  {
    hide Flat, Metas, Given;
  }

  lemma ReceiverStepInv(c: Config, x: Sender, n: Receiver, a: ReceiverStep)
    requires ValidConfig(c) && SenderInv(c, x) && LinkInv(c, x, n) && CanReceive(c, x, n, a)
    ensures LinkInv(c, x, Received(c, x, n, a))
  {
    hide LinkInv, SenderInv, ValidConfig;
    match a
    case Begin => BeginInv(c, x, n);
    case Take => TakeInv(c, x, n);
    case Copy(i) => CopyInv(c, x, n, i);
    case Arrive => ArriveInv(c, x, n);
    case Give => GiveInv(c, x, n);
    case Swap => SwapInv(c, x, n);
    case End => EndInv(c, x, n);
  }

  lemma PackLink(c: Config, x: Sender, n: Receiver)
    requires ValidConfig(c) && SenderInv(c, x) && LinkInv(c, x, n) && CanPack(c, x)
    ensures LinkInv(c, Packed(c, x), n)
  {
    hide Flat, Metas, Given, HasBytes, ReceiverInv;
    PackInv(c, x);
  }

  lemma LaunchLink(c: Config, x: Sender, n: Receiver)
    requires ValidConfig(c) && SenderInv(c, x) && LinkInv(c, x, n) && CanLaunch(c, x)
    ensures LinkInv(c, Launched(c, x), n)
  {
    hide Flat, Metas, Given, ReceiverInv;
  }

  lemma PublishLink(c: Config, x: Sender, n: Receiver)
    requires ValidConfig(c) && SenderInv(c, x) && LinkInv(c, x, n) && CanPublish(x)
    ensures LinkInv(c, SenderAfter(c, x, Publish), Told(x, Publish, n))
  {
    hide Flat, Metas, Given;
  }

  lemma LeaveLink(c: Config, x: Sender, n: Receiver)
    requires SenderInv(c, x) && LinkInv(c, x, n)
    requires x.op.Some? && x.op.value.phase.Moving? && x.b > 0 && HasBytes(c, n, x.b - 1)
    ensures LinkInv(c, SenderAfter(c, x, Leave), n)
  {
    hide Flat, Metas, Given, ReceiverInv;
  }

  lemma SenderStepLink(c: Config, s: System, a: SenderStep, r: nat)
    requires ValidConfig(c) && |s.receivers| == c.ranks && r < c.ranks && Enabled(c, s, AtSender(a))
    requires SenderInv(c, s.sender) && LinkInv(c, s.sender, s.receivers[r])
    ensures LinkInv(c, SenderAfter(c, s.sender, a), Told(s.sender, a, s.receivers[r]))
  {
    hide Flat, Metas, Given, ReceiverInv, SenderInv, CopiedInv, HasBytes;
    match a
    case Pack => PackLink(c, s.sender, s.receivers[r]);
    case Launch => LaunchLink(c, s.sender, s.receivers[r]);
    case Publish => PublishLink(c, s.sender, s.receivers[r]);
    case Leave => LeaveLink(c, s.sender, s.receivers[r]);
    case Return => ReturnLink(c, s.sender, s.receivers[r]);
  }

  lemma ReturnLink(c: Config, x: Sender, n: Receiver)
    requires LinkInv(c, x, n) && x.pc.Last?
    ensures LinkInv(c, SenderAfter(c, x, Return), n)
  {
    hide Flat, Metas, Given, ReceiverInv;
  }

  // ----- The system -----

  ghost predicate Inv(c: Config, s: System) {
    && |s.receivers| == c.ranks && SenderInv(c, s.sender)
    && forall r :: 0 <= r < c.ranks ==> LinkInv(c, s.sender, s.receivers[r])
  }

  lemma StartInv(c: Config, s: System)
    requires ValidConfig(c) && Start(c, s)
    ensures Inv(c, s)
  {
    hide Metas, Flat;
    EmptyFlat(c, 0);
    forall r | 0 <= r < c.ranks ensures LinkInv(c, s.sender, s.receivers[r]) {
    }
  }

  /** Every step of the sender, of a receiver or of one of their threads keeps the invariant. */
  lemma StepKeepsInv(c: Config, s: System, a: Step)
    requires ValidConfig(c) && Inv(c, s) && Enabled(c, s, a)
    ensures Inv(c, Apply(c, s, a))
  {
    hide LinkInv, SenderInv, CanReceive, Received, SenderAfter, Told, ValidConfig;
    match a
    case AtReceiver(r, receive) =>
      ReceiverStepInv(c, s.sender, s.receivers[r], receive);
    case AtSender(send) =>
      SenderStepInv(c, s.sender, send);
      forall r | 0 <= r < c.ranks
        ensures LinkInv(c, SenderAfter(c, s.sender, send), Told(s.sender, send, s.receivers[r]))
      {
        SenderStepLink(c, s, send, r);
      }
  }

  lemma {:induction false} RunInv(c: Config, states: seq<System>, acts: seq<Step>, t: nat)
    requires ValidConfig(c) && IsRun(c, states, acts) && t < |states|
    ensures Inv(c, states[t])
  {
    hide Inv, Apply, Enabled;
    if t == 0 {
      StartInv(c, states[0]);
    } else {
      RunInv(c, states, acts, t - 1);
      StepKeepsInv(c, states[t - 1], acts[t - 1]);
    }
  }
}
