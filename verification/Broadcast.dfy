/**
 * The NCCL broadcast engine as a step relation: the sender, `ranks` receivers, and on each of them the executor thread
 * of its current `BroadcastOperation`. Metadata travel over one queue per receiver; the n-th collective call of the
 * sender is matched with the n-th call of every receiver, whose bytes may be copied one by one in any order.
 */
module Broadcast {
  import opened Buckets
  import opened Options
  import opened Weights

  /** Queued: the thread has not exchanged its metadata; Moving: it is inside the collective; Returned: it is done. */
  datatype Phase = Queued | Moving(copied: set<nat>) | Returned

  /** A `BroadcastOperation` on the buffer `side`. */
  datatype Operation = Operation(side: bool, meta: BucketMeta, phase: Phase)

  datatype SenderPc = Packing(packed: nat) | Last | Sent

  /** `b` counts the operations launched; `side` names the buffer that the local `send_buf` refers to. */
  datatype Sender = Sender(pc: SenderPc, b: nat, side: bool, buf0: seq<Byte>, buf1: seq<Byte>, op: Option<Operation>) {
    function Buf(s: bool): seq<Byte> { if s then buf1 else buf0 }

    function WithBuf(s: bool, bytes: seq<Byte>): Sender {
      if s then this.(buf1 := bytes) else this.(buf0 := bytes)
    }
  }

  datatype ReceiverPc = Idle | Giving(given: nat) | Ended

  /** `b` counts the buckets whose broadcast was awaited; `meta` is the metadata of the bucket being yielded. */
  datatype Receiver = Receiver(pc: ReceiverPc, b: nat, side: bool, buf0: seq<Byte>, buf1: seq<Byte>,
                               op: Option<Operation>, meta: BucketMeta, inbox: seq<BucketMeta>, yielded: seq<Weight>) {
    function Buf(s: bool): seq<Byte> { if s then buf1 else buf0 }

    function WithBuf(s: bool, bytes: seq<Byte>): Receiver {
      if s then this.(buf1 := bytes) else this.(buf0 := bytes)
    }
  }

  datatype System = System(sender: Sender, receivers: seq<Receiver>)

  const NO_META := BucketMeta([], false)

  ghost predicate Start(c: Config, s: System) {
    && s.sender == Sender(Packing(0), 0, false, s.sender.buf0, s.sender.buf1, None)
    && |s.sender.buf0| == |s.sender.buf1| == c.cap
    && |s.receivers| == c.ranks
    && forall r :: 0 <= r < c.ranks ==>
      && |s.receivers[r].buf0| == |s.receivers[r].buf1| == c.cap
      && s.receivers[r] == Receiver(Idle, 0, false, s.receivers[r].buf0, s.receivers[r].buf1, None, NO_META, [], [])
  }

  datatype SenderStep =
    | Pack        // nccl_checkpoint_engine.py:266-277
    | Launch      // 244-264, 279-291: the previous operation is awaited, the next one starts
    | Publish     // 73-76: the thread sends the metadata and enters the collective
    | Leave       // 82: the collective returns
    | Return      // 292-293

  datatype ReceiverStep =
    | Begin       // 302-312: the first operation
    | Take        // 77-79: the thread receives metadata and enters the collective
    | Copy(i: nat) // 82: one byte of the collective
    | Arrive      // 82: the collective returns
    | Give        // 333-337, 349-353
    | Swap        // 313-331, 339-346: the operation is awaited, the next one starts
    | End

  datatype Step = AtSender(send: SenderStep) | AtReceiver(r: nat, receive: ReceiverStep)

  function MetaAt(c: Config, k: nat): BucketMeta {
    if k < |c.groups| then MetaOf(c, k) else NO_META
  }

  /** `await broadcast_op.wait_for_complete()` returns, or there is nothing to await. */
  predicate Awaited(op: Option<Operation>) {
    op.Some? ==> op.value.phase.Returned?
  }

  // ----- The sender -----

  predicate CanPack(c: Config, n: Sender) {
    && n.pc.Packing? && n.b < |c.groups| && n.pc.packed < |c.groups[n.b]|
    && |Flat(c.groups[n.b][..n.pc.packed])| + |c.groups[n.b][n.pc.packed].data| <= |n.Buf(n.side)|
  }

  function Packed(c: Config, n: Sender): Sender
    requires CanPack(c, n)
  {
    var g, j := c.groups[n.b], n.pc.packed;
    n.WithBuf(n.side, Overwrite(n.Buf(n.side), |Flat(g[..j])|, g[j].data)).(pc := Packing(j + 1))
  }

  predicate CanLaunch(c: Config, n: Sender) {
    n.pc.Packing? && n.b < |c.groups| && n.pc.packed == |c.groups[n.b]| && Awaited(n.op)
  }

  /** The last bucket is launched without a swap. */
  function Launched(c: Config, n: Sender): Sender {
    var op := Some(Operation(n.side, MetaAt(c, n.b), Queued));
    if n.b + 1 == |c.groups| then n.(pc := Last, b := n.b + 1, op := op)
    else n.(pc := Packing(0), b := n.b + 1, side := !n.side, op := op)
  }

  predicate CanPublish(n: Sender) { n.op.Some? && n.op.value.phase.Queued? }

  function InPhase(op: Option<Operation>, phase: Phase): Option<Operation> {
    if op.Some? then Some(op.value.(phase := phase)) else None
  }

  // ----- A receiver -----

  /** The receiver is in (or past) its collective call number `k` and has all the bytes. */
  predicate HasBytes(c: Config, n: Receiver, k: nat) {
    || n.b > k
    || (n.b == k && n.op.Some?
        && (n.op.value.phase.Returned? || (n.op.value.phase.Moving? && forall i :: 0 <= i < c.cap ==> i in n.op.value.phase.copied)))
  }

  /** The sender is inside its collective call number `k`. */
  predicate Sending(n: Sender, k: nat) {
    n.op.Some? && n.op.value.phase.Moving? && n.b == k + 1
  }

  predicate CanCopy(x: Sender, n: Receiver, i: nat) {
    && n.op.Some? && n.op.value.phase.Moving? && i !in n.op.value.phase.copied && Sending(x, n.b)
    && i < |n.Buf(n.op.value.side)| && i < |x.Buf(x.op.value.side)|
  }

  function Copied(x: Sender, n: Receiver, i: nat): Receiver
    requires CanCopy(x, n, i)
  {
    var side := n.op.value.side;
    n.WithBuf(side, n.Buf(side)[i := x.Buf(x.op.value.side)[i]])
     .(op := InPhase(n.op, Moving(n.op.value.phase.copied + {i})))
  }

  predicate CanGive(n: Receiver) {
    n.pc.Giving? && n.pc.given < |n.meta.entries|
    && var e := n.meta.entries[n.pc.given]; e.offset + e.Size() <= |n.Buf(n.side)|
  }

  function Gave(n: Receiver): Receiver
    requires CanGive(n)
  {
    n.(yielded := n.yielded + [Cut(n.Buf(n.side), n.meta.entries[n.pc.given])], pc := Giving(n.pc.given + 1))
  }

  predicate CanSwap(n: Receiver) {
    n.pc.Giving? && n.pc.given == |n.meta.entries| && n.op.Some? && n.op.value.phase.Returned?
  }

  /** The buffers are swapped; unless the bucket is the last one, the next operation receives into the other buffer. */
  function Swapped(n: Receiver): Receiver
    requires n.op.Some?
  {
    var meta := n.op.value.meta;
    n.(b := n.b + 1, side := !n.side, meta := meta, pc := Giving(0),
       op := if meta.isLast then None else Some(Operation(n.side, NO_META, Queued)))
  }

  predicate CanReceive(c: Config, x: Sender, n: Receiver, a: ReceiverStep) {
    match a
    case Begin => n.pc.Idle?
    case Take => n.inbox != [] && n.op.Some? && n.op.value.phase.Queued?
    case Copy(i) => CanCopy(x, n, i)
    case Arrive => n.op.Some? && n.op.value.phase.Moving? && HasBytes(c, n, n.b)
    case Give => CanGive(n)
    case Swap => CanSwap(n)
    case End => n.pc.Giving? && n.pc.given == |n.meta.entries| && n.op == None
  }

  function Received(c: Config, x: Sender, n: Receiver, a: ReceiverStep): Receiver
    requires CanReceive(c, x, n, a)
  {
    match a
    case Begin => n.(op := Some(Operation(!n.side, NO_META, Queued)), pc := Giving(0))
    case Take => n.(inbox := n.inbox[1..], op := Some(n.op.value.(meta := n.inbox[0], phase := Moving({}))))
    case Copy(i) => Copied(x, n, i)
    case Arrive => n.(op := InPhase(n.op, Returned))
    case Give => Gave(n)
    case Swap => Swapped(n)
    case End => n.(pc := Ended)
  }

  // ----- The system -----

  predicate Enabled(c: Config, s: System, a: Step)
    requires |s.receivers| == c.ranks
  {
    match a
    case AtReceiver(r, receive) => r < c.ranks && CanReceive(c, s.sender, s.receivers[r], receive)
    case AtSender(Pack) => CanPack(c, s.sender)
    case AtSender(Launch) => CanLaunch(c, s.sender)
    case AtSender(Publish) => CanPublish(s.sender)
    case AtSender(Leave) =>
      s.sender.op.Some? && s.sender.op.value.phase.Moving? && s.sender.b > 0
      && forall r :: 0 <= r < c.ranks ==> HasBytes(c, s.receivers[r], s.sender.b - 1)
    case AtSender(Return) => s.sender.pc.Last? && Awaited(s.sender.op)
  }

  function SenderAfter(c: Config, n: Sender, a: SenderStep): Sender
    requires a.Pack? ==> CanPack(c, n)
  {
    match a
    case Pack => Packed(c, n)
    case Launch => Launched(c, n)
    case Publish => n.(op := InPhase(n.op, Moving({})))
    case Leave => n.(op := InPhase(n.op, Returned))
    case Return => n.(pc := Sent)
  }

  /** A receiver while the sender takes a step: publishing reaches every queue. */
  function Told(x: Sender, a: SenderStep, n: Receiver): Receiver {
    if a.Publish? && x.op.Some? then n.(inbox := n.inbox + [x.op.value.meta]) else n
  }

  function Apply(c: Config, s: System, a: Step): (s': System)
    requires |s.receivers| == c.ranks && Enabled(c, s, a)
    ensures |s'.receivers| == c.ranks
  {
    match a
    case AtReceiver(r, receive) =>
      s.(receivers := s.receivers[r := Received(c, s.sender, s.receivers[r], receive)])
    case AtSender(send) =>
      System(SenderAfter(c, s.sender, send),
             seq(c.ranks, r requires 0 <= r < c.ranks => Told(s.sender, send, s.receivers[r])))
  }

  ghost predicate IsRun(c: Config, states: seq<System>, acts: seq<Step>) {
    && |states| == |acts| + 1
    && Start(c, states[0])
    && forall t :: 0 <= t < |acts| ==>
      |states[t].receivers| == c.ranks && Enabled(c, states[t], acts[t]) && states[t + 1] == Apply(c, states[t], acts[t])
  }

  ghost predicate AllEnded(s: System) {
    s.sender.pc.Sent? && forall r :: 0 <= r < |s.receivers| ==> s.receivers[r].pc.Ended?
  }
}
