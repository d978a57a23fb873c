/**
 * The NIXL weight relay as a step relation. Rank 0 (the trainer) fills buckets; ranks 1..ranks form a chain, each
 * reading the bucket its predecessor announced while handing the bucket before it to its successor.
 * One action is the code between two suspension points, one byte of a one-sided read, or the end of a read.
 */
module Relay {
  import opened Buckets
  import opened Options
  import opened Weights

  /** A `notify_key`: the bytes of a UUID. Nothing below relies on keys being different. */
  type Key = seq<Byte>

  /** What travels over ZeroMQ: `side` names the buffer that `remote_descs` describe. */
  datatype Message = Message(key: Key, side: bool, meta: BucketMeta)

  /** A `ReadableOperation` that has not been waited for. */
  datatype Readable = Readable(key: Key, side: bool)

  /** A `ReadOperation` between `begin_read` and the end of `wait_for_complete`. */
  datatype Transfer = Transfer(key: Key, side: bool, copied: set<nat>, done: bool)

  datatype Pc =
    | Filling(packed: nat)   // rank 0: packing bucket b
    | Draining               // rank 0: the last bucket is announced
    | Announcing             // bucket b-1 has arrived and can be offered to the next rank
    | AwaitMeta              // waiting for the metadata of bucket b
    | Yielding(given: nat)   // yielding from bucket b-1, while bucket b (if any) is being read
    | Finished

  /**
   * One agent. `b` counts the buckets announced (rank 0) or received (other ranks); `side` names the buffer
   * that the local variable `send_buf` refers to.
   */
  datatype Node = Node(
    pc: Pc, b: nat, side: bool, buf0: seq<Byte>, buf1: seq<Byte>,
    op: Option<Readable>, meta: BucketMeta, next: BucketMeta, read: Option<Transfer>,
    inbox: seq<Message>, notes: seq<Key>, yielded: seq<Weight>)
  {
    function Buf(s: bool): seq<Byte> { if s then buf1 else buf0 }

    function WithBuf(s: bool, bytes: seq<Byte>): Node {
      if s then this.(buf1 := bytes) else this.(buf0 := bytes)
    }
  }

  type State = seq<Node>

  ghost predicate Init(c: Config, s: State) {
    && |s| == c.ranks + 1
    && forall r :: 0 <= r <= c.ranks ==>
      && |s[r].buf0| == c.cap && |s[r].buf1| == c.cap
      && s[r] == Node(if r == 0 then Filling(0) else AwaitMeta, 0, false, s[r].buf0, s[r].buf1,
                      None, BucketMeta([], false), BucketMeta([], false), None, [], [], [])
  }

  datatype Action =
    | Fill                       // nixl_checkpoint_engine.py:414-421
    | Announce(r: nat, key: Key) // 397-408, 428-430, 461-467, 495-502
    | Ack(r: nat)                // 393-394, 425-426, 431, 482-483, 512-513
    | Start(r: nat)              // 448-450, 470-472
    | Copy(r: nat, i: nat)       // one byte of the one-sided read
    | Complete(r: nat)           // the read ends and its notification is delivered
    | Yield(r: nat)              // 475-479, 505-509
    | Swap(r: nat)               // 451-457, 484-492
    | Finish(r: nat)             // return

  /** The bucket in hand is completely packed (rank 0) or completely yielded (other ranks). */
  predicate AtEnd(c: Config, n: Node) {
    || (n.pc.Filling? && n.b < |c.groups| && n.pc.packed == |c.groups[n.b]|)
    || n.pc.Draining?
    || (n.pc.Yielding? && n.pc.given == |n.meta.entries|)
  }

  predicate Enabled(c: Config, s: State, a: Action)
    requires |s| == c.ranks + 1
  {
    match a
    case Fill =>
      var n := s[0];
      n.pc.Filling? && n.b < |c.groups| && n.pc.packed < |c.groups[n.b]|
      && |Flat(c.groups[n.b][..n.pc.packed])| + |c.groups[n.b][n.pc.packed].data| <= |n.Buf(n.side)|
    case Announce(r, _) =>
      r <= c.ranks
      && (s[r].pc.Announcing? || (s[r].pc.Filling? && AtEnd(c, s[r]) && s[r].op == None))
    case Ack(r) =>
      r <= c.ranks && AtEnd(c, s[r]) && s[r].op.Some? && s[r].notes != []
    case Start(r) =>
      0 < r <= c.ranks && s[r].pc.AwaitMeta? && s[r].inbox != []
    case Copy(r, i) =>
      0 < r <= c.ranks && s[r].read.Some? && !s[r].read.value.done && i !in s[r].read.value.copied
      && i < |s[r].Buf(!s[r].side)| && i < |s[r - 1].Buf(s[r].read.value.side)|
    case Complete(r) =>
      0 < r <= c.ranks && s[r].read.Some? && !s[r].read.value.done
      && forall i :: 0 <= i < c.cap ==> i in s[r].read.value.copied
    case Yield(r) =>
      0 < r <= c.ranks && s[r].pc.Yielding? && s[r].pc.given < |s[r].meta.entries|
      && var e := s[r].meta.entries[s[r].pc.given]; e.offset + e.Size() <= |s[r].Buf(s[r].side)|
    case Swap(r) =>
      0 < r <= c.ranks && s[r].pc.Yielding? && AtEnd(c, s[r]) && s[r].op == None && !s[r].meta.isLast
      && s[r].read.Some? && s[r].read.value.done
    case Finish(r) =>
      r <= c.ranks && s[r].op == None
      && (s[r].pc.Draining? || (s[r].pc.Yielding? && AtEnd(c, s[r]) && s[r].meta.isLast))
  }

  // The effect of each action on the agents it touches.

  function Filled(c: Config, n: Node): Node
    requires n.pc.Filling? && n.b < |c.groups| && n.pc.packed < |c.groups[n.b]|
    requires |Flat(c.groups[n.b][..n.pc.packed])| + |c.groups[n.b][n.pc.packed].data| <= |n.Buf(n.side)|
  {
    var g, j := c.groups[n.b], n.pc.packed;
    n.WithBuf(n.side, Overwrite(n.Buf(n.side), |Flat(g[..j])|, g[j].data)).(pc := Filling(j + 1))
  }

  /** The announcing rank; the last rank of the chain has nobody to announce to. */
  function Announced(c: Config, r: nat, n: Node, key: Key): Node {
    if n.pc.Filling? then
      if n.b + 1 == |c.groups| then n.(op := Some(Readable(key, n.side)), b := n.b + 1, pc := Draining)
      else n.(op := Some(Readable(key, n.side)), b := n.b + 1, pc := Filling(0), side := !n.side)
    else
      n.(op := if r < c.ranks then Some(Readable(key, n.side)) else None,
         pc := if n.meta.isLast then Yielding(0) else AwaitMeta)
  }

  /** The metadata that goes with the announcement. */
  function AnnouncedMeta(c: Config, n: Node): BucketMeta {
    if n.pc.Filling? && n.b < |c.groups| then MetaOf(c, n.b) else n.meta
  }

  function Offered(n: Node, m: Message): Node {
    n.(inbox := n.inbox + [m])
  }

  function Acked(n: Node): Node
    requires n.notes != []
  {
    n.(op := None, notes := n.notes[1..])
  }

  function Started(n: Node): Node
    requires n.inbox != []
  {
    var m := n.inbox[0];
    n.(inbox := n.inbox[1..], next := m.meta, read := Some(Transfer(m.key, m.side, {}, false)), pc := Yielding(0))
  }

  function Copied(n: Node, i: nat, byte: Byte): Node
    requires n.read.Some? && i < |n.Buf(!n.side)|
  {
    n.WithBuf(!n.side, n.Buf(!n.side)[i := byte])
     .(read := Some(n.read.value.(copied := n.read.value.copied + {i})))
  }

  function ReadDone(n: Node): Node
    requires n.read.Some?
  {
    n.(read := Some(n.read.value.(done := true)))
  }

  function Notified(n: Node, key: Key): Node {
    n.(notes := n.notes + [key])
  }

  function Gave(n: Node): Node
    requires n.pc.Yielding? && n.pc.given < |n.meta.entries|
    requires var e := n.meta.entries[n.pc.given]; e.offset + e.Size() <= |n.Buf(n.side)|
  {
    n.(yielded := n.yielded + [Cut(n.Buf(n.side), n.meta.entries[n.pc.given])], pc := Yielding(n.pc.given + 1))
  }

  function Swapped(n: Node): Node {
    n.(b := n.b + 1, side := !n.side, meta := n.next, read := None, pc := Announcing)
  }

  function Apply(c: Config, s: State, a: Action): State
    requires |s| == c.ranks + 1 && Enabled(c, s, a)
  {
    match a
    case Fill => s[0 := Filled(c, s[0])]
    case Announce(r, key) =>
      if r < c.ranks then
        s[r := Announced(c, r, s[r], key)]
         [r + 1 := Offered(s[r + 1], Message(key, s[r].side, AnnouncedMeta(c, s[r])))]
      else s[r := Announced(c, r, s[r], key)]
    case Ack(r) => s[r := Acked(s[r])]
    case Start(r) => s[r := Started(s[r])]
    case Copy(r, i) => s[r := Copied(s[r], i, s[r - 1].Buf(s[r].read.value.side)[i])]
    case Complete(r) => s[r - 1 := Notified(s[r - 1], s[r].read.value.key)][r := ReadDone(s[r])]
    case Yield(r) => s[r := Gave(s[r])]
    case Swap(r) => s[r := Swapped(s[r])]
    case Finish(r) => s[r := s[r].(pc := Finished)]
  }

  /** A run: `acts[t]` leads from `states[t]` to `states[t + 1]`. */
  ghost predicate IsRun(c: Config, states: seq<State>, acts: seq<Action>) {
    && |states| == |acts| + 1
    && Init(c, states[0])
    && forall t :: 0 <= t < |acts| ==>
      |states[t]| == c.ranks + 1 && Enabled(c, states[t], acts[t]) && states[t + 1] == Apply(c, states[t], acts[t])
  }

  ghost predicate AllFinished(c: Config, s: State) {
    |s| == c.ranks + 1 && forall r :: 0 <= r <= c.ranks ==> s[r].pc.Finished?
  }
}
