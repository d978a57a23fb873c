/** What holds over every run of the broadcast engine: pairing, fidelity, buffer safety, and completion. */
module BroadcastTheorems {
  import opened Arithmetic
  import opened Buckets
  import opened Options
  import opened Seqs
  import opened Weights
  import opened Broadcast
  import opened BroadcastInvariant
  import opened Ranges
  import Packing

  // ----- Fidelity -----

  lemma YieldedIsPrefix(c: Config, n: Receiver)
    requires ValidConfig(c) && ReceiverInv(c, n)
    ensures n.yielded <= Concat(c.groups)
    ensures n.pc.Ended? ==> n.yielded == Concat(c.groups)
  {
    hide Metas, Flat, Concat;
    if n.b > 0 {
      var g := c.groups[n.b - 1];
      GivenAll(c, n.b);
      ConcatTake(c.groups, n.b - 1);
      assert g[..|g|] == g;
      assert n.b == |c.groups| ==> c.groups[..n.b] == c.groups;
    }
  }

  /** Every receiver yields a prefix of what the sender packed, and all of it once it has returned. */
  lemma Fidelity(weights: seq<Weight>, bucketSize: nat, ranks: nat, states: seq<System>, acts: seq<Step>, t: nat, r: nat)
    requires DistinctNames(weights) && Packing.AllFit(weights, bucketSize) && r < ranks
    requires IsRun(PackedConfig(weights, bucketSize, ranks), states, acts) && t < |states|
    ensures r < |states[t].receivers|
    ensures states[t].receivers[r].yielded <= weights
    ensures states[t].receivers[r].pc.Ended? ==> states[t].receivers[r].yielded == weights
  {
    var c := PackedConfig(weights, bucketSize, ranks);
    PackedConfigIsValid(weights, bucketSize, ranks);
    RunInv(c, states, acts, t);
    assert LinkInv(c, states[t].sender, states[t].receivers[r]);
    YieldedIsPrefix(c, states[t].receivers[r]);
  }

  /**
   * The metadata of bucket `k` and the bytes of bucket `k` travel separately, but meet: a receiver that has all the
   * bytes of a call holds the metadata of the same bucket, and so does the bucket it is yielding from.
   */
  lemma MetadataMatchBytes(c: Config, states: seq<System>, acts: seq<Step>, t: nat, r: nat)
    requires ValidConfig(c) && IsRun(c, states, acts) && t < |states| && r < c.ranks
    ensures r < |states[t].receivers|
    ensures var n := states[t].receivers[r];
      HasBytes(c, n, n.b) ==>
        n.b < |c.groups| && n.op.value.meta == MetaOf(c, n.b) && Flat(c.groups[n.b]) <= n.Buf(n.op.value.side)
    ensures var n := states[t].receivers[r];
      n.b > 0 ==> n.b <= |c.groups| && n.meta == MetaOf(c, n.b - 1) && Flat(c.groups[n.b - 1]) <= n.Buf(n.side)
  {
    hide Flat, Metas, IsRun;
    RunInv(c, states, acts, t);
    assert LinkInv(c, states[t].sender, states[t].receivers[r]);
  }

  // ----- Buffer safety -----

  /** The sender's buffer `side` is being broadcast, or some receiver still lacks bytes of it. */
  ghost predicate SenderBusy(c: Config, s: System, side: bool) {
    s.sender.op.Some? && s.sender.op.value.side == side
    && (!s.sender.op.value.phase.Returned?
        || exists r :: 0 <= r < |s.receivers| && s.sender.b > 0 && !HasBytes(c, s.receivers[r], s.sender.b - 1))
  }

  /** The receiver's buffer `side` is being yielded from, or holds a bucket that was not yielded yet. */
  ghost predicate ReceiverBusy(c: Config, n: Receiver, side: bool) {
    (n.b > 0 && !n.pc.Ended? && side == n.side) || (HasBytes(c, n, n.b) && side == !n.side)
  }

  lemma PackIsSafe(c: Config, s: System)
    requires Inv(c, s) && CanPack(c, s.sender)
    ensures !SenderBusy(c, s, s.sender.side)
  {
    hide Flat, Metas;
  }

  lemma CopyIsSafe(c: Config, x: Sender, n: Receiver, i: nat)
    requires LinkInv(c, x, n) && CanCopy(x, n, i)
    ensures !ReceiverBusy(c, n, n.op.value.side)
  {
    hide Flat, Metas, Given;
  }

  lemma OthersKeepBuffers(c: Config, x: Sender, n: Receiver, a: ReceiverStep, side: bool)
    requires CanReceive(c, x, n, a) && (a.Copy? ==> side != n.op.value.side)
    ensures Received(c, x, n, a).Buf(side) == n.Buf(side)
  {
    hide Flat, Metas, Cut;
  }

  /** No step of any run writes a busy buffer; a buffer that is not written keeps its bytes. */
  lemma BufferSafety(c: Config, states: seq<System>, acts: seq<Step>, t: nat, r: nat, side: bool)
    requires ValidConfig(c) && IsRun(c, states, acts) && t < |acts| && r < c.ranks
    ensures |states[t].receivers| == |states[t + 1].receivers| == c.ranks
    ensures SenderBusy(c, states[t], side) ==> states[t + 1].sender.Buf(side) == states[t].sender.Buf(side)
    ensures ReceiverBusy(c, states[t].receivers[r], side) ==>
      states[t + 1].receivers[r].Buf(side) == states[t].receivers[r].Buf(side)
  {
    var s, a := states[t], acts[t];
    assert |s.receivers| == c.ranks && Enabled(c, s, a) && states[t + 1] == Apply(c, s, a);
    RunInv(c, states, acts, t);
    StepIsSafe(c, s, a, r, side);
  }

  lemma StepIsSafe(c: Config, s: System, a: Step, r: nat, side: bool)
    requires Inv(c, s) && Enabled(c, s, a) && r < c.ranks
    ensures SenderBusy(c, s, side) ==> Apply(c, s, a).sender.Buf(side) == s.sender.Buf(side)
    ensures ReceiverBusy(c, s.receivers[r], side) ==> Apply(c, s, a).receivers[r].Buf(side) == s.receivers[r].Buf(side)
  {
    hide LinkInv, SenderInv, SenderBusy, ReceiverBusy, CanReceive, Received, HasBytes;
    match a
    case AtReceiver(q, receive) =>
      if q == r && ReceiverBusy(c, s.receivers[r], side) {
        ReceiverStepIsSafe(c, s.sender, s.receivers[r], receive, side);
      }
    case AtSender(send) =>
      if send == Pack {
        PackIsSafe(c, s);
      }
  }

  lemma ReceiverStepIsSafe(c: Config, x: Sender, n: Receiver, a: ReceiverStep, side: bool)
    requires LinkInv(c, x, n) && CanReceive(c, x, n, a) && ReceiverBusy(c, n, side)
    ensures Received(c, x, n, a).Buf(side) == n.Buf(side)
  {
    hide LinkInv, ReceiverBusy, Received, HasBytes;
    if a.Copy? {
      CopyIsSafe(c, x, n, a.i);
    }
    OthersKeepBuffers(c, x, n, a, side);
  }

  // ----- Queues and skew -----

  /** The sender is never more than one collective ahead, and every queue holds at most one metadata message. */
  lemma SkewAtMostOne(c: Config, states: seq<System>, acts: seq<Step>, t: nat, r: nat)
    requires ValidConfig(c) && IsRun(c, states, acts) && t < |states| && r < c.ranks
    ensures r < |states[t].receivers|
    ensures var (x, n) := (states[t].sender, states[t].receivers[r]);
      Got(c, n) <= x.b <= Got(c, n) + 1 && |n.inbox| <= 1 && (n.pc.Ended? ==> n.inbox == [])
  {
    hide Flat, Metas, IsRun;
    RunInv(c, states, acts, t);
    assert LinkInv(c, states[t].sender, states[t].receivers[r]);
  }

  // ----- No deadlock -----

  lemma GiveOrDone(c: Config, n: Receiver)
    requires ValidConfig(c) && ReceiverInv(c, n) && n.pc.Giving?
    ensures CanGive(n) || n.pc.given == |n.meta.entries|
  {
    hide Given, Metas;
    if n.pc.given < |n.meta.entries| {
      MetasInOrder(c.groups[n.b - 1]);
      CutGivesWeight(c.groups[n.b - 1], n.Buf(n.side), n.pc.given);
    }
  }

  /** A receiver can move unless it has returned or waits for metadata that are not published. */
  lemma ReceiverMoves(c: Config, x: Sender, n: Receiver) returns (a: ReceiverStep)
    requires ValidConfig(c) && LinkInv(c, x, n) && !n.pc.Ended?
    requires n.op.Some? && n.op.value.phase.Queued? ==> n.b < Published(x)
    ensures CanReceive(c, x, n, a)
  {
    hide Flat, Metas, Given;
    if n.pc.Idle? {
      a := Begin;
    } else if n.op.Some? && n.op.value.phase.Queued? {
      a := Take;
    } else if n.op.Some? && n.op.value.phase.Moving? {
      if HasBytes(c, n, n.b) {
        a := Arrive;
      } else {
        var i :| 0 <= i < c.cap && i !in n.op.value.phase.copied;
        a := Copy(i);
      }
    } else {
      GiveOrDone(c, n);
      a := if CanGive(n) then Give else if n.op.Some? then Swap else End;
    }
  }

  lemma PackOrLaunch(c: Config, n: Sender)
    requires ValidConfig(c) && SenderInv(c, n) && n.pc.Packing? && Awaited(n.op)
    ensures CanPack(c, n) || CanLaunch(c, n)
  {
    if n.pc.packed < |c.groups[n.b]| {
      NextFits(c.groups[n.b], n.pc.packed, c.cap);
    }
  }

  /** Every reachable state in which somebody has not returned has an enabled step. */
  lemma NoDeadlock(c: Config, states: seq<System>, acts: seq<Step>, t: nat) returns (a: Step)
    requires ValidConfig(c) && IsRun(c, states, acts) && t < |states| && !AllEnded(states[t])
    ensures |states[t].receivers| == c.ranks && Enabled(c, states[t], a)
  {
    RunInv(c, states, acts, t);
    a := SomeStep(c, states[t]);
  }

  lemma SomeStep(c: Config, s: System) returns (a: Step)
    requires ValidConfig(c) && Inv(c, s) && !AllEnded(s)
    ensures Enabled(c, s, a)
  {
    hide Flat, Metas, Given, ReceiverInv, ValidConfig, CanReceive, CanPack, HasBytes;
    var x := s.sender;
    if x.op.Some? && x.op.value.phase.Queued? {
      a := AtSender(Publish);
    } else if x.op.Some? && x.op.value.phase.Moving? {
      if r :| 0 <= r < c.ranks && !HasBytes(c, s.receivers[r], x.b - 1) {
        LacksBytes(c, x, s.receivers[r]);
        var m := ReceiverMoves(c, x, s.receivers[r]);
        a := AtReceiver(r, m);
      } else {
        a := AtSender(Leave);
      }
    } else if x.pc.Packing? {
      PackOrLaunch(c, x);
      a := if CanPack(c, x) then AtSender(Pack) else AtSender(Launch);
    } else if x.pc.Last? {
      a := AtSender(Return);
    } else {
      var r :| 0 <= r < c.ranks && !s.receivers[r].pc.Ended?;
      AllHaveArrived(c, x, s.receivers[r]);
      var m := ReceiverMoves(c, x, s.receivers[r]);
      a := AtReceiver(r, m);
    }
  }

  lemma LacksBytes(c: Config, x: Sender, n: Receiver)
    requires SenderInv(c, x) && LinkInv(c, x, n) && x.op.Some? && x.op.value.phase.Moving? && !HasBytes(c, n, x.b - 1)
    ensures !n.pc.Ended? && n.b < Published(x)
  {
    hide Flat, Metas, Given;
  }

  lemma AllHaveArrived(c: Config, x: Sender, n: Receiver)
    requires ValidConfig(c) && SenderInv(c, x) && LinkInv(c, x, n) && x.pc.Sent?
    ensures n.op.Some? ==> !n.op.value.phase.Queued?
  {
    hide Flat, Metas, Given;
  }

  // ----- Every run ends -----

  /** More than the steps the sender spends on the buckets from `k` on. */
  function SenderCost(c: Config, k: nat): nat
    decreases |c.groups| - k
  {
    if k >= |c.groups| then 0 else |c.groups[k]| + 4 + SenderCost(c, k + 1)
  }

  /** More than the steps a receiver spends on the buckets from `k` on. */
  function ReceiverCost(c: Config, k: nat): nat
    decreases |c.groups| - k
  {
    if k >= |c.groups| then 0 else |c.groups[k]| + c.cap + 5 + ReceiverCost(c, k + 1)
  }

  /** A bound on the steps the sender and its thread can still take. */
  function SenderWork(c: Config, n: Sender): int {
    SenderCost(c, n.b)
    + (match n.pc case Packing(j) => 1 - j as int case Last => 1 case Sent => 0)
    + (if n.op == None then 0 else match n.op.value.phase case Queued => 2 case Moving(_) => 1 case Returned => 0)
  }

  function ThreadSteps(c: Config, op: Option<Operation>): nat {
    if op == None then 0 else
      match op.value.phase
      case Queued => 0
      case Moving(copied) => 1 + |copied|
      case Returned => c.cap + 2
  }

  /** A bound on the steps a receiver and its thread can still take. */
  function ReceiverWork(c: Config, n: Receiver): int {
    ReceiverCost(c, n.b) - ThreadSteps(c, n.op)
    + (match n.pc case Idle => 2 case Giving(j) => 1 + |n.meta.entries| - j case Ended => 0)
  }

  function ReceiversWork(c: Config, ns: seq<Receiver>): int {
    if ns == [] then 0 else ReceiverWork(c, ns[0]) + ReceiversWork(c, ns[1..])
  }

  function TotalWork(c: Config, s: System): int {
    SenderWork(c, s.sender) + ReceiversWork(c, s.receivers)
  }

  lemma {:induction false} ReceiversUpdate(c: Config, ns: seq<Receiver>, r: nat, n: Receiver)
    requires r < |ns|
    ensures ReceiversWork(c, ns[r := n]) == ReceiversWork(c, ns) - ReceiverWork(c, ns[r]) + ReceiverWork(c, n)
  {
    if r == 0 {
      assert ns[0 := n][1..] == ns[1..];
    } else {
      ReceiversUpdate(c, ns[1..], r - 1, n);
      assert ns[r := n][1..] == ns[1..][r - 1 := n];
    }
  }

  lemma {:induction false} ReceiversSame(c: Config, ns: seq<Receiver>, ms: seq<Receiver>)
    requires |ns| == |ms| && forall r :: 0 <= r < |ns| ==> ReceiverWork(c, ms[r]) == ReceiverWork(c, ns[r])
    ensures ReceiversWork(c, ms) == ReceiversWork(c, ns)
  {
    if ns != [] {
      ReceiversSame(c, ns[1..], ms[1..]);
    }
  }

  lemma {:induction false} ReceiversNatural(c: Config, ns: seq<Receiver>)
    requires ValidConfig(c) && forall r :: 0 <= r < |ns| ==> ReceiverInv(c, ns[r])
    ensures ReceiversWork(c, ns) >= 0
  {
    if ns != [] {
      WorkIsNatural(c, ns[0]);
      ReceiversNatural(c, ns[1..]);
    }
  }

  lemma WorkIsNatural(c: Config, n: Receiver)
    requires ValidConfig(c) && ReceiverInv(c, n)
    ensures ReceiverWork(c, n) >= 0
  {
    hide Flat, Metas, Given, Holds;
    if n.op.Some? && n.op.value.phase.Moving? {
      RangeSize(n.op.value.phase.copied, 0, c.cap);
    }
  }

  lemma SenderStepWorks(c: Config, s: System, a: SenderStep)
    requires ValidConfig(c) && |s.receivers| == c.ranks && SenderInv(c, s.sender) && Enabled(c, s, AtSender(a))
    ensures SenderWork(c, SenderAfter(c, s.sender, a)) < SenderWork(c, s.sender)
  {
    hide Flat, Metas, Holds, HasBytes;
  }

  lemma ReceiverStepWorks(c: Config, x: Sender, n: Receiver, a: ReceiverStep)
    requires ValidConfig(c) && ReceiverInv(c, n) && CanReceive(c, x, n, a)
    ensures ReceiverWork(c, Received(c, x, n, a)) < ReceiverWork(c, n)
  {
    hide Flat, Metas, Given, Holds, Cut;
    if a.Arrive? {
      RangeSize(n.op.value.phase.copied, 0, c.cap);
    } else if a.Swap? {
      MetasInOrder(c.groups[n.b]);
    }
  }

  /** Every step uses up work. */
  lemma StepWorks(c: Config, s: System, a: Step)
    requires ValidConfig(c) && Inv(c, s) && Enabled(c, s, a)
    ensures TotalWork(c, Apply(c, s, a)) < TotalWork(c, s)
  {
    hide LinkInv, SenderInv, SenderWork, ReceiverWork, CanReceive, Received, SenderAfter, ValidConfig;
    match a
    case AtReceiver(r, receive) =>
      LinkHasReceiver(c, s.sender, s.receivers[r]);
      ReceiverStepWorks(c, s.sender, s.receivers[r], receive);
      ReceiversUpdate(c, s.receivers, r, Received(c, s.sender, s.receivers[r], receive));
    case AtSender(send) =>
      SenderStepWorks(c, s, send);
      forall r | 0 <= r < c.ranks ensures ReceiverWork(c, Told(s.sender, send, s.receivers[r])) == ReceiverWork(c, s.receivers[r]) {
        ToldWork(c, s.sender, send, s.receivers[r]);
      }
      ReceiversSame(c, s.receivers, Apply(c, s, a).receivers);
  }

  lemma LinkHasReceiver(c: Config, x: Sender, n: Receiver)
    requires LinkInv(c, x, n)
    ensures ReceiverInv(c, n)
  {
  }

  lemma ToldWork(c: Config, x: Sender, a: SenderStep, n: Receiver)
    ensures ReceiverWork(c, Told(x, a, n)) == ReceiverWork(c, n)
  {
  }

  lemma {:induction false} InitialWork(c: Config, ns: seq<Receiver>)
    requires forall r :: 0 <= r < |ns| ==> ReceiverWork(c, ns[r]) == 2 + ReceiverCost(c, 0)
    ensures ReceiversWork(c, ns) == |ns| * (2 + ReceiverCost(c, 0))
  {
    hide ReceiverWork, ReceiverCost;
    if ns != [] {
      InitialWork(c, ns[1..]);
      StepDown(|ns|, 2 + ReceiverCost(c, 0));
    }
  }

  function RunBound(c: Config): nat {
    1 + SenderCost(c, 0) + c.ranks * (2 + ReceiverCost(c, 0))
  }

  lemma {:induction false} WorkLeft(c: Config, states: seq<System>, acts: seq<Step>, t: nat)
    requires ValidConfig(c) && IsRun(c, states, acts) && t < |states|
    ensures t + TotalWork(c, states[t]) <= RunBound(c)
  {
    if t == 0 {
      hide Enabled, Apply, ReceiversWork, SenderCost, ReceiverCost;
      InitialWork(c, states[0].receivers);
    } else {
      hide TotalWork, Apply, Enabled, RunBound, Inv;
      WorkLeft(c, states, acts, t - 1);
      RunInv(c, states, acts, t - 1);
      StepWorks(c, states[t - 1], acts[t - 1]);
    }
  }

  /** No run is longer than a bound fixed by the configuration. */
  lemma RunsAreBounded(c: Config, states: seq<System>, acts: seq<Step>)
    requires ValidConfig(c) && IsRun(c, states, acts)
    ensures |acts| <= RunBound(c)
  {
    hide RunBound, Apply, Enabled, LinkInv, ReceiverInv;
    var s := states[|acts|];
    WorkLeft(c, states, acts, |acts|);
    RunInv(c, states, acts, |acts|);
    forall r | 0 <= r < c.ranks ensures ReceiverInv(c, s.receivers[r]) {
      LinkHasReceiver(c, s.sender, s.receivers[r]);
    }
    ReceiversNatural(c, s.receivers);
  }

  lemma ExtendRun(c: Config, states: seq<System>, acts: seq<Step>, a: Step)
    requires IsRun(c, states, acts) && |states[|acts|].receivers| == c.ranks && Enabled(c, states[|acts|], a)
    ensures IsRun(c, states + [Apply(c, states[|acts|], a)], acts + [a])
  {
    hide Enabled, Apply, Start;
    var states', acts' := states + [Apply(c, states[|acts|], a)], acts + [a];
    forall t | 0 <= t < |acts'|
      ensures |states'[t].receivers| == c.ranks && Enabled(c, states'[t], acts'[t])
              && states'[t + 1] == Apply(c, states'[t], acts'[t])
    {
      assert states'[t] == states[t];
      if t < |acts| {
        assert states'[t + 1] == states[t + 1];
      }
    }
  }

  /** Every run, however interleaved so far, can be continued until sender and receivers have returned. */
  lemma {:induction false} EveryRunCompletes(c: Config, states: seq<System>, acts: seq<Step>)
    returns (states': seq<System>, acts': seq<Step>)
    requires ValidConfig(c) && IsRun(c, states, acts)
    ensures IsRun(c, states', acts') && states <= states' && acts <= acts'
    ensures |states'| == |acts'| + 1 && AllEnded(states'[|acts'|])
    decreases RunBound(c) - |acts|
  {
    hide AllEnded, Enabled, Apply, ValidConfig, RunBound;
    if AllEnded(states[|acts|]) {
      states', acts' := states, acts;
    } else {
      var a := NoDeadlock(c, states, acts, |acts|);
      ExtendRun(c, states, acts, a);
      RunsAreBounded(c, states + [Apply(c, states[|acts|], a)], acts + [a]);
      states', acts' := EveryRunCompletes(c, states + [Apply(c, states[|acts|], a)], acts + [a]);
    }
  }
}
