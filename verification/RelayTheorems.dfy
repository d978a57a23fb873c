/** What holds over every run of the relay: fidelity, buffer safety, no deadlock, and a bound on its length. */
module RelayTheorems {
  import opened Arithmetic
  import opened Buckets
  import opened Options
  import opened Seqs
  import opened Weights
  import opened Relay
  import opened RelayInvariant
  import opened Ranges
  import Packing

  // ----- Fidelity -----

  lemma YieldedIsPrefix(c: Config, s: State, r: nat)
    requires Inv(c, s) && 1 <= r <= c.ranks
    ensures s[r].yielded <= Concat(c.groups)
    ensures s[r].pc.Finished? ==> s[r].yielded == Concat(c.groups)
  {
    var n := s[r];
    assert NodeInv(c, r, n);
    if n.b > 0 {
      ConcatTake(c.groups, n.b - 1);
      if n.b == |c.groups| {
        assert c.groups == c.groups[..n.b - 1] + [c.groups[n.b - 1]];
        ConcatSnoc(c.groups[..n.b - 1], c.groups[n.b - 1]);
      }
    }
  }

  /**
   * In every interleaving, what a rollout rank has yielded is a prefix of what the trainer sent, and a rank that
   * has returned has yielded all of it.
   */
  lemma Fidelity(c: Config, states: seq<State>, acts: seq<Action>, t: nat, r: nat)
    requires ValidConfig(c) && IsRun(c, states, acts) && t < |states| && 1 <= r <= c.ranks
    ensures r < |states[t]|
    ensures states[t][r].yielded <= Concat(c.groups)
    ensures states[t][r].pc.Finished? ==> states[t][r].yielded == Concat(c.groups)
  {
    RunInv(c, states, acts, t);
    YieldedIsPrefix(c, states[t], r);
  }

  /** End to end, from the trainer's weight list to the (name, tensor) pairs a rollout rank yields. */
  lemma WeightsReachEveryRank(weights: seq<Weight>, bucketSize: nat, ranks: nat,
                              states: seq<State>, acts: seq<Action>, t: nat, r: nat)
    requires DistinctNames(weights) && Packing.AllFit(weights, bucketSize) && 1 <= r <= ranks
    requires IsRun(PackedConfig(weights, bucketSize, ranks), states, acts) && t < |states|
    ensures r < |states[t]|
    ensures states[t][r].yielded <= weights
    ensures states[t][r].pc.Finished? ==> states[t][r].yielded == weights
  {
    PackedConfigIsValid(weights, bucketSize, ranks);
    Fidelity(PackedConfig(weights, bucketSize, ranks), states, acts, t, r);
  }

  // ----- Buffer safety -----

  /** Buffer `side` of rank `r` must not be written. */
  ghost predicate Busy(c: Config, s: State, r: nat, side: bool)
    requires |s| == c.ranks + 1 && r <= c.ranks
  {
    || (s[r].op.Some? && s[r].op.value.side == side)                       // announced, not acknowledged
    || (r < c.ranks && s[r + 1].read.Some? && !s[r + 1].read.value.done
        && s[r + 1].read.value.side == side)                               // source of a read in flight
    || (r > 0 && s[r].b > 0 && !s[r].pc.Finished? && s[r].side == side)    // yielded from
  }

  /** The action writes (some byte of) buffer `side` of rank `r`. */
  ghost predicate Writes(s: State, a: Action, r: nat, side: bool)
    requires r < |s|
  {
    || (a == Fill && r == 0 && side == s[0].side)
    || (a.Copy? && a.r == r && side == !s[r].side)
  }

  lemma SenderWritesFreeBuffer(c: Config, s: State)
    requires Inv(c, s) && Enabled(c, s, Fill) && c.ranks >= 1
    ensures !Busy(c, s, 0, s[0].side)
  {
    assert NodeInv(c, 0, s[0]) && LinkInv(c, s[0], s[0 + 1]);
  }

  lemma ReaderWritesFreeBuffer(c: Config, s: State, r: nat, i: nat)
    requires Inv(c, s) && Enabled(c, s, Copy(r, i))
    ensures !Busy(c, s, r, !s[r].side)
  {
    assert NodeInv(c, r, s[r]);
    if r < c.ranks {
      assert LinkInv(c, s[r], s[r + 1]);
    }
  }

  lemma OnlyWritesChangeBuffers(c: Config, s: State, a: Action, r: nat, side: bool)
    requires |s| == c.ranks + 1 && Enabled(c, s, a) && r <= c.ranks && !Writes(s, a, r, side)
    ensures Apply(c, s, a)[r].Buf(side) == s[r].Buf(side)
  {
    hide Flat, Metas, Cut;
  }

  /** No step of any run writes a busy buffer, and only a write changes a buffer. */
  lemma BufferSafety(c: Config, states: seq<State>, acts: seq<Action>, t: nat, r: nat, side: bool)
    requires ValidConfig(c) && IsRun(c, states, acts) && t < |acts| && r <= c.ranks
    ensures |states[t]| == |states[t + 1]| == c.ranks + 1
    ensures Writes(states[t], acts[t], r, side) ==> !Busy(c, states[t], r, side)
    ensures !Writes(states[t], acts[t], r, side) ==> states[t + 1][r].Buf(side) == states[t][r].Buf(side)
  {
    hide NodeInv, LinkInv, Busy, Writes, Apply, Enabled;
    RunInv(c, states, acts, t);
    RunInv(c, states, acts, t + 1);
    var s, a := states[t], acts[t];
    WriteIsSafe(c, s, a, r, side);
    if !Writes(s, a, r, side) {
      OnlyWritesChangeBuffers(c, s, a, r, side);
    }
  }

  lemma WriteIsSafe(c: Config, s: State, a: Action, r: nat, side: bool)
    requires ValidConfig(c) && Inv(c, s) && Enabled(c, s, a) && r <= c.ranks
    ensures Writes(s, a, r, side) ==> !Busy(c, s, r, side)
  {
    hide NodeInv, LinkInv, Busy;
    if Writes(s, a, r, side) {
      if a == Fill {
        SenderWritesFreeBuffer(c, s);
      } else {
        ReaderWritesFreeBuffer(c, s, r, a.i);
      }
    }
  }

  // ----- Notifications, queues and skew -----

  /** `wait_for_complete` never sees a foreign notify key. */
  lemma NotifyKeysMatch(c: Config, states: seq<State>, acts: seq<Action>, t: nat, r: nat)
    requires ValidConfig(c) && IsRun(c, states, acts) && t < |states| && r <= c.ranks
    ensures r < |states[t]|
    ensures states[t][r].op.Some? && states[t][r].notes != [] ==> states[t][r].notes == [states[t][r].op.value.key]
    ensures |states[t][r].inbox| + |states[t][r].notes| <= 2
  {
    hide Flat, Metas, IsRun, ReadInv, Given;
    RunInv(c, states, acts, t);
    var s := states[t];
    assert NodeInv(c, r, s[r]);
    if r < c.ranks {
      assert LinkInv(c, s[r], s[r + 1]);
    }
    if r > 0 {
      assert LinkInv(c, s[r - 1], s[r - 1 + 1]);
    }
  }

  /** A finished run leaves no message and no notification behind. */
  lemma QueuesEndEmpty(c: Config, states: seq<State>, acts: seq<Action>, t: nat, r: nat)
    requires ValidConfig(c) && IsRun(c, states, acts) && t < |states| && AllFinished(c, states[t]) && r <= c.ranks
    ensures states[t][r].inbox == [] && states[t][r].notes == [] && states[t][r].op == None && states[t][r].read == None
  {
    hide Flat, Metas, IsRun, ReadInv, Given;
    RunInv(c, states, acts, t);
    var s := states[t];
    assert NodeInv(c, r, s[r]);
    if r < c.ranks {
      assert LinkInv(c, s[r], s[r + 1]);
    }
    if r > 0 {
      assert NodeInv(c, r - 1, s[r - 1]) && LinkInv(c, s[r - 1], s[r - 1 + 1]);
    }
  }

  /** Neighbouring rollout ranks differ by at most two completed reads, the earlier one being ahead. */
  lemma SkewAtMostTwo(c: Config, states: seq<State>, acts: seq<Action>, t: nat, r: nat)
    requires ValidConfig(c) && IsRun(c, states, acts) && t < |states| && 1 <= r < c.ranks
    ensures r + 1 < |states[t]|
    ensures 0 <= Completed(states[t][r]) - Completed(states[t][r + 1]) <= 2
  {
    RunInv(c, states, acts, t);
    assert NodeInv(c, r, states[t][r]) && LinkInv(c, states[t][r], states[t][r + 1]);
  }

  // ----- No deadlock -----

  predicate AwaitsNext(n: Node) { n.op.Some? && n.notes == [] }

  predicate AwaitsPrevious(n: Node) { n.pc.AwaitMeta? && n.inbox == [] }

  /** A read in flight can always go on. */
  lemma ReadMoves(c: Config, s: State, r: nat) returns (a: Action)
    requires Inv(c, s) && 0 < r <= c.ranks && s[r].read.Some? && !s[r].read.value.done
    ensures Enabled(c, s, a)
  {
    assert NodeInv(c, r, s[r]) && NodeInv(c, r - 1, s[r - 1]);
    if i :| 0 <= i < c.cap && i !in s[r].read.value.copied {
      a := Copy(r, i);
    } else {
      a := Complete(r);
    }
  }

  /** A rank that has not returned can step, unless it waits for a neighbour. */
  lemma RankMoves(c: Config, s: State, r: nat) returns (a: Action)
    requires ValidConfig(c) && Inv(c, s) && r <= c.ranks && !s[r].pc.Finished?
    requires !AwaitsNext(s[r]) && !AwaitsPrevious(s[r])
    ensures Enabled(c, s, a)
  {
    var n := s[r];
    assert NodeInv(c, r, n);
    match n.pc
    case Filling(j) =>
      if j < |c.groups[n.b]| {
        FilledInv(c, n);
        a := Fill;
      } else if n.op.Some? {
        a := Ack(r);
      } else {
        a := Announce(r, []);
      }
    case Draining =>
      a := if n.op.Some? then Ack(r) else Finish(r);
    case Announcing =>
      a := Announce(r, []);
    case AwaitMeta =>
      a := Start(r);
    case Yielding(j) =>
      if j < |n.meta.entries| {
        GaveInv(c, r, n);
        a := Yield(r);
      } else if n.op.Some? {
        a := Ack(r);
      } else if n.meta.isLast {
        a := Finish(r);
      } else if n.read.value.done {
        a := Swap(r);
      } else {
        a := ReadMoves(c, s, r);
      }
  }

  lemma NextIsActive(c: Config, r: nat, x: Node, y: Node)
    requires r < c.ranks && NodeInv(c, r, x) && NodeInv(c, r + 1, y) && LinkInv(c, x, y) && AwaitsNext(x)
    ensures (y.read.Some? && !y.read.value.done) || (!y.pc.Finished? && !AwaitsPrevious(y))
  {
    hide Flat, Metas, Concat;
  }

  lemma PreviousIsActive(c: Config, r: nat, x: Node, y: Node)
    requires NodeInv(c, r, x) && NodeInv(c, r + 1, y) && LinkInv(c, x, y) && AwaitsPrevious(y)
    ensures !x.pc.Finished? && !AwaitsNext(x) && (AwaitsPrevious(x) ==> r > 0)
  {
    hide Flat, Metas, Concat;
  }

  lemma LastAwaitsNobody(c: Config, r: nat, n: Node)
    requires NodeInv(c, r, n) && AwaitsNext(n) && r <= c.ranks && c.ranks >= 1
    ensures r < c.ranks
  {
  }

  /** A rank waiting for its successor to read: the successor, or someone further down, can step. */
  lemma {:induction false} NextMoves(c: Config, s: State, r: nat) returns (a: Action)
    requires ValidConfig(c) && Inv(c, s) && r <= c.ranks && AwaitsNext(s[r])
    ensures Enabled(c, s, a)
    decreases c.ranks - r
  {
    hide LinkInv, NodeInv, Enabled, AwaitsNext;
    LastAwaitsNobody(c, r, s[r]);
    var y := s[r + 1];
    NextIsActive(c, r, s[r], y);
    if y.read.Some? && !y.read.value.done {
      a := ReadMoves(c, s, r + 1);
    } else if AwaitsNext(y) {
      a := NextMoves(c, s, r + 1);
    } else {
      a := RankMoves(c, s, r + 1);
    }
  }

  /** A rank waiting for metadata: its predecessor, or someone further up, can step. */
  lemma {:induction false} PreviousMoves(c: Config, s: State, r: nat) returns (a: Action)
    requires ValidConfig(c) && Inv(c, s) && 0 < r <= c.ranks && AwaitsPrevious(s[r])
    ensures Enabled(c, s, a)
    decreases r
  {
    hide LinkInv, NodeInv, ValidConfig, Enabled;
    assert LinkInv(c, s[r - 1], s[r - 1 + 1]);
    PreviousIsActive(c, r - 1, s[r - 1], s[r]);
    if AwaitsPrevious(s[r - 1]) {
      a := PreviousMoves(c, s, r - 1);
    } else {
      a := RankMoves(c, s, r - 1);
    }
  }

  /** Every reachable state in which some rank has not returned has an enabled step. */
  lemma NoDeadlock(c: Config, states: seq<State>, acts: seq<Action>, t: nat) returns (a: Action)
    requires ValidConfig(c) && IsRun(c, states, acts) && t < |states|
    ensures |states[t]| == c.ranks + 1
    ensures AllFinished(c, states[t]) || Enabled(c, states[t], a)
  {
    RunInv(c, states, acts, t);
    var s := states[t];
    a := Fill;
    if r :| 0 <= r <= c.ranks && !s[r].pc.Finished? {
      assert NodeInv(c, r, s[r]);
      if AwaitsNext(s[r]) {
        a := NextMoves(c, s, r);
      } else if AwaitsPrevious(s[r]) {
        a := PreviousMoves(c, s, r);
      } else {
        a := RankMoves(c, s, r);
      }
    }
  }

  // ----- Every run ends -----

  /** More than the number of steps a rank spends on the buckets from `k` on. */
  function CostFrom(c: Config, k: nat): nat
    decreases |c.groups| - k
  {
    if k >= |c.groups| then 0 else |c.groups[k]| + c.cap + 5 + CostFrom(c, k + 1)
  }

  function Pending(n: Node): nat { if n.op.Some? then 1 else 0 }

  /** Steps spent on the read in progress. */
  function ReadSteps(n: Node): nat {
    if n.read.Some? then 1 + |n.read.value.copied| + (if n.read.value.done then 1 else 0) else 0
  }

  /** Steps left for the bucket in hand. */
  function InHand(n: Node): int {
    match n.pc
    case Filling(j) => Pending(n) - j as int
    case Announcing => |n.meta.entries| + 2
    case AwaitMeta => |n.meta.entries| + Pending(n)
    case Yielding(j) => |n.meta.entries| - j + Pending(n)
    case Draining => Pending(n)
    case Finished => -1
  }

  /** A bound on the steps rank `n` can still take. */
  function Work(c: Config, n: Node): int {
    1 + CostFrom(c, n.b) - ReadSteps(n) + InHand(n)
  }

  function TotalWork(c: Config, s: State): int {
    if s == [] then 0 else Work(c, s[0]) + TotalWork(c, s[1..])
  }

  lemma {:induction false} TotalUpdate(c: Config, s: State, r: nat, n: Node)
    requires r < |s|
    ensures TotalWork(c, s[r := n]) == TotalWork(c, s) - Work(c, s[r]) + Work(c, n)
  {
    if r == 0 {
      assert s[0 := n][1..] == s[1..];
    } else {
      TotalUpdate(c, s[1..], r - 1, n);
      assert s[r := n][1..] == s[1..][r - 1 := n];
    }
  }

  lemma WorkIsNatural(c: Config, r: nat, n: Node)
    requires ValidConfig(c) && NodeInv(c, r, n)
    ensures Work(c, n) >= 0
  {
    hide Flat, Concat, Metas;
    if n.read.Some? {
      RangeSize(n.read.value.copied, 0, c.cap);
    }
  }

  lemma {:induction false} TotalIsNatural(c: Config, s: State)
    requires forall r :: 0 <= r < |s| ==> Work(c, s[r]) >= 0
    ensures TotalWork(c, s) >= 0
  {
    if s != [] {
      TotalIsNatural(c, s[1..]);
    }
  }

  lemma AnnounceWorks(c: Config, r: nat, n: Node, key: Key)
    requires ValidConfig(c) && NodeInv(c, r, n) && r <= c.ranks && CanAnnounce(c, n)
    ensures Work(c, Announced(c, r, n, key)) < Work(c, n)
  {
    hide Flat, Concat, Metas;
  }

  lemma SwapWorks(c: Config, r: nat, n: Node)
    requires ValidConfig(c) && 0 < r && NodeInv(c, r, n)
    requires n.pc.Yielding? && n.pc.given == |n.meta.entries| && n.op == None && n.read.Some? && n.read.value.done
    ensures Work(c, Swapped(n)) < Work(c, n)
  {
    RangeSize(n.read.value.copied, 0, c.cap);
    MetasInOrder(c.groups[n.b]);
  }

  lemma StartWorks(c: Config, r: nat, n: Node)
    requires 0 < r && NodeInv(c, r, n) && n.pc.AwaitMeta? && n.inbox != []
    ensures Work(c, Started(n)) < Work(c, n)
  {
  }

  lemma FillWorks(c: Config, n: Node)
    requires n.pc.Filling? && n.b < |c.groups| && n.pc.packed < |c.groups[n.b]|
    requires |Flat(c.groups[n.b][..n.pc.packed])| + |c.groups[n.b][n.pc.packed].data| <= |n.Buf(n.side)|
    ensures Work(c, Filled(c, n)) < Work(c, n)
  {
    hide CostFrom, Flat, Overwrite;
  }

  lemma AckWorks(c: Config, n: Node)
    requires AtEnd(c, n) && n.op.Some? && n.notes != []
    ensures Work(c, Acked(n)) < Work(c, n)
  {
    hide CostFrom;
  }

  lemma CopyWorks(c: Config, n: Node, i: nat, byte: Byte)
    requires n.read.Some? && !n.read.value.done && i !in n.read.value.copied && i < |n.Buf(!n.side)|
    ensures Work(c, Copied(n, i, byte)) < Work(c, n)
  {
    hide CostFrom;
  }

  lemma YieldWorks(c: Config, n: Node)
    requires n.pc.Yielding? && n.pc.given < |n.meta.entries|
    requires var e := n.meta.entries[n.pc.given]; e.offset + e.Size() <= |n.Buf(n.side)|
    ensures Work(c, Gave(n)) < Work(c, n)
  {
    hide CostFrom, Cut;
  }

  lemma FinishWorks(c: Config, n: Node)
    requires n.op == None && (n.pc.Draining? || (n.pc.Yielding? && n.pc.given == |n.meta.entries|))
    ensures Work(c, n.(pc := Finished)) < Work(c, n)
  {
    hide CostFrom;
  }

  /** The actions that touch one rank's own part only. */
  lemma LocalStepWorks(c: Config, s: State, a: Action, r: nat)
    requires ValidConfig(c) && Inv(c, s) && Enabled(c, s, a)
    requires r == (if a == Fill then 0 else a.r)
    requires !a.Announce? && !a.Complete?
    ensures Apply(c, s, a) == s[r := Apply(c, s, a)[r]]
    ensures Work(c, Apply(c, s, a)[r]) < Work(c, s[r])
  {
    hide NodeInv, LinkInv, Work, ValidConfig, Flat, Filled, Acked, Copied, Gave, Started, Swapped;
    match a
    case Fill => FillWorks(c, s[r]);
    case Ack(_) => AckWorks(c, s[r]);
    case Start(_) => StartWorks(c, r, s[r]);
    case Copy(_, i) => CopyWorks(c, s[r], i, s[r - 1].Buf(s[r].read.value.side)[i]);
    case Yield(_) => YieldWorks(c, s[r]);
    case Swap(_) => SwapWorks(c, r, s[r]);
    case Finish(_) => FinishWorks(c, s[r]);
  }

  lemma TotalUpdateTwo(c: Config, s: State, r: nat, x: Node, y: Node)
    requires r + 1 < |s|
    ensures TotalWork(c, s[r := x][r + 1 := y])
      == TotalWork(c, s) - Work(c, s[r]) + Work(c, x) - Work(c, s[r + 1]) + Work(c, y)
  {
    hide TotalWork, Work;
    TotalUpdate(c, s, r, x);
    TotalUpdate(c, s[r := x], r + 1, y);
  }

  lemma AnnounceStepWorks(c: Config, s: State, r: nat, key: Key)
    requires ValidConfig(c) && Inv(c, s) && Enabled(c, s, Announce(r, key))
    ensures TotalWork(c, Apply(c, s, Announce(r, key))) < TotalWork(c, s)
  {
    hide NodeInv, LinkInv, TotalWork, CostFrom, ValidConfig, Announced, AnnouncedMeta;
    var n := Announced(c, r, s[r], key);
    AnnounceWorks(c, r, s[r], key);
    if r < c.ranks {
      TotalUpdateTwo(c, s, r, n, Apply(c, s, Announce(r, key))[r + 1]);
    } else {
      TotalUpdate(c, s, r, n);
    }
  }

  lemma CompleteStepWorks(c: Config, s: State, r: nat)
    requires ValidConfig(c) && Inv(c, s) && Enabled(c, s, Complete(r))
    ensures TotalWork(c, Apply(c, s, Complete(r))) < TotalWork(c, s)
  {
    hide NodeInv, LinkInv, TotalWork, Work, ValidConfig, Notified, ReadDone;
    var x, n := s[r - 1], s[r];
    ReadDoneWorks(c, x, n);
    TotalUpdateTwo(c, s, r - 1, Notified(x, n.read.value.key), ReadDone(n));
  }

  lemma ReadDoneWorks(c: Config, x: Node, n: Node)
    requires n.read.Some? && !n.read.value.done
    ensures Work(c, Notified(x, n.read.value.key)) == Work(c, x)
    ensures Work(c, ReadDone(n)) == Work(c, n) - 1
  {
  }

  /** Every step uses up work. */
  lemma StepWorks(c: Config, s: State, a: Action)
    requires ValidConfig(c) && Inv(c, s) && Enabled(c, s, a)
    ensures TotalWork(c, Apply(c, s, a)) < TotalWork(c, s)
  {
    hide NodeInv, LinkInv, TotalWork, Work, ValidConfig, Apply, Enabled;
    match a
    case Announce(r, key) => AnnounceStepWorks(c, s, r, key);
    case Complete(r) => CompleteStepWorks(c, s, r);
    case Fill =>
      EnabledRank(c, s, a);
      LocalStepWorks(c, s, a, 0);
      TotalUpdate(c, s, 0, Apply(c, s, a)[0]);
    case _ =>
      EnabledRank(c, s, a);
      LocalStepWorks(c, s, a, a.r);
      TotalUpdate(c, s, a.r, Apply(c, s, a)[a.r]);
  }

  lemma EnabledRank(c: Config, s: State, a: Action)
    requires |s| == c.ranks + 1 && Enabled(c, s, a)
    ensures a != Fill ==> a.r < |s|
    ensures |Apply(c, s, a)| == |s|
  {
  }

  lemma {:induction false} InitialWork(c: Config, s: State)
    requires forall r :: 0 <= r < |s| ==> Work(c, s[r]) == 1 + CostFrom(c, 0)
    ensures TotalWork(c, s) == |s| * (1 + CostFrom(c, 0))
  {
    hide Work, CostFrom;
    if s != [] {
      InitialWork(c, s[1..]);
      StepDown(|s|, 1 + CostFrom(c, 0));
    }
  }

  lemma {:induction false} WorkLeft(c: Config, states: seq<State>, acts: seq<Action>, t: nat)
    requires ValidConfig(c) && IsRun(c, states, acts) && t < |states|
    ensures t + TotalWork(c, states[t]) <= (c.ranks + 1) * (1 + CostFrom(c, 0))
  {
    if t == 0 {
      hide Enabled, Apply, TotalWork, CostFrom;
      StartWork(c, states[0]);
    } else {
      hide TotalWork, Enabled, Apply, Init, Inv, CostFrom;
      WorkLeft(c, states, acts, t - 1);
      RunInv(c, states, acts, t - 1);
      StepWorks(c, states[t - 1], acts[t - 1]);
    }
  }

  lemma StartWork(c: Config, s: State)
    requires Init(c, s)
    ensures TotalWork(c, s) == (c.ranks + 1) * (1 + CostFrom(c, 0))
  {
    hide TotalWork, CostFrom;
    InitialWork(c, s);
  }

  /** No run is longer than a bound fixed by the configuration; with NoDeadlock, every run can only end finished. */
  lemma RunsAreBounded(c: Config, states: seq<State>, acts: seq<Action>)
    requires ValidConfig(c) && IsRun(c, states, acts)
    ensures |acts| <= (c.ranks + 1) * (1 + CostFrom(c, 0))
  {
    var t := |acts|;
    WorkLeft(c, states, acts, t);
    RunInv(c, states, acts, t);
    forall r | 0 <= r <= c.ranks ensures Work(c, states[t][r]) >= 0 {
      WorkIsNatural(c, r, states[t][r]);
    }
    TotalIsNatural(c, states[t]);
  }

  lemma ExtendRun(c: Config, states: seq<State>, acts: seq<Action>, a: Action)
    requires IsRun(c, states, acts) && |states[|acts|]| == c.ranks + 1 && Enabled(c, states[|acts|], a)
    ensures IsRun(c, states + [Apply(c, states[|acts|], a)], acts + [a])
  {
    hide Enabled, Apply, Init;
    var states', acts' := states + [Apply(c, states[|acts|], a)], acts + [a];
    forall t | 0 <= t < |acts'|
      ensures |states'[t]| == c.ranks + 1 && Enabled(c, states'[t], acts'[t])
              && states'[t + 1] == Apply(c, states'[t], acts'[t])
    {
      assert states'[t] == states[t];
      if t < |acts| {
        assert states'[t + 1] == states[t + 1];
      }
    }
  }

  /** Every run, however interleaved so far, can be continued until all ranks have returned. */
  lemma {:induction false} EveryRunCompletes(c: Config, states: seq<State>, acts: seq<Action>)
    returns (states': seq<State>, acts': seq<Action>)
    requires ValidConfig(c) && IsRun(c, states, acts)
    ensures IsRun(c, states', acts') && states <= states' && acts <= acts'
    ensures AllFinished(c, states'[|acts'|])
    decreases (c.ranks + 1) * (1 + CostFrom(c, 0)) - |acts|
  {
    hide AllFinished, Enabled, Apply, IsRun, ValidConfig;
    assert |states| == |acts| + 1 by {
      RunLength(c, states, acts);
    }
    if AllFinished(c, states[|acts|]) {
      states', acts' := states, acts;
    } else {
      var a := NoDeadlock(c, states, acts, |acts|);
      ExtendRun(c, states, acts, a);
      RunsAreBounded(c, states + [Apply(c, states[|acts|], a)], acts + [a]);
      states', acts' := EveryRunCompletes(c, states + [Apply(c, states[|acts|], a)], acts + [a]);
    }
    RunLength(c, states', acts');
  }

  lemma RunLength(c: Config, states: seq<State>, acts: seq<Action>)
    requires IsRun(c, states, acts)
    ensures |states| == |acts| + 1
  {
  }
}
