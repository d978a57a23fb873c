/** What holds over every run of the Kimi receivers: fidelity, buffer safety, and completion. */
module KimiTheorems {
  import opened Arithmetic
  import opened Partitions
  import opened Ranges
  import opened Weights
  import opened KimiSchedule
  import opened KimiReceive

  // ----- Fidelity -----

  lemma {:induction false} ExpectedGrows(c: Config, g: nat, h: nat)
    requires ValidConfig(c) && g <= h <= |c.schedule|
    ensures Expected(c, g) <= Expected(c, h)
  {
    hide Tensors, Expected, ValidBucket;
    if g < h {
      ExpectedGrows(c, g, h - 1);
      ExpectedNext(c, h - 1);
    }
  }

  lemma YieldedIsPrefix(c: Config, r: nat, n: Node)
    requires ValidConfig(c) && NodeInv(c, r, n)
    ensures n.yielded <= Expected(c, |c.schedule|)
    ensures n.ended ==> n.yielded == Expected(c, |c.schedule|)
  {
    hide Tensors, Expected, Holds, CallInv;
    if n.awaited > 0 {
      ExpectedNext(c, n.awaited - 1);
      var t := Tensors(c.schedule[n.awaited - 1]);
      assert t[..n.given] <= t;
      ExpectedGrows(c, n.awaited, |c.schedule|);
      assert t[..|t|] == t;
    }
  }

  /**
   * Every rank yields the tensors of every bucket of the schedule exactly once and in order: at any time a prefix,
   * and all of them once it has ended.
   */
  lemma Fidelity(c: Config, states: seq<System>, acts: seq<Step>, t: nat, r: nat)
    requires ValidConfig(c) && IsRun(c, states, acts) && t < |states| && r < c.ranks
    ensures r < |states[t].nodes|
    ensures states[t].nodes[r].yielded <= Expected(c, |c.schedule|)
    ensures states[t].nodes[r].ended ==> states[t].nodes[r].yielded == Expected(c, |c.schedule|)
  {
    RunInv(c, states, acts, t);
    YieldedIsPrefix(c, r, states[t].nodes[r]);
  }

  // ----- From the list of buckets to the tensors on every rank -----

  lemma FitsTogether(a: seq<Bucket>, b: seq<Bucket>)
    requires AllFit(a) && AllFit(b)
    ensures AllFit(a + b)
    ensures b != [] ==> AllFit(b[..|b| - 1]) && ItemsFit(b[|b| - 1])
  {
    hide ItemsFit;
  }

  lemma AllTensorsLast(bs: seq<Bucket>, b: Bucket)
    requires AllFit(bs) && ItemsFit(b)
    ensures AllFit(bs + [b]) && AllTensors(bs + [b]) == AllTensors(bs) + Tensors(b)
  {
    hide ItemsFit, Tensors;
    assert (bs + [b])[..|bs|] == bs;
  }

  lemma Regrouped<T>(a: seq<T>, b: seq<T>)
    requires b != []
    ensures a + b == (a + b[..|b| - 1]) + [b[|b| - 1]] && b == b[..|b| - 1] + [b[|b| - 1]]
  {
  }

  lemma {:induction false} AllTensorsPlus(a: seq<Bucket>, b: seq<Bucket>)
    requires AllFit(a) && AllFit(b)
    ensures AllFit(a + b) && AllTensors(a + b) == AllTensors(a) + AllTensors(b)
    decreases |b|
  {
    if b == [] {
      assert a + b == a;
    } else {
      hide *;
      FitsTogether(a, b);
      AllTensorsPlus(a, b[..|b| - 1]);
      Regrouped(a, b);
      PlusLast(a, b[..|b| - 1], b[|b| - 1]);
    }
  }

  lemma PlusLast(a: seq<Bucket>, front: seq<Bucket>, last: Bucket)
    requires AllFit(a) && AllFit(front) && ItemsFit(last) && AllFit(a + front)
    requires AllTensors(a + front) == AllTensors(a) + AllTensors(front)
    ensures AllFit(a + front + [last]) && AllFit(front + [last])
    ensures AllTensors(a + front + [last]) == AllTensors(a) + AllTensors(front + [last])
  {
    hide *;
    AllTensorsLast(a + front, last);
    AllTensorsLast(front, last);
  }

  lemma TensorsOfOne(b: Bucket)
    requires ItemsFit(b)
    ensures AllTensors([b]) == Tensors(b)
  {
    assert [b][..0] == [];
  }

  lemma AllTensorsWithout(bs: seq<Bucket>, k: nat)
    requires k < |bs| && AllFit(bs)
    ensures AllFit(bs[..k] + bs[k + 1..]) && ItemsFit(bs[k])
    ensures multiset(AllTensors(bs)) == multiset(Tensors(bs[k])) + multiset(AllTensors(bs[..k] + bs[k + 1..]))
  {
    hide ItemsFit, Tensors, AllTensors;
    assert bs == bs[..k] + ([bs[k]] + bs[k + 1..]);
    AllTensorsPlus(bs[..k], [bs[k]] + bs[k + 1..]);
    AllTensorsPlus([bs[k]], bs[k + 1..]);
    AllTensorsPlus(bs[..k], bs[k + 1..]);
    TensorsOfOne(bs[k]);
  }

  lemma PermutedAgain(a: seq<Bucket>, b: seq<Bucket>, k: nat)
    requires AllFit(a) && AllFit(b) && a != [] && k < |b| && a[0] == b[k]
    ensures AllFit(a[1..]) && AllFit(b[..k] + b[k + 1..])
    ensures multiset(AllTensors(a[1..])) == multiset(AllTensors(b[..k] + b[k + 1..])) ==>
      multiset(AllTensors(a)) == multiset(AllTensors(b))
  {
    hide *;
    AllTensorsWithout(a, 0);
    AllTensorsWithout(b, k);
    assert a[..0] + a[1..] == a[1..];
  }

  /** The tensors only depend on which buckets occur how often. */
  lemma {:induction false} AllTensorsPermuted(a: seq<Bucket>, b: seq<Bucket>)
    requires AllFit(a) && AllFit(b) && multiset(a) == multiset(b)
    ensures multiset(AllTensors(a)) == multiset(AllTensors(b))
  {
    hide *;
    if a == [] {
      assert |multiset(b)| == |b| == 0;
      assert a == b;
    } else {
      var k := Position(a, b);
      PermutedAgain(a, b, k);
      AllTensorsPermuted(a[1..], b[..k] + b[k + 1..]);
    }
  }

  /** The engine on a list of buckets: every rank takes the schedule computed from that list. */
  ghost function ScheduledConfig(bs: seq<Bucket>, cap: nat, ranks: nat): Config {
    Config(Schedule(bs), cap, ranks)
  }

  ghost predicate ValidList(bs: seq<Bucket>, cap: nat, ranks: nat) {
    ranks > 0 && bs != [] && forall b :: b in bs ==> ValidBucket(ScheduledConfig(bs, cap, ranks), b)
  }

  lemma ScheduledConfigIsValid(bs: seq<Bucket>, cap: nat, ranks: nat)
    requires ValidList(bs, cap, ranks)
    ensures ValidConfig(ScheduledConfig(bs, cap, ranks))
    ensures AllFit(bs) && AllFit(Schedule(bs))
  {
    hide Schedule, ItemsFit;
    ScheduleIsPermutation(bs);
    forall b ensures b in Schedule(bs) <==> b in bs {
      assert b in Schedule(bs) <==> b in multiset(Schedule(bs));
      assert b in bs <==> b in multiset(bs);
    }
    assert bs[0] in Schedule(bs);
  }

  /** Whatever the interleaving, every rank that has ended has yielded every tensor of every bucket exactly once. */
  lemma EveryBucketReachesEveryRank(bs: seq<Bucket>, cap: nat, ranks: nat, states: seq<System>, acts: seq<Step>, t: nat, r: nat)
    requires ValidList(bs, cap, ranks) && r < ranks
    requires IsRun(ScheduledConfig(bs, cap, ranks), states, acts) && t < |states|
    ensures AllFit(bs) && r < |states[t].nodes|
    ensures states[t].nodes[r].ended ==> multiset(states[t].nodes[r].yielded) == multiset(AllTensors(bs))
  {
    var c := ScheduledConfig(bs, cap, ranks);
    hide IsRun, Schedule, AllTensors, AllFit, ValidList, ValidConfig;
    ScheduledConfigIsValid(bs, cap, ranks);
    Fidelity(c, states, acts, t, r);
    ScheduleIsPermutation(bs);
    AllTensorsPermuted(Schedule(bs), bs);
    assert Schedule(bs)[..|Schedule(bs)|] == Schedule(bs);
  }

  // ----- Buffer safety -----

  /**
   * Byte `i` of the half is in use: the half is being yielded from; or the rank is inside the call that uses the half,
   * as its source, with a bucket that has arrived, or with this byte arrived.
   */
  ghost predicate InUse(c: Config, r: nat, n: Node, half: bool, i: nat) {
    || (n.awaited > 0 && n.given < |Items(c, n)| && half == Half(n.awaited - 1))
    || (n.InCall() && half == Half(n.awaited) && (i in n.copied || HasCall(c, r, n)))
  }

  ghost predicate HasCall(c: Config, r: nat, n: Node) {
    n.awaited < |c.schedule| && HasBytes(c, r, n, n.awaited)
  }

  /** No step of any run writes a byte that is in use. */
  lemma BufferSafety(c: Config, states: seq<System>, acts: seq<Step>, t: nat, r: nat, half: bool, i: nat)
    requires ValidConfig(c) && IsRun(c, states, acts) && t < |acts| && r < c.ranks && i < c.cap
    ensures |states[t].nodes| == |states[t + 1].nodes| == c.ranks
    ensures |states[t].nodes[r].At(half)| == |states[t + 1].nodes[r].At(half)| == c.cap
    ensures InUse(c, r, states[t].nodes[r], half, i) ==>
      states[t + 1].nodes[r].At(half)[i] == states[t].nodes[r].At(half)[i]
  {
    hide InUse, Inv, Start, Apply, Enabled;
    RunInv(c, states, acts, t);
    RunInv(c, states, acts, t + 1);
    NodesOf(c, states[t], r);
    NodesOf(c, states[t + 1], r);
    if InUse(c, r, states[t].nodes[r], half, i) {
      StepIsSafe(c, states[t], acts[t], r, half, i);
    }
  }

  lemma NodesOf(c: Config, s: System, r: nat)
    requires ValidConfig(c) && Inv(c, s) && r < c.ranks
    ensures |s.nodes| == c.ranks && NodeInv(c, r, s.nodes[r]) && |s.nodes[r].half0| == |s.nodes[r].half1| == c.cap
  {
  }

  lemma StepIsSafe(c: Config, s: System, a: Step, r: nat, half: bool, i: nat)
    requires ValidConfig(c) && Inv(c, s) && Enabled(c, s, a) && r < c.ranks && i < c.cap
    requires InUse(c, r, s.nodes[r], half, i)
    ensures var (n, n') := (s.nodes[r], Apply(c, s, a).nodes[r]);
      |n'.At(half)| == |n.At(half)| == c.cap && n'.At(half)[i] == n.At(half)[i]
  {
    NodesOf(c, s, r);
    hide Inv, NodeInv, InUse, Enabled, After;
    if a.r == r {
      OwnStepIsSafe(c, s, a, half, i);
    }
  }

  lemma OwnStepIsSafe(c: Config, s: System, a: Step, half: bool, i: nat)
    requires ValidConfig(c) && |s.nodes| == c.ranks && Enabled(c, s, a) && i < c.cap
    requires NodeInv(c, a.r, s.nodes[a.r]) && InUse(c, a.r, s.nodes[a.r], half, i)
    requires |s.nodes[a.r].half0| == |s.nodes[a.r].half1| == c.cap
    ensures var (n, n') := (s.nodes[a.r], After(c, s, a));
      |n'.At(half)| == |n.At(half)| == c.cap && n'.At(half)[i] == n.At(half)[i]
  {
    hide NodeInv, CanLaunch, CanGive, CanAwait, CanEnd, CanCopy, CanReturn, Copied, Launched, Gave, InUse;
    var n := s.nodes[a.r];
    match a
    case Launch(r) => LaunchIsSafe(c, r, n, half, i);
    case Copy(r, j) => CopyIsSafe(c, SourceOf(c, s, n), r, n, j, half, i);
    case Give(_) => GiveIsSafe(c, n, half);
    case _ =>
  }

  lemma LaunchIsSafe(c: Config, r: nat, n: Node, half: bool, i: nat)
    requires ValidConfig(c) && NodeInv(c, r, n) && CanLaunch(c, n) && InUse(c, r, n, half, i)
    ensures Launched(c, r, n).At(half) == n.At(half)
  {
    hide Filled, Holds, YieldedBy;
  }

  lemma CopyIsSafe(c: Config, source: Node, r: nat, n: Node, j: nat, half: bool, i: nat)
    requires ValidConfig(c) && NodeInv(c, r, n) && CanCopy(c, source, r, n, j) && InUse(c, r, n, half, i) && i < c.cap
    ensures |Copied(c, source, r, n, j).At(half)| == |n.At(half)| == c.cap
    ensures Copied(c, source, r, n, j).At(half)[i] == n.At(half)[i]
  {
    hide Holds, YieldedBy, Arrived;
  }

  lemma GiveIsSafe(c: Config, n: Node, half: bool)
    requires CanGive(c, n)
    ensures Gave(c, n).At(half) == n.At(half)
  {
    hide Cut;
  }

  /** As long as a rank lacks bytes of a bucket, its source does not leave the call, and keeps the bytes in its half. */
  lemma SourceKeepsBytes(c: Config, states: seq<System>, acts: seq<Step>, t: nat, g: nat, r: nat, i: nat)
    requires ValidConfig(c) && IsRun(c, states, acts) && t < |states| && g < |c.schedule| && r < c.ranks
    ensures |states[t].nodes| == c.ranks && c.schedule[g].receiver < c.ranks
    ensures var (n, k) := (states[t].nodes[r], c.schedule[g].receiver); var source := states[t].nodes[k];
      !HasBytes(c, r, n, g) ==>
        !source.Past(g) && (source.launched > g ==> Holds(c, source.At(Half(g)), g) && InUse(c, k, source, Half(g), i))
  {
    hide YieldedBy, Half, Holds, IsRun, Arrived, Items;
    RunInv(c, states, acts, t);
    assert SourceWaits(c, states[t], g) && ValidBucket(c, c.schedule[g]);
    NodesOf(c, states[t], c.schedule[g].receiver);
  }

  // ----- No deadlock -----

  ghost predicate AllEnded(s: System) {
    forall r :: 0 <= r < |s.nodes| ==> s.nodes[r].ended
  }

  /** A rank that has not ended can move on its own unless it waits for a call to return. */
  lemma OwnStep(c: Config, s: System, r: nat) returns (a: Step)
    requires ValidConfig(c) && |s.nodes| == c.ranks && r < c.ranks && NodeInv(c, r, s.nodes[r]) && !s.nodes[r].ended
    ensures Enabled(c, s, a) || (s.nodes[r].InCall() && !s.nodes[r].returned)
  {
    var n := s.nodes[r];
    hide YieldedBy, Arrived;
    if n.awaited > 0 {
      assert ValidBucket(c, c.schedule[n.awaited - 1]);
    }
    a := if CanLaunch(c, n) then Launch(r) else if CanGive(c, n) then Give(r) else if CanAwait(c, n) then Await(r) else End(r);
  }

  /** The rank with the fewest calls awaited. */
  lemma {:induction false} Slowest(ns: seq<Node>) returns (m: nat)
    requires ns != []
    ensures m < |ns| && forall r :: 0 <= r < |ns| ==> ns[m].awaited <= ns[r].awaited
    decreases |ns|
  {
    m := |ns| - 1;
    if |ns| > 1 {
      var front := ns[..|ns| - 1];
      var f := Slowest(front);
      if ns[f].awaited <= ns[m].awaited {
        m := f;
      }
    }
  }

  /** Every reachable state in which some rank has not ended has an enabled step. */
  lemma NoDeadlock(c: Config, states: seq<System>, acts: seq<Step>, t: nat) returns (a: Step)
    requires ValidConfig(c) && IsRun(c, states, acts) && t < |states| && !AllEnded(states[t])
    ensures |states[t].nodes| == c.ranks && Enabled(c, states[t], a)
  {
    hide Start, Apply, Enabled, NodeInv, SourceWaits;
    RunInv(c, states, acts, t);
    a := SomeStep(c, states[t]);
  }

  lemma SomeStep(c: Config, s: System) returns (a: Step)
    requires ValidConfig(c) && Inv(c, s) && !AllEnded(s)
    ensures Enabled(c, s, a)
  {
    hide NodeInv, SourceWaits, Enabled;
    var q :| 0 <= q < c.ranks && !s.nodes[q].ended;
    var m := Slowest(s.nodes);
    a := OwnStep(c, s, q);
    if !Enabled(c, s, a) {
      MidCall(c, q, s.nodes[q]);
      a := CallStep(c, s, m);
    }
  }

  lemma MidCall(c: Config, r: nat, n: Node)
    requires ValidConfig(c) && NodeInv(c, r, n)
    ensures n.awaited <= |c.schedule|
    ensures n.InCall() ==> n.awaited < |c.schedule|
    ensures n.ended ==> n.awaited == |c.schedule|
  {
  }

  /** The slowest rank, the source of its call, or a rank that lacks bytes of the call can move. */
  lemma CallStep(c: Config, s: System, m: nat) returns (a: Step)
    requires ValidConfig(c) && Inv(c, s) && m < c.ranks && s.nodes[m].awaited < |c.schedule|
    requires forall r :: 0 <= r < c.ranks ==> s.nodes[m].awaited <= s.nodes[r].awaited
    ensures Enabled(c, s, a)
  {
    hide NodeInv, SourceWaits, Enabled, HasBytes;
    var g := s.nodes[m].awaited;
    var k := c.schedule[g].receiver;
    assert ValidBucket(c, c.schedule[g]) && SourceWaits(c, s, g);
    MidCall(c, m, s.nodes[m]);
    MidCall(c, k, s.nodes[k]);
    if s.nodes[k].awaited == g && !s.nodes[k].returned {
      a := SourceStep(c, s, k, g);
    } else {
      a := OwnStep(c, s, m);
      if !Enabled(c, s, a) {
        EverybodyHasBytes(c, s, g, m);
        a := Return(m);
        ReceiverReturns(c, s, m);
      }
    }
  }

  lemma EverybodyHasBytes(c: Config, s: System, g: nat, r: nat)
    requires SourceWaits(c, s, g) && s.nodes[c.schedule[g].receiver].Past(g) && r < |s.nodes|
    ensures HasBytes(c, r, s.nodes[r], g)
  {
  }

  lemma ReceiverReturns(c: Config, s: System, m: nat)
    requires |s.nodes| == c.ranks && m < c.ranks && s.nodes[m].awaited < |c.schedule|
    requires s.nodes[m].InCall() && !s.nodes[m].returned && HasBytes(c, m, s.nodes[m], s.nodes[m].awaited)
    requires var g := s.nodes[m].awaited;
      c.schedule[g].receiver < c.ranks && s.nodes[c.schedule[g].receiver].Past(g)
    ensures Enabled(c, s, Return(m))
  {
  }

  /** The source of call `g` has not left it: it can move, or some rank that lacks bytes can. */
  lemma SourceStep(c: Config, s: System, k: nat, g: nat) returns (a: Step)
    requires ValidConfig(c) && Inv(c, s) && g < |c.schedule| && c.schedule[g].receiver == k
    requires k < c.ranks && s.nodes[k].awaited == g && !s.nodes[k].returned
    requires forall r :: 0 <= r < c.ranks ==> g <= s.nodes[r].awaited
    ensures Enabled(c, s, a)
  {
    hide NodeInv, SourceWaits, Enabled, HasBytes;
    MidCall(c, k, s.nodes[k]);
    a := OwnStep(c, s, k);
    if !Enabled(c, s, a) {
      if r :| 0 <= r < c.ranks && !HasBytes(c, r, s.nodes[r], g) {
        a := LackingStep(c, s, k, g, r);
      } else {
        a := Return(k);
        SourceReturns(c, s, k);
      }
    }
  }

  lemma SourceReturns(c: Config, s: System, k: nat)
    requires |s.nodes| == c.ranks && k < c.ranks && s.nodes[k].awaited < |c.schedule|
    requires s.nodes[k].InCall() && !s.nodes[k].returned
    requires forall q :: 0 <= q < c.ranks ==> HasBytes(c, q, s.nodes[q], s.nodes[k].awaited)
    ensures Enabled(c, s, Return(k))
  {
    hide HasBytes;
  }

  lemma LackingStep(c: Config, s: System, k: nat, g: nat, r: nat) returns (a: Step)
    requires ValidConfig(c) && Inv(c, s) && g < |c.schedule| && c.schedule[g].receiver == k && k < c.ranks
    requires s.nodes[k].awaited == g && s.nodes[k].InCall() && !s.nodes[k].returned
    requires r < c.ranks && g <= s.nodes[r].awaited && !HasBytes(c, r, s.nodes[r], g)
    ensures Enabled(c, s, a)
  {
    hide NodeInv, SourceWaits;
    var n := s.nodes[r];
    MidCall(c, r, n);
    NodesOf(c, s, r);
    NodesOf(c, s, k);
    a := OwnStep(c, s, r);
    if !Enabled(c, s, a) {
      assert ValidBucket(c, c.schedule[g]);
      var i :| 0 <= i < |c.schedule[g].bytes| && i !in n.copied;
      a := Copy(r, i);
    }
  }

  // ----- Every run ends -----

  /** The steps that a receiver spends on the buckets from `g` on. */
  function Cost(c: Config, g: nat): nat
    decreases |c.schedule| - g
  {
    if g >= |c.schedule| then 0 else |c.schedule[g].bytes| + 3 + |c.schedule[g].items| + Cost(c, g + 1)
  }

  /** The steps spent in the current call: on the source the bytes are saved. */
  function Spent(c: Config, n: Node): nat {
    if !n.InCall() || n.awaited >= |c.schedule| then 0
    else if n.returned then |c.schedule[n.awaited].bytes| + 2 else 1 + |n.copied|
  }

  /** A bound on the steps a rank can still take. */
  function NodeWork(c: Config, n: Node): int {
    Cost(c, n.awaited) - Spent(c, n) + (|Items(c, n)| - n.given) + if n.ended then 0 else 1
  }

  function TotalWork(c: Config, ns: seq<Node>): int {
    if ns == [] then 0 else NodeWork(c, ns[0]) + TotalWork(c, ns[1..])
  }

  lemma {:induction false} WorkUpdate(c: Config, ns: seq<Node>, r: nat, n: Node)
    requires r < |ns|
    ensures TotalWork(c, ns[r := n]) == TotalWork(c, ns) - NodeWork(c, ns[r]) + NodeWork(c, n)
  {
    if r == 0 {
      assert ns[0 := n][1..] == ns[1..];
    } else {
      WorkUpdate(c, ns[1..], r - 1, n);
      assert ns[r := n][1..] == ns[1..][r - 1 := n];
    }
  }

  lemma CopiedFit(c: Config, r: nat, n: Node)
    requires ValidConfig(c) && NodeInv(c, r, n) && n.InCall()
    ensures n.awaited < |c.schedule| && |n.copied| <= |c.schedule[n.awaited].bytes|
  {
    RangeSize(n.copied, 0, |c.schedule[n.awaited].bytes|);
  }

  lemma WorkIsNatural(c: Config, r: nat, n: Node)
    requires ValidConfig(c) && NodeInv(c, r, n)
    ensures NodeWork(c, n) >= 0
  {
    if n.InCall() {
      CopiedFit(c, r, n);
    }
    hide YieldedBy, Holds, Arrived;
  }

  lemma {:induction false} TotalNatural(c: Config, ns: seq<Node>, first: nat)
    requires ValidConfig(c) && forall r :: 0 <= r < |ns| ==> NodeInv(c, first + r, ns[r])
    ensures TotalWork(c, ns) >= 0
  {
    hide NodeInv, NodeWork;
    if ns != [] {
      WorkIsNatural(c, first, ns[0]);
      forall r | 0 <= r < |ns| - 1 ensures NodeInv(c, first + 1 + r, ns[1..][r]) {
        assert NodeInv(c, first + (r + 1), ns[r + 1]);
      }
      TotalNatural(c, ns[1..], first + 1);
    }
  }

  lemma LaunchWorks(c: Config, r: nat, n: Node)
    requires ValidConfig(c) && NodeInv(c, r, n) && CanLaunch(c, n)
    ensures NodeWork(c, Launched(c, r, n)) < NodeWork(c, n)
  {
    hide YieldedBy, Holds, Arrived, Filled, Half, Cost;
  }

  lemma CopyWorks(c: Config, source: Node, r: nat, n: Node, i: nat)
    requires CanCopy(c, source, r, n, i)
    ensures NodeWork(c, Copied(c, source, r, n, i)) < NodeWork(c, n)
  {
    hide Half, Cost;
  }

  lemma AwaitWorks(c: Config, r: nat, n: Node)
    requires ValidConfig(c) && NodeInv(c, r, n) && CanAwait(c, n)
    ensures NodeWork(c, Awaited(n)) < NodeWork(c, n)
  {
    hide YieldedBy, Holds, Arrived, Half;
  }

  /** Every step uses up work of its rank. */
  lemma NodeStepWorks(c: Config, s: System, a: Step)
    requires ValidConfig(c) && |s.nodes| == c.ranks && Enabled(c, s, a) && NodeInv(c, a.r, s.nodes[a.r])
    ensures NodeWork(c, After(c, s, a)) < NodeWork(c, s.nodes[a.r])
  {
    hide NodeInv, Launched, Copied, Awaited, CanLaunch, CanCopy, CanAwait, Cut, HasBytes, Half, Cost;
    var n := s.nodes[a.r];
    match a
    case Launch(r) => LaunchWorks(c, r, n);
    case Copy(r, i) => CopyWorks(c, SourceOf(c, s, n), r, n, i);
    case Return(r) => CopiedFit(c, r, n);
    case Await(r) => AwaitWorks(c, r, n);
    case Give(_) =>
    case End(_) =>
  }

  lemma StepWorks(c: Config, s: System, a: Step)
    requires ValidConfig(c) && Inv(c, s) && Enabled(c, s, a)
    ensures TotalWork(c, Apply(c, s, a).nodes) < TotalWork(c, s.nodes)
  {
    hide NodeWork, TotalWork, After, SourceWaits, NodeInv, Enabled;
    NodesOfStep(c, s, a);
    NodeStepWorks(c, s, a);
    WorkUpdate(c, s.nodes, a.r, After(c, s, a));
  }

  lemma NodesOfStep(c: Config, s: System, a: Step)
    requires ValidConfig(c) && Inv(c, s) && Enabled(c, s, a)
    ensures a.r < c.ranks && NodeInv(c, a.r, s.nodes[a.r])
  {
  }

  lemma {:induction false} InitialWork(c: Config, ns: seq<Node>)
    requires forall r :: 0 <= r < |ns| ==> NodeWork(c, ns[r]) == Cost(c, 0) + 1
    ensures TotalWork(c, ns) == |ns| * (Cost(c, 0) + 1)
  {
    hide NodeWork, Cost;
    if ns != [] {
      InitialWork(c, ns[1..]);
      StepDown(|ns|, Cost(c, 0) + 1);
    }
  }

  function RunBound(c: Config): nat { c.ranks * (Cost(c, 0) + 1) }

  lemma {:induction false} WorkLeft(c: Config, states: seq<System>, acts: seq<Step>, t: nat)
    requires ValidConfig(c) && IsRun(c, states, acts) && t < |states|
    ensures t + TotalWork(c, states[t].nodes) <= RunBound(c)
  {
    if t == 0 {
      hide Enabled, Apply, TotalWork, Cost;
      InitialWork(c, states[0].nodes);
    } else {
      hide TotalWork, Apply, Enabled, RunBound, Inv, Start;
      WorkLeft(c, states, acts, t - 1);
      RunInv(c, states, acts, t - 1);
      StepWorks(c, states[t - 1], acts[t - 1]);
    }
  }

  /** No run is longer than a bound fixed by the configuration. */
  lemma RunsAreBounded(c: Config, states: seq<System>, acts: seq<Step>)
    requires ValidConfig(c) && IsRun(c, states, acts)
    ensures |acts| <= RunBound(c)
  {
    hide RunBound, Apply, Enabled, NodeInv, SourceWaits, Start, TotalWork;
    WorkLeft(c, states, acts, |acts|);
    RunInv(c, states, acts, |acts|);
    TotalNatural(c, states[|acts|].nodes, 0);
  }

  lemma ExtendRun(c: Config, states: seq<System>, acts: seq<Step>, a: Step)
    requires IsRun(c, states, acts) && |states[|acts|].nodes| == c.ranks && Enabled(c, states[|acts|], a)
    ensures IsRun(c, states + [Apply(c, states[|acts|], a)], acts + [a])
  {
    hide Enabled, Apply, Start;
    var states', acts' := states + [Apply(c, states[|acts|], a)], acts + [a];
    forall t | 0 <= t < |acts'|
      ensures |states'[t].nodes| == c.ranks && Enabled(c, states'[t], acts'[t])
              && states'[t + 1] == Apply(c, states'[t], acts'[t])
    {
      assert states'[t] == states[t];
      if t < |acts| {
        assert states'[t + 1] == states[t + 1];
      }
    }
  }

  /** Every run, however interleaved so far, can be continued until all ranks have ended. */
  lemma {:induction false} EveryRunCompletes(c: Config, states: seq<System>, acts: seq<Step>)
    returns (states': seq<System>, acts': seq<Step>)
    requires ValidConfig(c) && IsRun(c, states, acts)
    ensures IsRun(c, states', acts') && states <= states' && acts <= acts'
    ensures |states'| == |acts'| + 1 && AllEnded(states'[|acts'|])
    decreases RunBound(c) - |acts|
  {
    hide AllEnded, Enabled, Apply, ValidConfig, RunBound, Start;
    if AllEnded(states[|acts|]) {
      states', acts' := states, acts;
    } else {
      var a := NoDeadlock(c, states, acts, |acts|);
      ExtendRun(c, states, acts, a);
      RunsAreBounded(c, states + [Apply(c, states[|acts|], a)], acts + [a]);
      states', acts' := EveryRunCompletes(c, states + [Apply(c, states[|acts|], a)], acts + [a]);
    }
  }
}
