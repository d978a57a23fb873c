/**
 * The Kimi receivers as a step relation: every rank takes the turns of the common schedule at its own pace, and an
 * executor thread of each rank takes part in the collective calls. The n-th calls of all ranks belong together; their
 * bytes may be copied one by one in any order. While bucket `g` arrives in one half of the buffer, bucket `g - 1` is
 * yielded from the other.
 */
module KimiReceive {
  import opened Weights
  import opened KimiSchedule

  /** `schedule` is the sequence of broadcasts, `cap` is `bucket_size`. */
  datatype Config = Config(schedule: seq<Bucket>, cap: nat, ranks: nat)

  predicate ItemsFit(b: Bucket) {
    forall i :: 0 <= i < |b.items| ==> b.items[i].offset + b.items[i].Size() <= |b.bytes|
  }

  ghost predicate ValidBucket(c: Config, b: Bucket) {
    b.receiver < c.ranks && |b.bytes| <= c.cap && ItemsFit(b)
  }

  ghost predicate ValidConfig(c: Config) {
    c.ranks > 0 && c.schedule != [] && forall g :: 0 <= g < |c.schedule| ==> ValidBucket(c, c.schedule[g])
  }

  /**
   * `launched` counts the operations started and `awaited`, which is `gidx`, those awaited; `copied` are the bytes of
   * the current call that arrived, and `returned` says that the call is over on this rank. `given` counts the tensors
   * yielded from bucket `awaited - 1`.
   */
  datatype Node = Node(launched: nat, copied: set<nat>, returned: bool, awaited: nat, given: nat, ended: bool,
                       half0: seq<Byte>, half1: seq<Byte>, yielded: seq<Weight>) {
    function At(half: bool): seq<Byte> { if half then half1 else half0 }

    function With(half: bool, bytes: seq<Byte>): Node {
      if half then this.(half1 := bytes) else this.(half0 := bytes)
    }

    /** An operation was launched and not yet awaited. */
    predicate InCall() { launched == awaited + 1 }

    /** The collective call number `g` is over on this rank. */
    predicate Past(g: nat) { awaited > g || (awaited == g && returned) }
  }

  datatype System = System(nodes: seq<Node>)

  datatype Step =
    | Launch(r: nat)        // kimi_checkpoint_engine.py:116-131
    | Copy(r: nat, i: nat)  // 208-210: one byte of the collective
    | Return(r: nat)        // 208-210: the collective returns
    | Await(r: nat)         // 132-135, 147-149
    | Give(r: nat)          // 136-146, 151-160
    | End(r: nat)

  ghost predicate Start(c: Config, s: System) {
    && |s.nodes| == c.ranks
    && forall r :: 0 <= r < c.ranks ==>
      && |s.nodes[r].half0| == |s.nodes[r].half1| == c.cap
      && s.nodes[r] == Node(0, {}, false, 0, 0, false, s.nodes[r].half0, s.nodes[r].half1, [])
  }

  /** The bytes at the front of a half; the rest stays. */
  function Filled(half: seq<Byte>, bytes: seq<Byte>): (r: seq<Byte>)
    ensures |bytes| <= |half| ==> |r| == |half| && bytes <= r
  {
    if |bytes| <= |half| then bytes + half[|bytes|..] else half
  }

  /** The items of the bucket being yielded. */
  function Items(c: Config, n: Node): seq<Entry> {
    if 0 < n.awaited <= |c.schedule| then c.schedule[n.awaited - 1].items else []
  }

  predicate CanLaunch(c: Config, n: Node) {
    n.launched == n.awaited < |c.schedule|
  }

  /** The sending rank first copies its staged bucket into the half. */
  function Launched(c: Config, r: nat, n: Node): Node
    requires CanLaunch(c, n)
  {
    var g := n.launched;
    var b := c.schedule[g];
    (if b.receiver == r then n.With(Half(g), Filled(n.At(Half(g)), b.bytes)) else n).(launched := g + 1)
  }

  /** Both ranks are inside the call, and byte `i` of the bucket has not arrived. */
  predicate CanCopy(c: Config, source: Node, r: nat, n: Node, i: nat) {
    && n.InCall() && !n.returned && n.awaited < |c.schedule| && c.schedule[n.awaited].receiver != r
    && source.InCall() && !source.returned && source.awaited == n.awaited
    && i < |c.schedule[n.awaited].bytes| && i !in n.copied
    && i < |n.At(Half(n.awaited))| && i < |source.At(Half(n.awaited))|
  }

  function Copied(c: Config, source: Node, r: nat, n: Node, i: nat): Node
    requires CanCopy(c, source, r, n, i)
  {
    var half := Half(n.awaited);
    n.With(half, n.At(half)[i := source.At(half)[i]]).(copied := n.copied + {i})
  }

  /** The rank has all the bytes of bucket `g` (the source has them from the start of the call). */
  predicate HasBytes(c: Config, r: nat, n: Node, g: nat)
    requires g < |c.schedule|
  {
    || n.awaited > g
    || (n.awaited == g && n.InCall()
        && (n.returned || c.schedule[g].receiver == r || forall i :: 0 <= i < |c.schedule[g].bytes| ==> i in n.copied))
  }

  /** The call returns on a receiver when it has the bytes, and on the source when everybody has them. */
  predicate CanReturn(c: Config, s: System, r: nat)
    requires |s.nodes| == c.ranks && r < c.ranks
  {
    var n := s.nodes[r];
    && n.InCall() && !n.returned && n.awaited < |c.schedule| && HasBytes(c, r, n, n.awaited)
    && (c.schedule[n.awaited].receiver == r ==> forall q :: 0 <= q < c.ranks ==> HasBytes(c, q, s.nodes[q], n.awaited))
  }

  predicate CanAwait(c: Config, n: Node) {
    n.InCall() && n.returned && n.given == |Items(c, n)|
  }

  function Awaited(n: Node): Node {
    n.(copied := {}, returned := false, awaited := n.awaited + 1, given := 0)
  }

  predicate CanGive(c: Config, n: Node) {
    && !n.ended && n.given < |Items(c, n)| && (n.InCall() || n.awaited == |c.schedule|)
    && var e := Items(c, n)[n.given]; e.offset + e.Size() <= |n.At(Half(n.awaited - 1))|
  }

  function Gave(c: Config, n: Node): Node
    requires CanGive(c, n)
  {
    n.(given := n.given + 1, yielded := n.yielded + [Cut(n.At(Half(n.awaited - 1)), Items(c, n)[n.given])])
  }

  predicate CanEnd(c: Config, n: Node) {
    !n.ended && n.awaited == |c.schedule| && n.given == |Items(c, n)|
  }

  /** The rank that sends in the current call of rank `r`. */
  function SourceOf(c: Config, s: System, n: Node): (source: Node)
    requires |s.nodes| == c.ranks && n.awaited < |c.schedule| && c.schedule[n.awaited].receiver < c.ranks
    ensures source in s.nodes
  {
    s.nodes[c.schedule[n.awaited].receiver]
  }

  predicate Enabled(c: Config, s: System, a: Step)
    requires |s.nodes| == c.ranks
  {
    && a.r < c.ranks
    && var n := s.nodes[a.r];
      match a
      case Launch(r) => CanLaunch(c, n)
      case Copy(r, i) =>
        n.awaited < |c.schedule| && c.schedule[n.awaited].receiver < c.ranks && CanCopy(c, SourceOf(c, s, n), r, n, i)
      case Return(r) => CanReturn(c, s, r)
      case Await(r) => CanAwait(c, n)
      case Give(r) => CanGive(c, n)
      case End(r) => CanEnd(c, n)
  }

  /** The rank after its step. */
  function After(c: Config, s: System, a: Step): Node
    requires |s.nodes| == c.ranks && Enabled(c, s, a)
  {
    var n := s.nodes[a.r];
    match a
    case Launch(r) => Launched(c, r, n)
    case Copy(r, i) => Copied(c, SourceOf(c, s, n), r, n, i)
    case Return(r) => n.(returned := true)
    case Await(r) => Awaited(n)
    case Give(r) => Gave(c, n)
    case End(r) => n.(ended := true)
  }

  function Apply(c: Config, s: System, a: Step): (s': System)
    requires |s.nodes| == c.ranks && Enabled(c, s, a)
    ensures |s'.nodes| == c.ranks
  {
    System(s.nodes[a.r := After(c, s, a)])
  }

  ghost predicate IsRun(c: Config, states: seq<System>, acts: seq<Step>) {
    && |states| == |acts| + 1 && Start(c, states[0])
    && forall t :: 0 <= t < |acts| ==>
      |states[t].nodes| == c.ranks && Enabled(c, states[t], acts[t]) && states[t + 1] == Apply(c, states[t], acts[t])
  }

  // ----- The tensors of the buckets -----

  function Tensors(b: Bucket): (r: seq<Weight>)
    requires ItemsFit(b)
    ensures |r| == |b.items|
  {
    seq(|b.items|, i requires 0 <= i < |b.items| => Cut(b.bytes, b.items[i]))
  }

  predicate AllFit(bs: seq<Bucket>) {
    forall b :: b in bs ==> ItemsFit(b)
  }

  /** The tensors of a list of buckets, bucket by bucket. */
  function AllTensors(bs: seq<Bucket>): seq<Weight>
    requires AllFit(bs)
  {
    if bs == [] then [] else AllTensors(bs[..|bs| - 1]) + Tensors(bs[|bs| - 1])
  }

  /** What a rank has yielded once it has finished the first `g` buckets. */
  function Expected(c: Config, g: nat): seq<Weight>
    requires ValidConfig(c) && g <= |c.schedule|
  {
    ScheduleFits(c);
    AllTensors(c.schedule[..g])
  }

  lemma ScheduleFits(c: Config)
    requires ValidConfig(c)
    ensures AllFit(c.schedule)
  {
    forall b | b in c.schedule ensures ItemsFit(b) {
      var g :| 0 <= g < |c.schedule| && c.schedule[g] == b;
      assert ValidBucket(c, c.schedule[g]);
    }
  }

  function YieldedBy(c: Config, awaited: nat, given: nat): seq<Weight>
    requires ValidConfig(c)
  {
    if awaited == 0 || awaited > |c.schedule| || given > |c.schedule[awaited - 1].items| then [] else
      assert ValidBucket(c, c.schedule[awaited - 1]);
      Expected(c, awaited - 1) + Tensors(c.schedule[awaited - 1])[..given]
  }

  lemma ExpectedNext(c: Config, g: nat)
    requires ValidConfig(c) && g < |c.schedule|
    ensures ItemsFit(c.schedule[g]) && Expected(c, g + 1) == Expected(c, g) + Tensors(c.schedule[g])
  {
    assert ValidBucket(c, c.schedule[g]);
    assert c.schedule[..g + 1][..g] == c.schedule[..g];
  }

  // ----- The invariant -----

  /** The half starts with the bytes of bucket `g`. */
  ghost predicate Holds(c: Config, half: seq<Byte>, g: nat) {
    g < |c.schedule| && c.schedule[g].bytes <= half
  }

  /** The bytes of bucket `g` that have arrived are in the half. */
  ghost predicate Arrived(c: Config, half: seq<Byte>, g: nat, copied: set<nat>) {
    g < |c.schedule| && forall i :: i in copied ==> i < |c.schedule[g].bytes| && i < |half| && half[i] == c.schedule[g].bytes[i]
  }

  ghost predicate CallInv(c: Config, r: nat, n: Node) {
    if n.InCall() then
      && Arrived(c, n.At(Half(n.awaited)), n.awaited, n.copied)
      && (n.returned || c.schedule[n.awaited].receiver == r ==> Holds(c, n.At(Half(n.awaited)), n.awaited))
    else
      n.copied == {} && !n.returned
  }

  ghost predicate NodeInv(c: Config, r: nat, n: Node)
    requires ValidConfig(c)
  {
    && |n.half0| == |n.half1| == c.cap
    && n.awaited <= n.launched <= n.awaited + 1 && n.launched <= |c.schedule|
    && (n.awaited > 0 ==> Holds(c, n.At(Half(n.awaited - 1)), n.awaited - 1))
    && CallInv(c, r, n)
    && n.given <= |Items(c, n)| && (n.launched == n.awaited < |c.schedule| ==> n.given == 0)
    && n.yielded == YieldedBy(c, n.awaited, n.given)
    && (n.ended ==> n.awaited == |c.schedule| && n.given == |Items(c, n)|)
  }

  /** Once the source has left call `g`, everybody has its bytes. */
  ghost predicate SourceWaits(c: Config, s: System, g: nat) {
    && g < |c.schedule| && c.schedule[g].receiver < |s.nodes|
    && (s.nodes[c.schedule[g].receiver].Past(g) ==> forall r :: 0 <= r < |s.nodes| ==> HasBytes(c, r, s.nodes[r], g))
  }

  ghost predicate Inv(c: Config, s: System)
    requires ValidConfig(c)
  {
    && |s.nodes| == c.ranks && (forall r :: 0 <= r < c.ranks ==> NodeInv(c, r, s.nodes[r]))
    && forall g :: 0 <= g < |c.schedule| ==> SourceWaits(c, s, g)
  }

  lemma LaunchInv(c: Config, r: nat, n: Node)
    requires ValidConfig(c) && NodeInv(c, r, n) && CanLaunch(c, n)
    ensures NodeInv(c, r, Launched(c, r, n))
  {
    hide Expected, Tensors, YieldedBy;
    assert ValidBucket(c, c.schedule[n.launched]);
  }

  lemma CopyInv(c: Config, k: nat, source: Node, r: nat, n: Node, i: nat)
    requires ValidConfig(c) && NodeInv(c, r, n) && NodeInv(c, k, source) && CanCopy(c, source, r, n, i)
    requires c.schedule[n.awaited].receiver == k
    ensures NodeInv(c, r, Copied(c, source, r, n, i))
  {
    hide Expected, Tensors, YieldedBy;
    assert n.awaited > 0 ==> Half(n.awaited - 1) == !Half(n.awaited);
  }

  lemma BytesAreThere(c: Config, r: nat, n: Node)
    requires ValidConfig(c) && NodeInv(c, r, n) && n.InCall() && HasBytes(c, r, n, n.awaited)
    ensures Holds(c, n.At(Half(n.awaited)), n.awaited)
  {
    hide Expected, Tensors, YieldedBy;
    assert ValidBucket(c, c.schedule[n.awaited]);
  }

  lemma ReturnInv(c: Config, r: nat, n: Node)
    requires ValidConfig(c) && NodeInv(c, r, n) && n.InCall() && HasBytes(c, r, n, n.awaited)
    ensures NodeInv(c, r, n.(returned := true))
  {
    BytesAreThere(c, r, n);
    hide Expected, Tensors, YieldedBy, Holds;
  }

  lemma AwaitInv(c: Config, r: nat, n: Node)
    requires ValidConfig(c) && NodeInv(c, r, n) && CanAwait(c, n)
    ensures NodeInv(c, r, Awaited(n))
  {
    hide Tensors, Expected, Holds, Arrived, YieldedBy;
    FinishedBucket(c, n.awaited);
  }

  /** A finished bucket, and none of the next. */
  lemma FinishedBucket(c: Config, awaited: nat)
    requires ValidConfig(c) && awaited < |c.schedule|
    ensures YieldedBy(c, awaited + 1, 0)
      == if awaited == 0 then YieldedBy(c, 0, 0) else YieldedBy(c, awaited, |c.schedule[awaited - 1].items|)
  {
    if awaited > 0 {
      ExpectedNext(c, awaited - 1);
      var t := Tensors(c.schedule[awaited - 1]);
      assert t[..|t|] == t;
    }
    hide Tensors;
  }

  lemma GiveInv(c: Config, r: nat, n: Node)
    requires ValidConfig(c) && NodeInv(c, r, n) && CanGive(c, n)
    ensures NodeInv(c, r, Gave(c, n))
  {
    hide Expected, Tensors, Cut;
    var b := c.schedule[n.awaited - 1];
    assert ValidBucket(c, b);
    NextTensor(c, b, n.At(Half(n.awaited - 1)), n.given);
    hide Holds, Half, ValidConfig, Arrived;
  }

  /** Cutting an item out of the half gives the tensor of the bucket. */
  lemma NextTensor(c: Config, b: Bucket, half: seq<Byte>, j: nat)
    requires ValidBucket(c, b) && b.bytes <= half && j < |b.items|
    ensures b.items[j].offset + b.items[j].Size() <= |half|
    ensures Tensors(b)[..j + 1] == Tensors(b)[..j] + [Cut(half, b.items[j])]
  {
    var e := b.items[j];
    assert half[e.offset..e.offset + e.Size()] == b.bytes[e.offset..e.offset + e.Size()];
  }

  lemma EndInv(c: Config, r: nat, n: Node)
    requires ValidConfig(c) && NodeInv(c, r, n) && CanEnd(c, n)
    ensures NodeInv(c, r, n.(ended := true))
  {
    hide Expected, Tensors;
  }

  lemma NodeKeepsInv(c: Config, s: System, a: Step)
    requires ValidConfig(c) && Inv(c, s) && Enabled(c, s, a)
    ensures NodeInv(c, a.r, After(c, s, a))
  {
    hide NodeInv, SourceWaits, CanLaunch, CanGive, CanAwait, CanEnd, CanCopy, Launched, Gave, Copied, Awaited, HasBytes;
    var n := s.nodes[a.r];
    match a
    case Launch(r) => LaunchInv(c, r, n);
    case Copy(r, i) => CopyInv(c, c.schedule[n.awaited].receiver, SourceOf(c, s, n), r, n, i);
    case Return(r) => ReturnInv(c, r, n);
    case Await(r) => AwaitInv(c, r, n);
    case Give(r) => GiveInv(c, r, n);
    case End(r) => EndInv(c, r, n);
  }

  /** A step takes no bytes away, and only the end of a call moves a rank past it. */
  lemma StepKeepsBytes(c: Config, s: System, a: Step, g: nat)
    requires ValidConfig(c) && |s.nodes| == c.ranks && Enabled(c, s, a) && NodeInv(c, a.r, s.nodes[a.r]) && g < |c.schedule|
    ensures HasBytes(c, a.r, s.nodes[a.r], g) ==> HasBytes(c, a.r, After(c, s, a), g)
    ensures After(c, s, a).Past(g) ==> s.nodes[a.r].Past(g) || (a.Return? && s.nodes[a.r].awaited == g)
  {
    hide Expected, Tensors, YieldedBy, Holds, Arrived, Filled, Cut, Half;
  }

  lemma StepKeepsWaiting(c: Config, s: System, a: Step, g: nat)
    requires ValidConfig(c) && Inv(c, s) && Enabled(c, s, a) && g < |c.schedule|
    ensures SourceWaits(c, Apply(c, s, a), g)
  {
    hide NodeInv, HasBytes, After;
    assert SourceWaits(c, s, g);
    StepKeepsBytes(c, s, a, g);
    var k, s' := c.schedule[g].receiver, Apply(c, s, a);
    if s'.nodes[k].Past(g) {
      forall r | 0 <= r < c.ranks ensures HasBytes(c, r, s'.nodes[r], g) {
        assert HasBytes(c, r, s.nodes[r], g);
      }
    }
  }

  lemma StepKeepsInv(c: Config, s: System, a: Step)
    requires ValidConfig(c) && Inv(c, s) && Enabled(c, s, a)
    ensures Inv(c, Apply(c, s, a))
  {
    hide NodeInv, SourceWaits, After, Enabled;
    NodeKeepsInv(c, s, a);
    forall g | 0 <= g < |c.schedule| ensures SourceWaits(c, Apply(c, s, a), g) {
      StepKeepsWaiting(c, s, a, g);
    }
  }

  lemma StartInv(c: Config, s: System)
    requires ValidConfig(c) && Start(c, s)
    ensures Inv(c, s)
  {
    hide Expected, Tensors;
    forall g | 0 <= g < |c.schedule| ensures SourceWaits(c, s, g) {
      assert ValidBucket(c, c.schedule[g]);
    }
  }

  lemma {:induction false} RunInv(c: Config, states: seq<System>, acts: seq<Step>, t: nat)
    requires ValidConfig(c) && IsRun(c, states, acts) && t < |states|
    ensures Inv(c, states[t])
  {
    hide Inv, Apply, Enabled, Start;
    if t == 0 {
      StartInv(c, states[0]);
    } else {
      RunInv(c, states, acts, t - 1);
      StepKeepsInv(c, states[t - 1], acts[t - 1]);
    }
  }
}
