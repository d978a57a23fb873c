/** How many activation groups are on the device: the exact peak over all runs. */
module OffloadMemory {
  import opened Ranges
  import opened Offload
  import opened OffloadRuns

  /** The largest number of groups on the device at once. */
  function Peak(layers: int, offload: int): int {
    if offload < layers then layers - offload + 1 else if layers <= 2 then 1 else layers - 1
  }

  // ----- No run exceeds the peak -----

  lemma ResidentTag(h: Handler, g: int) returns (tag: Tag)
    requires g in Resident(h)
    ensures tag.group == g
    ensures (tag in h.state && h.state[tag].Device?) || (tag in h.buf && h.buf[tag].Some?)
  {
    if t :| t in h.state && h.state[t].Device? && t.group == g {
      tag := t;
    } else {
      tag :| tag in h.buf && h.buf[tag].Some? && tag.group == g;
    }
  }

  lemma ForwardResident(h: Handler, done: seq<seq<Tensor>>, open: seq<Tensor>, i: int, c: int, b: int, g: int)
    requires StateInv(h, done, open, i, c) && BufInv(h, done, open, b) && g in Resident(h)
    ensures 0 <= g <= |done| && (g == |done| ==> open != [])
    ensures !OnHost(h.plan, i, c, g) || g >= b
  {
    var tag := ResidentTag(h, g);
    assert IsTag(done, open, tag);
  }

  lemma ForwardSpan(p: Plan, i: int, c: int)
    requires GoodWindow(p) && Schedule(p, i, c)
    ensures c <= i && i - c <= p.layers - p.offload
  {
    if c < p.offload {
      WindowBelow(p, c);
    }
    if c > 0 {
      assert p.window[c - 1] >= c - 1;
    }
  }

  /** The groups on the device after `c` awaited offloads, at any stage of the forward half. */
  lemma ForwardBound(h: Handler, done: seq<seq<Tensor>>, open: seq<Tensor>, i: int, c: int, b: int, lo: int)
    requires GoodWindow(h.plan) && Schedule(h.plan, |done|, lo) && (|done| == h.plan.layers ==> open == [])
    requires StateInv(h, done, open, i, c) && BufInv(h, done, open, b)
    requires |done| <= i && lo <= c && lo <= b
    ensures |Resident(h)| <= Peak(h.plan.layers, h.plan.offload)
  {
    hide StateInv, BufInv, Resident, GoodWindow;
    PlanSizes(h.plan);
    ForwardSpan(h.plan, |done|, lo);
    if h.plan.offload < h.plan.layers {
      forall g | g in Resident(h) ensures lo <= g <= |done| {
        ForwardResident(h, done, open, i, c, b, g);
      }
      RangeSize(Resident(h), lo, |done| - lo + 1);
    } else {
      var first := if |done| == 0 then 0 else 1;
      var last := if |done| == h.plan.layers then |done| - 1 else |done|;
      forall g | g in Resident(h) ensures first <= g <= last {
        ForwardResident(h, done, open, i, c, b, g);
      }
      RangeSize(Resident(h), first, last - first + 1);
    }
  }

  lemma PlanSizes(p: Plan)
    requires GoodWindow(p)
    ensures 1 <= p.offload <= p.layers
  {
  }

  lemma BackwardResident(h: Handler, pushed: seq<seq<Tensor>>, i: int, rest: set<Tag>, g: int)
    requires BackwardInv(h, pushed, i, rest) && g in Resident(h)
    ensures 0 <= g <= i && g < h.plan.layers && !StillOut(h.plan, i, g)
  {
    hide GoodWindow, TransitInv;
    var tag := ResidentTag(h, g);
    assert IsLive(pushed, i, rest, tag);
  }

  lemma BackwardSpan(p: Plan, i: int, c: int) returns (lo: int)
    requires GoodWindow(p) && BackCount(p, i, c) && 0 <= i <= p.layers
    ensures 0 <= lo <= i && i - lo <= p.layers - p.offload
    ensures forall g :: 0 <= g <= i && !Waiting(p, i, g) ==> lo <= g
  {
    if i == 0 {
      lo := 0;
    } else if p.window[c - 1] < i {
      lo := c;
      if c < p.offload {
        WindowBelow(p, c);
      }
    } else {
      lo := 0;
      WindowBelow(p, 0);
    }
  }

  lemma BackwardBound(h: Handler, pushed: seq<seq<Tensor>>, i: int, rest: set<Tag>)
    requires BackwardInv(h, pushed, i, rest)
    ensures |Resident(h)| <= Peak(h.plan.layers, h.plan.offload)
  {
    hide BackState, BackBuf, TransitInv, Resident, GoodWindow, Waiting;
    PlanSizes(h.plan);
    if h.plan.offload < h.plan.layers {
      var lo := BackwardSpan(h.plan, i, h.offloaded);
      forall g | g in Resident(h) ensures lo <= g <= i {
        BackwardResident(h, pushed, i, rest, g);
      }
      RangeSize(Resident(h), lo, i - lo + 1);
    } else {
      var first := if i == 0 then 0 else 1;
      var last := if i == h.plan.layers then i - 1 else i;
      forall g | g in Resident(h) ensures first <= g <= last {
        BackwardResident(h, pushed, i, rest, g);
        if i > 0 {
          GroupZeroWaits(h.plan, i);
        }
      }
      RangeSize(Resident(h), first, last - first + 1);
    }
  }

  /** With as many offload groups as layers, group 0 is reloaded last. */
  lemma GroupZeroWaits(p: Plan, i: int)
    requires GoodWindow(p) && p.offload == p.layers && 0 < i <= p.layers
    ensures StillOut(p, i, 0)
  {
    WindowBelow(p, 0);
  }

  /** Never more groups than the peak are on the device. */
  lemma MemoryBound(layers: int, offload: int, hs: seq<Handler>, ps: seq<Phase>, es: seq<Event>, t: nat)
    requires IsRun(layers, offload, hs, ps, es) && t < |hs|
    ensures |Resident(hs[t])| <= Peak(layers, offload)
  {
    RunInv(layers, offload, hs, ps, es, t);
    hide StateInv, BufInv, CopyInv, GoodWindow, Resident, BackState, BackBuf, IsRun, Peak;
    match ps[t]
    case Pushing(done, open) =>
      ForwardBound(hs[t], done, open, |done|, hs[t].offloaded, hs[t].offloaded, hs[t].offloaded);
    case Popping(pushed, group, rest) =>
      BackwardBound(hs[t], pushed, group, rest);
  }

  lemma DueCommitBound(h: Handler, done: seq<seq<Tensor>>, open: seq<Tensor>, src0: map<Key, Tensor>, src1: map<Key, Tensor>)
    requires ForwardInv(h, done, open) && |done| < h.plan.layers && ForwardSources(h, src0, src1) && DueForward(h)
    ensures var f, n := Forward(h, src0, src1), Peak(h.plan.layers, h.plan.offload);
      |Resident(f.waited)| <= n && |Resident(f.dropped)| <= n && |Resident(f.last)| <= n
  {
    hide StateInv, BufInv, CopyInv, GoodWindow, Resident, Schedule, Sources, KeysConsistent, AllConsistent, Offloaded, CanOffload, Peak;
    KickKeepsPlan(h, src0);
    var c, i, f := h.offloaded, |done| + 1, Forward(h, src0, src1);
    KickStart(h, done, open, src0);
    StateUnchanged(f.first, f.waited, done, open, i, c);
    BufUnchanged(f.first, f.waited, done, open, c);
    ForwardBound(f.waited, done, open, i, c, c, c);
    StateUnchanged(f.first, f.dropped, done, open, i, c);
    DropBuf(f.first, done, open, c);
    ForwardBound(f.dropped, done, open, i, c, c + 1, c);
    DueCommit(h, done, open, src0, src1);
    assert f.last.plan == h.plan;
    ForwardBound(f.last, done, open, i, c + 1, c + 1, c);
  }

  lemma KickBound(h: Handler, done: seq<seq<Tensor>>, open: seq<Tensor>, src0: map<Key, Tensor>, src1: map<Key, Tensor>)
    requires ForwardInv(h, done, open) && |done| < h.plan.layers && ForwardSources(h, src0, src1)
    ensures |Resident(KickStarted(h, src0))| <= Peak(h.plan.layers, h.plan.offload)
  {
    hide StateInv, BufInv, CopyInv, GoodWindow, Resident, Schedule, Sources, KeysConsistent, KickStarted, Peak;
    KickStart(h, done, open, src0);
    KickKeepsPlan(h, src0);
    ForwardBound(KickStarted(h, src0), done, open, |done| + 1, h.offloaded, h.offloaded, h.offloaded);
  }

  /** The bound also holds between the statements of a forward commit. */
  lemma CommitMemoryBound(layers: int, offload: int, hs: seq<Handler>, ps: seq<Phase>, es: seq<Event>, t: nat)
    requires IsRun(layers, offload, hs, ps, es) && t < |es| && es[t].CommitForward?
    ensures var f, n := Forward(hs[t], es[t].src0, es[t].src1), Peak(layers, offload);
      |Resident(f.first)| <= n && |Resident(f.waited)| <= n && |Resident(f.dropped)| <= n && |Resident(f.last)| <= n
  {
    RunInv(layers, offload, hs, ps, es, t);
    hide ForwardInv, BackwardInv, Resident, KickStarted, Offloaded, Dropped, ForwardSources, KeysConsistent, Peak;
    var h, p := hs[t], ps[t];
    CurrentIs(h, p.done, p.open);
    KickBound(h, p.done, p.open, es[t].src0, es[t].src1);
    if DueForward(h) {
      DueCommitBound(h, p.done, p.open, es[t].src0, es[t].src1);
    }
  }

  // ----- Some run reaches the peak -----

  /** The tensor that the handler would copy for key `k` of group `g`. */
  ghost function SourceOf(h: Handler, g: int, k: Key): Tensor
    requires exists tag :: IsSource(h, g, k, tag)
  {
    var tag :| IsSource(h, g, k, tag);
    h.state[tag].tensor
  }

  ghost predicate IsSource(h: Handler, g: int, k: Key, tag: Tag) {
    tag in h.state && tag.group == g && h.state[tag].Device? && KeyOf(h.state[tag].tensor) == k
  }

  /** Copy sources can always be chosen. */
  lemma SourcesExist(h: Handler, g: int) returns (src: map<Key, Tensor>)
    ensures Sources(h, g, src)
  {
    var keys := set tag | tag in h.state && tag.group == g && h.state[tag].Device? :: KeyOf(h.state[tag].tensor);
    forall k | k in keys ensures exists tag :: IsSource(h, g, k, tag) {
      var tag :| tag in h.state && tag.group == g && h.state[tag].Device? && KeyOf(h.state[tag].tensor) == k;
      assert IsSource(h, g, k, tag);
    }
    src := map k | k in keys :: SourceOf(h, g, k);
    forall k | k in src ensures KeyOf(src[k]) == k && InGroup(h, g, src[k]) {
      var tag :| IsSource(h, g, k, tag) && h.state[tag].tensor == src[k];
    }
  }

  /** Every legal event can follow a run. */
  lemma RunContinues(layers: int, offload: int, hs: seq<Handler>, ps: seq<Phase>, es: seq<Event>, e: Event)
    requires IsRun(layers, offload, hs, ps, es) && Legal(layers, ps[|es|], e) && Chosen(hs[|es|], e)
    ensures Can(hs[|es|], e)
    ensures IsRun(layers, offload, hs + [Do(hs[|es|], e)], ps + [Next(layers, ps[|es|], e)], es + [e])
  {
    hide Inv, Legal, Chosen, Can, Do;
    var t := |es|;
    RunInv(layers, offload, hs, ps, es, t);
    StepKeepsInv(hs[t], layers, offload, ps[t], e);
    var hs', ps', es' := hs + [Do(hs[t], e)], ps + [Next(layers, ps[t], e)], es + [e];
    forall u | 0 <= u < |es'|
      ensures Legal(layers, ps'[u], es'[u]) && Chosen(hs'[u], es'[u]) && ps'[u + 1] == Next(layers, ps'[u], es'[u])
              && (Can(hs'[u], es'[u]) ==> hs'[u + 1] == Do(hs'[u], es'[u]))
    {
      assert hs'[u] == hs[u] && ps'[u] == ps[u];
      if u < t {
        assert es'[u] == es[u] && hs'[u + 1] == hs[u + 1] && ps'[u + 1] == ps[u + 1];
      }
    }
  }

  const SCALAR: Tensor := Activation(0, "", [], [0])

  /** A run whose first `i` layers each saved one tensor. */
  lemma {:induction false} ForwardRun(layers: int, offload: int, i: nat)
    returns (hs: seq<Handler>, ps: seq<Phase>, es: seq<Event>)
    requires 1 <= offload <= layers && i <= layers
    ensures IsRun(layers, offload, hs, ps, es) && ps[|es|] == Pushing(seq(i, _ => [SCALAR]), [])
    decreases i, 0
  {
    if i == 0 {
      hs, ps, es := [Fresh(layers, offload)], [Pushing([], [])], [];
    } else {
      hs, ps, es := PushedRun(layers, offload, i - 1);
      var h := hs[|es|];
      var src0 := SourcesExist(h, 0);
      var src1 := SourcesExist(KickStarted(h, src0), h.offloaded + 1);
      var e := CommitForward(src0, src1);
      RunContinues(layers, offload, hs, ps, es, e);
      hs, ps, es := hs + [Do(h, e)], ps + [Next(layers, ps[|es|], e)], es + [e];
      assert seq(i - 1, _ => [SCALAR]) + [[SCALAR]] == seq(i, _ => [SCALAR]);
    }
  }

  /** The same after one more push. */
  lemma {:induction false} PushedRun(layers: int, offload: int, i: nat)
    returns (hs: seq<Handler>, ps: seq<Phase>, es: seq<Event>)
    requires 1 <= offload <= layers && i < layers
    ensures IsRun(layers, offload, hs, ps, es) && ps[|es|] == Pushing(seq(i, _ => [SCALAR]), [SCALAR])
    decreases i, 1
  {
    hs, ps, es := ForwardRun(layers, offload, i);
    var e := Push(SCALAR);
    RunContinues(layers, offload, hs, ps, es, e);
    hs, ps, es := hs + [Do(hs[|es|], e)], ps + [Next(layers, ps[|es|], e)], es + [e];
  }

  lemma HeldIsResident(h: Handler, tag: Tag)
    requires (tag in h.state && h.state[tag].Device?) || (tag in h.buf && h.buf[tag].Some?)
    ensures tag.group in Resident(h)
  {
  }

  lemma LastLayerTag(done: seq<seq<Tensor>>, g: int)
    requires 0 <= g <= |done| && forall i :: 0 <= i < |done| ==> done[i] == [SCALAR]
    ensures IsTag(done, [SCALAR], Tag(g, 0))
  {
  }

  lemma LastLayerState(h: Handler, done: seq<seq<Tensor>>, open: seq<Tensor>, tag: Tag)
    requires ForwardInv(h, done, open) && IsTag(done, open, tag)
    ensures tag in h.state && (!OnHost(h.plan, |done|, h.offloaded, tag.group) ==> h.state[tag].Device?)
    ensures h.offloaded <= tag.group < h.plan.offload ==> tag in h.buf && h.buf[tag].Some?
    ensures 0 <= |done| < h.plan.layers && h.plan.offload < h.plan.layers ==> h.offloaded < h.plan.offload
  {
    hide CopyInv, AllConsistent, KeysConsistent, GroupAt, Backed;
  }

  /** In the last layer the groups from the one awaited last on are all on the device. */
  lemma LastLayerResident(h: Handler, layers: int, g: int)
    requires h.plan.layers == layers >= 1 && ForwardInv(h, seq(layers - 1, _ => [SCALAR]), [SCALAR])
    requires if h.plan.offload < layers then h.plan.offload - 1 <= g < layers else (if layers == 1 then 0 else 1) <= g < layers
    ensures g in Resident(h)
  {
    var done := seq(layers - 1, _ => [SCALAR]);
    LastLayerTag(done, g);
    OffloadAtLeastOne(h, done, [SCALAR]);
    hide ForwardInv, Resident, IsTag;
    LastLayerState(h, done, [SCALAR], Tag(g, 0));
    HeldIsResident(h, Tag(g, 0));
  }

  lemma OffloadAtLeastOne(h: Handler, done: seq<seq<Tensor>>, open: seq<Tensor>)
    requires ForwardInv(h, done, open)
    ensures 1 <= h.plan.offload <= h.plan.layers && |done| <= h.plan.layers
  {
    hide StateInv, BufInv, CopyInv, AllConsistent, KeysConsistent;
  }

  lemma PeakReached(layers: int, offload: int) returns (hs: seq<Handler>, ps: seq<Phase>, es: seq<Event>)
    requires 1 <= offload <= layers
    ensures IsRun(layers, offload, hs, ps, es) && |Resident(hs[|es|])| >= Peak(layers, offload)
  {
    hs, ps, es := PushedRun(layers, offload, layers - 1);
    RunInv(layers, offload, hs, ps, es, |es|);
    hide Resident, IsRun, ForwardInv;
    LastLayerCount(hs[|es|], layers);
  }

  lemma LastLayerCount(h: Handler, layers: int)
    requires h.plan.layers == layers >= 1 && ForwardInv(h, seq(layers - 1, _ => [SCALAR]), [SCALAR])
    ensures |Resident(h)| >= Peak(layers, h.plan.offload)
  {
    OffloadAtLeastOne(h, seq(layers - 1, _ => [SCALAR]), [SCALAR]);
    hide Resident, ForwardInv;
    var lo := if h.plan.offload < layers then h.plan.offload - 1 else if layers == 1 then 0 else 1;
    forall g | lo <= g < layers ensures g in Resident(h) {
      LastLayerResident(h, layers, g);
    }
    RangeInside(Resident(h), lo, layers - lo);
  }

  /** The exact bound: `m` groups suffice for all runs if and only if `m` is at least the peak. */
  lemma PeakIsExact(layers: int, offload: int, m: int)
    requires 1 <= offload <= layers
    ensures (forall hs, ps, es, t: nat :: IsRun(layers, offload, hs, ps, es) && t < |hs| ==> |Resident(hs[t])| <= m)
       <==> m >= Peak(layers, offload)
  {
    hide Resident, Peak;
    var hs, ps, es := PeakReached(layers, offload);
    assert |es| < |hs| by {
      RunLength(layers, offload, hs, ps, es);
    }
    if m >= Peak(layers, offload) {
      forall hs, ps, es, t: nat | IsRun(layers, offload, hs, ps, es) && t < |hs| ensures |Resident(hs[t])| <= m {
        MemoryBound(layers, offload, hs, ps, es, t);
      }
    }
  }

  lemma RunLength(layers: int, offload: int, hs: seq<Handler>, ps: seq<Phase>, es: seq<Event>)
    requires IsRun(layers, offload, hs, ps, es)
    ensures |hs| == |es| + 1
  {
  }

  /** "At most two activation groups": true of the caller's choice, and of nothing else but three layers or fewer. */
  lemma AtMostTwoGroups(layers: int, offload: int)
    requires 1 <= offload <= layers
    ensures (forall hs, ps, es, t: nat :: IsRun(layers, offload, hs, ps, es) && t < |hs| ==> |Resident(hs[t])| <= 2)
       <==> offload == layers - 1 || (offload == layers <= 3)
  {
    PeakIsExact(layers, offload, 2);
  }
}
