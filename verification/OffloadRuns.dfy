/**
 * Runs of the offload handler: any number of rounds, each with `layers` layer forwards (pushes, then one commit)
 * followed by `layers` layer backwards (one commit, then the pops of that group in any order).
 */
module OffloadRuns {
  import opened Options
  import opened Offload

  // ----- The window map -----

  /** What the schedule needs to know about `layer_window_map`. */
  ghost predicate GoodWindow(p: Plan) {
    && 1 <= p.offload <= p.layers
    && (forall g :: g in p.window <==> 0 <= g < p.offload)
    && (forall g :: 0 <= g < p.offload ==> p.window[g] >= if p.offload < p.layers then g + 1 else g)
    && (forall g, g' :: 0 <= g < g' < p.offload ==> p.window[g'] - p.window[g] >= g' - g)
    && p.window[p.offload - 1] == p.layers - 1
  }

  lemma WindowStep(layers: int, offload: int, i: int)
    requires 1 <= offload <= layers && 0 <= i
    ensures Window(layers, offload, i + 1) >= Window(layers, offload, i) + 1
  {
    var q := layers / offload;
    assert q >= 1;
    assert q * (i + 2) == q * (i + 1) + q;
  }

  lemma {:induction false} WindowGrows(layers: int, offload: int, g: int, g': int)
    requires 1 <= offload <= layers && 0 <= g <= g'
    ensures Window(layers, offload, g') - Window(layers, offload, g) >= g' - g
    decreases g' - g
  {
    if g < g' {
      WindowGrows(layers, offload, g, g' - 1);
      WindowStep(layers, offload, g' - 1);
    }
  }

  /** The map increases strictly, ends at the last layer, and leaves each group at least one commit to be copied. */
  lemma WindowIsGood(layers: int, offload: int)
    requires 1 <= offload <= layers
    ensures GoodWindow(Fresh(layers, offload).plan)
  {
    var (q, rem) := (layers / offload, layers % offload);
    assert layers == q * offload + rem;
    assert Window(layers, offload, offload - 1) == layers - 1;
    assert Window(layers, offload, 0) >= if offload < layers then 1 else 0 by {
      if q == 1 {
        assert q * offload == offload;
      }
    }
    var h := Fresh(layers, offload);
    forall g | 0 <= g < offload ensures h.plan.window[g] >= if offload < layers then g + 1 else g {
      WindowGrows(layers, offload, 0, g);
    }
    forall g, g' | 0 <= g < g' < offload ensures h.plan.window[g'] - h.plan.window[g] >= g' - g {
      WindowGrows(layers, offload, g, g');
    }
  }

  // ----- The protocol of a client -----

  /** Where the training loop is; `rest` are the tags of group `group` not yet popped. */
  datatype Phase =
    | Pushing(done: seq<seq<Tensor>>, open: seq<Tensor>)
    | Popping(pushed: seq<seq<Tensor>>, group: int, rest: set<Tag>)

  datatype Event =
    | Push(tensor: Tensor)
    | CommitForward(src0: map<Key, Tensor>, src1: map<Key, Tensor>)
    | CommitBackward(addr: map<Key, nat>)
    | Pop(tag: Tag)

  function TagsOf(group: int, n: nat): set<Tag> {
    set j | 0 <= j < n :: Tag(group, j)
  }

  /** What the training loop does, and the hypothesis on the tensors it saves. */
  ghost predicate Legal(layers: int, p: Phase, e: Event) {
    match e
    case Push(t) => p.Pushing? && |p.done| < layers && KeysConsistent(p.open + [t])
    case CommitForward(_, _) => p.Pushing? && |p.done| < layers
    case CommitBackward(_) => (p.Pushing? && |p.done| == layers) || (p.Popping? && p.rest == {} && 0 < p.group <= |p.pushed|)
    case Pop(tag) => p.Popping? && tag in p.rest
  }

  /** A round is over when group 0 is popped. */
  function Settle(p: Phase): Phase {
    if p.Popping? && p.group == 0 && p.rest == {} then Pushing([], []) else p
  }

  function Next(layers: int, p: Phase, e: Event): Phase
    requires Legal(layers, p, e)
  {
    match e
    case Push(t) => Pushing(p.done, p.open + [t])
    case CommitForward(_, _) => Pushing(p.done + [p.open], [])
    case CommitBackward(_) =>
      var pushed := if p.Pushing? then p.done else p.pushed;
      var group := if p.Pushing? then |p.done| - 1 else p.group - 1;
      if group < 0 then p else Settle(Popping(pushed, group, TagsOf(group, |pushed[group]|)))
    case Pop(tag) => Settle(p.(rest := p.rest - {tag}))
  }

  /** The assertions and lookups of the operation succeed. */
  ghost predicate Can(h: Handler, e: Event) {
    match e
    case Push(_) => CanPush(h)
    case CommitForward(_, _) => CanCommitForward(h)
    case CommitBackward(_) => CanCommitBackward(h)
    case Pop(tag) => CanPop(h, tag)
  }

  /** The choices recorded in the event are ones the operation can make. */
  ghost predicate Chosen(h: Handler, e: Event) {
    e.CommitForward? ==> ForwardSources(h, e.src0, e.src1)
  }

  function Do(h: Handler, e: Event): Handler
    requires Can(h, e)
  {
    match e
    case Push(t) => Pushed(h, t)
    case CommitForward(src0, src1) => NextGroup(Forward(h, src0, src1).last)
    case CommitBackward(addr) => Backward(h, addr)
    case Pop(tag) => Popped(h, tag)
  }

  // ----- The invariant of the forward half -----

  function GroupAt(done: seq<seq<Tensor>>, open: seq<Tensor>, g: int): seq<Tensor> {
    if 0 <= g < |done| then done[g] else open
  }

  ghost predicate IsTag(done: seq<seq<Tensor>>, open: seq<Tensor>, tag: Tag) {
    0 <= tag.group <= |done| && tag.index < |GroupAt(done, open, tag.group)|
  }

  /** The offload of group `g` has begun after `i` commits and `c` awaited offloads. */
  predicate Begun(p: Plan, i: int, c: int, g: int) {
    i >= 1 && 0 <= g <= c && g < p.offload
  }

  /** Its tensors are on the host; with as many offload groups as layers only group 0 was complete in time. */
  predicate OnHost(p: Plan, i: int, c: int, g: int) {
    Begun(p, i, c, g) && (p.offload < p.layers || g == 0)
  }

  /** The entry of a tag whose tensor `t` was offloaded. */
  ghost predicate Backed(h: Handler, tag: Tag, t: Tensor)
    requires tag in h.state
  {
    && h.state[tag] == Host(KeyOf(t), t.shape)
    && tag.group in h.hosts && KeyOf(t) in h.hosts[tag.group]
    && h.hosts[tag.group][KeyOf(t)].elems == t.elems && h.hosts[tag.group][KeyOf(t)].dtype == t.dtype
  }

  ghost predicate Schedule(p: Plan, i: int, c: int)
    requires GoodWindow(p)
  {
    && 0 <= i <= p.layers && 0 <= c <= p.offload
    && (c < p.offload ==> p.window[c] >= i)
    && (c > 0 ==> p.window[c - 1] < i)
  }

  ghost predicate AllConsistent(groups: seq<seq<Tensor>>) {
    forall g :: 0 <= g < |groups| ==> KeysConsistent(groups[g])
  }

  ghost predicate StateInv(h: Handler, done: seq<seq<Tensor>>, open: seq<Tensor>, i: int, c: int) {
    && (forall tag :: tag in h.state <==> IsTag(done, open, tag))
    && (forall tag :: tag in h.state ==>
          var t := GroupAt(done, open, tag.group)[tag.index];
          if OnHost(h.plan, i, c, tag.group) then Backed(h, tag, t) else h.state[tag] == Device(t))
    && (forall g :: g in h.hosts <==> Begun(h.plan, i, c, g))
  }

  ghost predicate BufInv(h: Handler, done: seq<seq<Tensor>>, open: seq<Tensor>, c: int) {
    && (forall tag :: tag in h.buf <==> IsTag(done, open, tag) && tag.group < h.plan.offload)
    && (forall tag :: tag in h.buf ==>
          h.buf[tag] == if tag.group < c then None else Some(GroupAt(done, open, tag.group)[tag.index]))
  }

  /** Pending copies to the host read tensors of group `c` that the buffer map still refers to. */
  ghost predicate CopyInv(h: Handler, c: int) {
    forall t :: t in h.d2h ==>
      c < h.plan.offload && exists tag :: tag in h.buf && tag.group == c && h.buf[tag] == Some(t)
  }

  ghost predicate ForwardInv(h: Handler, done: seq<seq<Tensor>>, open: seq<Tensor>) {
    && GoodWindow(h.plan)
    && h.current == |done| && h.count == |open| && (|done| == h.plan.layers ==> open == [])
    && Schedule(h.plan, |done|, h.offloaded)
    && AllConsistent(done) && KeysConsistent(open)
    && StateInv(h, done, open, |done|, h.offloaded)
    && BufInv(h, done, open, h.offloaded)
    && CopyInv(h, h.offloaded)
    && h.h2d == {}
  }

  lemma FreshInv(layers: int, offload: int)
    requires 1 <= offload <= layers
    ensures ForwardInv(Fresh(layers, offload), [], [])
  {
    WindowIsGood(layers, offload);
  }

  lemma PushState(h: Handler, done: seq<seq<Tensor>>, open: seq<Tensor>, t: Tensor, c: int)
    requires StateInv(h, done, open, |done|, c) && h.current == |done| && h.count == |open|
    requires !OnHost(h.plan, |done|, c, |done|)
    ensures CanPush(h) && StateInv(Pushed(h, t), done, open + [t], |done|, c)
  {
    var open', h' := open + [t], Pushed(h, t);
    assert !IsTag(done, open, Tag(h.current, h.count));
    forall tag | tag in h'.state
      ensures IsTag(done, open', tag)
      ensures var u := GroupAt(done, open', tag.group)[tag.index];
        if OnHost(h'.plan, |done|, c, tag.group) then Backed(h', tag, u) else h'.state[tag] == Device(u)
    {
      if tag in h.state {
        assert IsTag(done, open, tag);
      }
    }
    forall tag | IsTag(done, open', tag) ensures tag in h'.state {
      if IsTag(done, open, tag) {
        assert tag in h.state;
      }
    }
  }

  lemma PushBuf(h: Handler, done: seq<seq<Tensor>>, open: seq<Tensor>, t: Tensor, c: int)
    requires BufInv(h, done, open, c) && h.current == |done| && h.count == |open| && c <= |done|
    ensures Tag(h.current, h.count) !in h.buf
    ensures BufInv(Pushed(h, t), done, open + [t], c)
  {
    var open', h' := open + [t], Pushed(h, t);
    forall tag | tag in h'.buf
      ensures IsTag(done, open', tag) && tag.group < h.plan.offload
      ensures h'.buf[tag] == if tag.group < c then None else Some(GroupAt(done, open', tag.group)[tag.index])
    {
      if tag in h.buf {
        assert IsTag(done, open, tag);
      }
    }
    forall tag | IsTag(done, open', tag) && tag.group < h.plan.offload ensures tag in h'.buf {
      if IsTag(done, open, tag) {
        assert tag in h.buf;
      }
    }
  }

  /** Pending copies stay referenced while the buffer map keeps the entries of group `c`. */
  lemma CopiesStayReferenced(h: Handler, h': Handler, c: int)
    requires CopyInv(h, c) && h'.d2h <= h.d2h && h'.plan == h.plan
    requires forall tag :: tag in h.buf && tag.group == c && h.buf[tag].Some? ==> tag in h'.buf && h'.buf[tag] == h.buf[tag]
    ensures CopyInv(h', c)
  {
    forall t | t in h'.d2h ensures exists tag :: tag in h'.buf && tag.group == c && h'.buf[tag] == Some(t) {
      var tag :| tag in h.buf && tag.group == c && h.buf[tag] == Some(t);
      assert h'.buf[tag] == Some(t);
    }
  }

  lemma PushKeepsInv(h: Handler, done: seq<seq<Tensor>>, open: seq<Tensor>, t: Tensor)
    requires ForwardInv(h, done, open) && |done| < h.plan.layers && KeysConsistent(open + [t])
    ensures CanPush(h) && ForwardInv(Pushed(h, t), done, open + [t])
  {
    hide StateInv, BufInv, CopyInv, KeysConsistent, OnHost;
    HostIsPast(h, |done|, h.offloaded);
    PushState(h, done, open, t, h.offloaded);
    PushBuf(h, done, open, t, h.offloaded);
    CopiesStayReferenced(h, Pushed(h, t), h.offloaded);
  }

  /** A group that is on the host has been committed. */
  lemma HostIsPast(h: Handler, i: int, c: int)
    requires GoodWindow(h.plan) && Schedule(h.plan, i, c)
    ensures !OnHost(h.plan, i, c, i)
    ensures c > 0 ==> (if h.plan.offload < h.plan.layers then c < i else c <= i)
  {
  }

  // ----- A forward commit -----

  /** Offloading group `g` extends the groups on the host by `g`. */
  lemma OffloadState(h: Handler, done: seq<seq<Tensor>>, open: seq<Tensor>, i: int, c: int, i': int, c': int,
                     g: int, src: map<Key, Tensor>)
    requires StateInv(h, done, open, i, c) && Sources(h, g, src) && KeysConsistent(GroupAt(done, open, g))
    requires forall tag :: tag in h.state ==>
      (OnHost(h.plan, i', c', tag.group) <==> OnHost(h.plan, i, c, tag.group) || tag.group == g)
    requires !OnHost(h.plan, i, c, g)
    requires forall g' :: Begun(h.plan, i', c', g') <==> g' == g || Begun(h.plan, i, c, g')
    ensures CanOffload(h, g)
    ensures StateInv(Offloaded(h, g, src), done, open, i', c')
  {
    var h' := Offloaded(h, g, src);
    forall tag | tag in h'.state
      ensures var t := GroupAt(done, open, tag.group)[tag.index];
        if OnHost(h'.plan, i', c', tag.group) then Backed(h', tag, t) else h'.state[tag] == Device(t)
    {
      var t := GroupAt(done, open, tag.group)[tag.index];
      assert tag in h.state && IsTag(done, open, tag);
      if tag.group == g {
        OffloadBacks(h, done, open, i, c, tag, src);
      } else if OnHost(h.plan, i, c, tag.group) {
        assert Backed(h, tag, t);
      }
    }
  }

  lemma OffloadBacks(h: Handler, done: seq<seq<Tensor>>, open: seq<Tensor>, i: int, c: int, tag: Tag, src: map<Key, Tensor>)
    requires StateInv(h, done, open, i, c) && Sources(h, tag.group, src) && tag in h.state
    requires KeysConsistent(GroupAt(done, open, tag.group)) && !OnHost(h.plan, i, c, tag.group)
    ensures h.state[tag].Device?
    ensures Backed(Offloaded(h, tag.group, src), tag, GroupAt(done, open, tag.group)[tag.index])
  {
    var group := GroupAt(done, open, tag.group);
    var k := KeyOf(group[tag.index]);
    assert h.state[tag] == Device(group[tag.index]);
    assert InGroup(h, tag.group, src[k]);
    var other :| other in h.state && other.group == tag.group && h.state[other] == Device(src[k]);
    assert src[k] == group[other.index];
  }

  /** The sources of the copies just started are referenced by the buffer map. */
  lemma OffloadCopies(h: Handler, done: seq<seq<Tensor>>, open: seq<Tensor>, i: int, c: int, b: int,
                      g: int, src: map<Key, Tensor>)
    requires StateInv(h, done, open, i, c) && Sources(h, g, src) && !OnHost(h.plan, i, c, g)
    requires BufInv(h, done, open, b) && CopyInv(h, g) && b <= g < h.plan.offload
    ensures CopyInv(Offloaded(h, g, src), g)
  {
    var h' := Offloaded(h, g, src);
    forall t | t in h'.d2h ensures exists tag :: tag in h'.buf && tag.group == g && h'.buf[tag] == Some(t) {
      if t in src.Values {
        var k :| k in src && src[k] == t;
        assert InGroup(h, g, t);
        var tag :| tag in h.state && tag.group == g && h.state[tag] == Device(t);
        assert h'.buf[tag] == Some(t);
      } else {
        var tag :| tag in h.buf && tag.group == g && h.buf[tag] == Some(t);
        assert h'.buf[tag] == Some(t);
      }
    }
  }

  lemma KickStart(h: Handler, done: seq<seq<Tensor>>, open: seq<Tensor>, src: map<Key, Tensor>)
    requires ForwardInv(h, done, open) && |done| < h.plan.layers && (h.current == 0 ==> Sources(h, 0, src))
    ensures h.current == 0 ==> CanOffload(h, 0)
    ensures StateInv(KickStarted(h, src), done, open, |done| + 1, h.offloaded)
    ensures BufInv(KickStarted(h, src), done, open, h.offloaded) && CopyInv(KickStarted(h, src), h.offloaded)
  {
    hide BufInv, CopyInv, Sources, KeysConsistent;
    if h.current == 0 {
      assert h.offloaded == 0;
      OffloadState(h, done, open, 0, 0, 1, 0, 0, src);
      OffloadCopies(h, done, open, 0, 0, 0, 0, src);
      BufUnchanged(h, KickStarted(h, src), done, open, 0);
    }
  }

  lemma BufUnchanged(h: Handler, h': Handler, done: seq<seq<Tensor>>, open: seq<Tensor>, c: int)
    requires BufInv(h, done, open, c) && h'.buf == h.buf && h'.plan == h.plan
    ensures BufInv(h', done, open, c)
  {
  }

  lemma DropBuf(h: Handler, done: seq<seq<Tensor>>, open: seq<Tensor>, c: int)
    requires BufInv(h, done, open, c)
    ensures BufInv(Dropped(WaitD2H(h), c), done, open, c + 1)
    ensures NoDanglingCopy(WaitD2H(h)) && NoDanglingCopy(Dropped(WaitD2H(h), c))
  {
  }

  lemma StateUnchanged(h: Handler, h': Handler, done: seq<seq<Tensor>>, open: seq<Tensor>, i: int, c: int)
    requires StateInv(h, done, open, i, c)
    requires h'.state == h.state && h'.hosts == h.hosts && h'.plan == h.plan
    ensures StateInv(h', done, open, i, c)
  {
  }

  /** Group `c + 1` is the next to go to the host, when the commit at which group `c` is due closes group `i - 1`. */
  lemma HostGrows(h: Handler, i: int, c: int, tag: Tag)
    requires GoodWindow(h.plan) && 0 <= c < h.plan.offload - 1 && h.plan.window[c] == i - 1
    ensures !OnHost(h.plan, i, c, c + 1)
    ensures tag.group <= i - 1 ==> (OnHost(h.plan, i, c + 1, tag.group) <==> OnHost(h.plan, i, c, tag.group) || tag.group == c + 1)
  {
    assert h.plan.window[h.plan.offload - 1] - h.plan.window[c] >= h.plan.offload - 1 - c;
  }

  lemma GroupsConsistent(done: seq<seq<Tensor>>, open: seq<Tensor>, g: int)
    requires AllConsistent(done) && KeysConsistent(open)
    ensures KeysConsistent(GroupAt(done, open, g))
  {
  }

  lemma OffloadNext(h: Handler, done: seq<seq<Tensor>>, open: seq<Tensor>, c: int, src: map<Key, Tensor>)
    requires GoodWindow(h.plan) && AllConsistent(done) && KeysConsistent(open)
    requires StateInv(h, done, open, |done| + 1, c) && BufInv(h, done, open, c + 1) && h.d2h == {}
    requires 0 <= c < h.plan.offload - 1 && h.plan.window[c] == |done| && Sources(h, c + 1, src)
    ensures CanOffload(h, c + 1)
    ensures StateInv(Offloaded(h, c + 1, src), done, open, |done| + 1, c + 1)
    ensures CopyInv(Offloaded(h, c + 1, src), c + 1)
  {
    var i := |done| + 1;
    forall tag | tag in h.state
      ensures OnHost(h.plan, i, c + 1, tag.group) <==> OnHost(h.plan, i, c, tag.group) || tag.group == c + 1
    {
      assert IsTag(done, open, tag);
      HostGrows(h, i, c, tag);
    }
    hide BufInv, CopyInv, Sources, KeysConsistent, StateInv, GoodWindow, OnHost, CanOffload, Offloaded;
    GroupsConsistent(done, open, c + 1);
    HostGrows(h, i, c, Tag(0, 0));
    OffloadState(h, done, open, i, c, i, c + 1, c + 1, src);
    NoCopies(h, c + 1);
    OffloadCopies(h, done, open, i, c, c + 1, c + 1, src);
  }

  lemma NoCopies(h: Handler, c: int)
    requires h.d2h == {}
    ensures CopyInv(h, c)
  {
  }

  lemma SameTags(done: seq<seq<Tensor>>, open: seq<Tensor>, tag: Tag)
    ensures IsTag(done + [open], [], tag) <==> IsTag(done, open, tag)
    ensures IsTag(done, open, tag) ==> GroupAt(done + [open], [], tag.group) == GroupAt(done, open, tag.group)
  {
  }

  /** Moving on to the next group renames the open group as done. */
  lemma CloseState(h: Handler, done: seq<seq<Tensor>>, open: seq<Tensor>, i: int, c: int)
    requires StateInv(h, done, open, i, c)
    ensures StateInv(NextGroup(h), done + [open], [], i, c)
  {
    var h' := NextGroup(h);
    forall tag ensures tag in h'.state <==> IsTag(done + [open], [], tag) {
      SameTags(done, open, tag);
    }
    forall tag | tag in h'.state
      ensures var t := GroupAt(done + [open], [], tag.group)[tag.index];
        if OnHost(h'.plan, i, c, tag.group) then Backed(h', tag, t) else h'.state[tag] == Device(t)
    {
      SameTags(done, open, tag);
      assert tag in h.state;
    }
  }

  lemma CloseBuf(h: Handler, done: seq<seq<Tensor>>, open: seq<Tensor>, c: int)
    requires BufInv(h, done, open, c)
    ensures BufInv(NextGroup(h), done + [open], [], c)
  {
    forall tag ensures tag in h.buf <==> IsTag(done + [open], [], tag) && tag.group < h.plan.offload {
      SameTags(done, open, tag);
    }
    forall tag | tag in h.buf
      ensures h.buf[tag] == if tag.group < c then None else Some(GroupAt(done + [open], [], tag.group)[tag.index])
    {
      SameTags(done, open, tag);
    }
  }

  lemma AllOnHost(h: Handler, done: seq<seq<Tensor>>, open: seq<Tensor>, i: int, c: int)
    requires StateInv(h, done, open, i, c) && c == h.plan.offload - 1
    ensures StateInv(h, done, open, i, c + 1)
  {
    forall g ensures Begun(h.plan, i, c + 1, g) == Begun(h.plan, i, c, g) {
    }
  }

  /** What a commit leaves behind, before the base class moves on to the next group. */
  ghost predicate Committed(h: Handler, last: Handler, done: seq<seq<Tensor>>, open: seq<Tensor>) {
    && last == h.(state := last.state, hosts := last.hosts, buf := last.buf, d2h := last.d2h, offloaded := last.offloaded)
    && StateInv(last, done, open, |done| + 1, last.offloaded)
    && BufInv(last, done, open, last.offloaded) && CopyInv(last, last.offloaded)
  }

  lemma DueCommit(h: Handler, done: seq<seq<Tensor>>, open: seq<Tensor>, src0: map<Key, Tensor>, src1: map<Key, Tensor>)
    requires ForwardInv(h, done, open) && |done| < h.plan.layers && ForwardSources(h, src0, src1) && DueForward(h)
    ensures CanCommitForward(h)
    ensures Committed(h, Forward(h, src0, src1).last, done, open)
    ensures Forward(h, src0, src1).last.offloaded == h.offloaded + 1
  {
    hide StateInv, BufInv, CopyInv, KeysConsistent, Sources, CanOffload, AllConsistent, GoodWindow, Schedule;
    var c, i, f := h.offloaded, |done| + 1, Forward(h, src0, src1);
    ScheduleMoves(h, |done|, c);
    KickStart(h, done, open, src0);
    DropBuf(f.first, done, open, c);
    StateUnchanged(f.first, f.dropped, done, open, i, c);
    if c < h.plan.offload - 1 {
      SourcesUnchanged(f.first, f.dropped, c + 1, src1);
      OffloadNext(f.dropped, done, open, c, src1);
      CanOffloadUnchanged(f.dropped, KickStarted(h, map[]), c + 1);
      var next := Offloaded(f.dropped, c + 1, src1);
      StateUnchanged(next, f.last, done, open, i, c + 1);
      BufUnchanged(f.dropped, f.last, done, open, c + 1);
      CopyUnchanged(next, f.last, c + 1);
    } else {
      AllOnHost(f.dropped, done, open, i, c);
      StateUnchanged(f.dropped, f.last, done, open, i, c + 1);
      BufUnchanged(f.dropped, f.last, done, open, c + 1);
      NoCopies(f.last, c + 1);
    }
  }

  lemma CopyUnchanged(h: Handler, h': Handler, c: int)
    requires CopyInv(h, c) && h'.d2h == h.d2h && h'.buf == h.buf && h'.plan == h.plan
    ensures CopyInv(h', c)
  {
  }

  /** A forward commit succeeds and keeps the invariant. */
  lemma ForwardKeepsInv(h: Handler, done: seq<seq<Tensor>>, open: seq<Tensor>, src0: map<Key, Tensor>, src1: map<Key, Tensor>)
    requires ForwardInv(h, done, open) && |done| < h.plan.layers && ForwardSources(h, src0, src1)
    ensures CanCommitForward(h)
    ensures ForwardInv(NextGroup(Forward(h, src0, src1).last), done + [open], [])
  {
    hide StateInv, BufInv, CopyInv, Sources, CanOffload, Schedule, GoodWindow, KeysConsistent;
    var last := Forward(h, src0, src1).last;
    ScheduleMoves(h, |done|, h.offloaded);
    if DueForward(h) {
      DueCommit(h, done, open, src0, src1);
      assert Schedule(h.plan, |done| + 1, last.offloaded);
    } else {
      KickStart(h, done, open, src0);
      assert Committed(h, last, done, open);
      assert Schedule(h.plan, |done| + 1, last.offloaded);
    }
    CloseState(last, done, open, |done| + 1, last.offloaded);
    CloseBuf(last, done, open, last.offloaded);
    CopyUnchanged(last, NextGroup(last), last.offloaded);
    ConsistentSnoc(done, open);
  }

  lemma ConsistentSnoc(done: seq<seq<Tensor>>, open: seq<Tensor>)
    requires AllConsistent(done) && KeysConsistent(open)
    ensures AllConsistent(done + [open]) && KeysConsistent([])
  {
  }

  /** At no stage of a forward commit has a tensor lost its last reference while it was still being copied. */
  lemma NoEarlyDrop(h: Handler, done: seq<seq<Tensor>>, open: seq<Tensor>, src0: map<Key, Tensor>, src1: map<Key, Tensor>)
    requires ForwardInv(h, done, open) && |done| < h.plan.layers && ForwardSources(h, src0, src1)
    ensures var f := Forward(h, src0, src1);
      NoDanglingCopy(h) && NoDanglingCopy(f.first) && NoDanglingCopy(f.waited) && NoDanglingCopy(f.dropped)
      && NoDanglingCopy(f.last)
  {
    hide StateInv, BufInv, Sources, CanOffload, Schedule;
    KickStart(h, done, open, src0);
    if DueForward(h) {
      DueCommit(h, done, open, src0, src1);
    }
  }

  lemma ScheduleMoves(h: Handler, i: int, c: int)
    requires GoodWindow(h.plan) && Schedule(h.plan, i, c) && i < h.plan.layers
    ensures 0 <= c < h.plan.offload && c in h.plan.window
    ensures h.plan.window[c] == i ==> Schedule(h.plan, i + 1, c + 1)
    ensures h.plan.window[c] != i ==> Schedule(h.plan, i + 1, c)
  {
  }

  // ----- The invariant of the backward half -----

  /** The reload of group `g` has not begun when the training loop is back at group `i`. */
  predicate Waiting(p: Plan, i: int, g: int) {
    0 <= g < p.offload && g in p.window && p.window[g] < i
  }

  predicate StillOut(p: Plan, i: int, g: int) {
    Waiting(p, i, g) && (p.offload < p.layers || g == 0)
  }

  ghost predicate IsLive(pushed: seq<seq<Tensor>>, i: int, rest: set<Tag>, tag: Tag) {
    0 <= tag.group < |pushed| && tag.index < |pushed[tag.group]| && (tag.group < i || tag in rest)
  }

  ghost predicate BackCount(p: Plan, i: int, c: int)
    requires GoodWindow(p)
  {
    if i == 0 then c == 0
    else 1 <= c <= p.offload && (c < p.offload ==> p.window[c] >= i) && (p.window[c - 1] < i || c == 1)
  }

  ghost predicate BackState(h: Handler, pushed: seq<seq<Tensor>>, i: int, rest: set<Tag>) {
    && (forall tag :: tag in h.state <==> IsLive(pushed, i, rest, tag))
    && (forall tag :: tag in h.state ==>
          var t := pushed[tag.group][tag.index];
          if StillOut(h.plan, i, tag.group) then Backed(h, tag, t)
          else h.state[tag].Device? && SameValue(h.state[tag].tensor, t))
    && (forall g :: g in h.hosts <==> Waiting(h.plan, i, g))
  }

  ghost predicate BackBuf(h: Handler, pushed: seq<seq<Tensor>>, i: int, rest: set<Tag>) {
    && (forall tag :: tag in h.buf <==> IsLive(pushed, i, rest, tag) && tag.group < h.plan.offload)
    && (forall tag :: tag in h.buf ==> h.buf[tag] == None)
  }

  /** Only the group reloaded last can still be in transit, and it is not the next one to be popped. */
  ghost predicate TransitInv(h: Handler, i: int) {
    forall tag :: tag in h.h2d ==>
      && i > 0 && tag.group in h.plan.window && h.plan.window[tag.group] >= i
      && (tag.group - 1 in h.plan.window ==> h.plan.window[tag.group - 1] < i)
      && (h.plan.offload < h.plan.layers || tag.group == 0)
  }

  ghost predicate BackwardInv(h: Handler, pushed: seq<seq<Tensor>>, i: int, rest: set<Tag>) {
    && GoodWindow(h.plan) && |pushed| == h.plan.layers && 0 <= i <= h.plan.layers
    && h.current == i && h.count == 0 && h.d2h == {}
    && (forall tag :: tag in rest ==> tag.group == i && i < h.plan.layers && tag.index < |pushed[i]|)
    && BackCount(h.plan, i, h.offloaded)
    && BackState(h, pushed, i, rest) && BackBuf(h, pushed, i, rest) && TransitInv(h, i)
  }

  lemma WindowBelow(p: Plan, g: int)
    requires GoodWindow(p) && 0 <= g < p.offload
    ensures p.window[g] <= p.layers - p.offload + g
  {
  }

  lemma TurnAround(h: Handler, done: seq<seq<Tensor>>)
    requires ForwardInv(h, done, []) && |done| == h.plan.layers
    ensures BackwardInv(h, done, h.plan.layers, {})
  {
    var p, i, c := h.plan, h.plan.layers, h.offloaded;
    if c < p.offload {
      WindowBelow(p, c);
    }
    assert c == p.offload;
    forall g ensures Begun(p, i, c, g) <==> Waiting(p, i, g) {
      if 0 <= g < p.offload {
        WindowBelow(p, g);
      }
    }
    TurnState(h, done);
    TurnBuf(h, done);
  }

  lemma TurnState(h: Handler, done: seq<seq<Tensor>>)
    requires StateInv(h, done, [], |done|, h.plan.offload) && |done| == h.plan.layers
    requires forall g :: Begun(h.plan, |done|, h.plan.offload, g) <==> Waiting(h.plan, |done|, g)
    ensures BackState(h, done, |done|, {})
  {
    forall tag ensures IsTag(done, [], tag) <==> IsLive(done, |done|, {}, tag) {
    }
    forall tag | tag in h.state
      ensures IsLive(done, |done|, {}, tag)
      ensures if StillOut(h.plan, |done|, tag.group) then Backed(h, tag, done[tag.group][tag.index])
        else h.state[tag].Device? && SameValue(h.state[tag].tensor, done[tag.group][tag.index])
    {
      assert IsTag(done, [], tag);
      assert Begun(h.plan, |done|, h.plan.offload, tag.group) <==> Waiting(h.plan, |done|, tag.group);
    }
  }

  lemma TurnBuf(h: Handler, done: seq<seq<Tensor>>)
    requires BufInv(h, done, [], h.plan.offload)
    ensures BackBuf(h, done, |done|, {})
  {
    forall tag ensures IsTag(done, [], tag) <==> IsLive(done, |done|, {}, tag) {
    }
  }

  // ----- A backward commit -----

  /** Which groups a commit at group `i` takes off the waiting list. */
  lemma DueReload(p: Plan, i: int, c: int)
    requires GoodWindow(p) && 0 <= i && BackCount(p, i + 1, c)
    ensures c - 1 in p.window
    ensures p.window[c - 1] == i ==> Waiting(p, i + 1, c - 1)
    ensures forall g :: Waiting(p, i, g) <==> Waiting(p, i + 1, g) && !(p.window[c - 1] == i && g == c - 1)
    ensures p.window[c - 1] == i && c > 1 ==> p.window[c - 2] < i
    ensures p.window[c - 1] != i ==> forall g :: g in p.window ==> p.window[g] != i
  {
    forall g ensures Waiting(p, i, g) <==> Waiting(p, i + 1, g) && !(p.window[c - 1] == i && g == c - 1) {
      if g in p.window && p.window[g] == i {
        assert g == c - 1;
      }
    }
  }

  lemma ReloadState(h: Handler, pushed: seq<seq<Tensor>>, i: int, g: int, addr: map<Key, nat>)
    requires BackState(h, pushed, i + 1, {}) && Waiting(h.plan, i + 1, g) && !Waiting(h.plan, i, g)
    requires forall g' :: g' != g ==> (Waiting(h.plan, i, g') <==> Waiting(h.plan, i + 1, g'))
    requires 0 <= i < |pushed|
    ensures CanReload(h, g)
    ensures BackState(Reloaded(h, g, addr), pushed, i, TagsOf(i, |pushed[i]|))
    ensures forall tag :: tag in Reloaded(h, g, addr).h2d - h.h2d ==>
      tag.group == g && (h.plan.offload < h.plan.layers || g == 0)
  {
    forall tag | tag in h.state && tag.group == g && h.state[tag].Host?
      ensures h.state[tag].key in h.hosts[g] && Weights.Numel(h.state[tag].shape) == |h.hosts[g][h.state[tag].key].elems|
      ensures StillOut(h.plan, i + 1, g)
    {
      assert IsLive(pushed, i + 1, {}, tag);
    }
    var h' := Reloaded(h, g, addr);
    forall tag ensures IsLive(pushed, i, TagsOf(i, |pushed[i]|), tag) <==> IsLive(pushed, i + 1, {}, tag) {
      LiveAgain(pushed, i, tag);
    }
    forall tag | tag in h'.state
      ensures var t := pushed[tag.group][tag.index];
        if StillOut(h'.plan, i, tag.group) then Backed(h', tag, t)
        else h'.state[tag].Device? && SameValue(h'.state[tag].tensor, t)
    {
      assert tag in h.state && IsLive(pushed, i + 1, {}, tag);
    }
  }

  /** Seen from group `i`, everything of group `i` is still to be popped. */
  lemma LiveAgain(pushed: seq<seq<Tensor>>, i: int, tag: Tag)
    requires 0 <= i < |pushed|
    ensures IsLive(pushed, i, TagsOf(i, |pushed[i]|), tag) <==> IsLive(pushed, i + 1, {}, tag)
  {
  }

  lemma QuietState(h: Handler, h': Handler, pushed: seq<seq<Tensor>>, i: int)
    requires BackState(h, pushed, i + 1, {}) && 0 <= i < |pushed|
    requires forall g :: Waiting(h.plan, i, g) <==> Waiting(h.plan, i + 1, g)
    requires h'.state == h.state && h'.hosts == h.hosts && h'.plan == h.plan
    ensures BackState(h', pushed, i, TagsOf(i, |pushed[i]|))
  {
    forall tag ensures IsLive(pushed, i, TagsOf(i, |pushed[i]|), tag) <==> IsLive(pushed, i + 1, {}, tag) {
      LiveAgain(pushed, i, tag);
    }
    forall tag | tag in h'.state
      ensures var t := pushed[tag.group][tag.index];
        if StillOut(h'.plan, i, tag.group) then Backed(h', tag, t)
        else h'.state[tag].Device? && SameValue(h'.state[tag].tensor, t)
    {
      assert tag in h.state;
    }
  }

  lemma QuietBuf(h: Handler, h': Handler, pushed: seq<seq<Tensor>>, i: int)
    requires BackBuf(h, pushed, i + 1, {}) && 0 <= i < |pushed| && h'.buf == h.buf && h'.plan == h.plan
    ensures BackBuf(h', pushed, i, TagsOf(i, |pushed[i]|))
  {
    forall tag ensures IsLive(pushed, i, TagsOf(i, |pushed[i]|), tag) <==> IsLive(pushed, i + 1, {}, tag) {
      LiveAgain(pushed, i, tag);
    }
  }

  lemma BackStateAlike(h: Handler, h': Handler, pushed: seq<seq<Tensor>>, i: int, rest: set<Tag>)
    requires BackState(h, pushed, i, rest) && h'.state == h.state && h'.hosts == h.hosts && h'.plan == h.plan
    ensures BackState(h', pushed, i, rest)
  {
    forall tag | tag in h'.state
      ensures var t := pushed[tag.group][tag.index];
        if StillOut(h'.plan, i, tag.group) then Backed(h', tag, t)
        else h'.state[tag].Device? && SameValue(h'.state[tag].tensor, t)
    {
      assert tag in h.state;
    }
  }

  lemma CanReloadAlike(h: Handler, h': Handler, g: int)
    requires CanReload(h, g) && h'.state == h.state && h'.hosts == h.hosts && h'.plan == h.plan
    ensures CanReload(h', g)
  {
  }

  /** Only what the commit has just begun to reload is in transit after it. */
  lemma TransitAfter(h: Handler, i: int, g: int)
    requires GoodWindow(h.plan) && g in h.plan.window && h.plan.window[g] == i
    requires forall tag :: tag in h.h2d ==> i > 0 && tag.group == g && (h.plan.offload < h.plan.layers || g == 0)
    ensures TransitInv(h, i)
  {
  }

  lemma TransitStays(h: Handler, h': Handler, i: int)
    requires TransitInv(h, i + 1) && h'.plan == h.plan
    requires forall g :: g in h.plan.window ==> h.plan.window[g] != i
    requires h'.h2d == if i == 0 then {} else h.h2d
    ensures TransitInv(h', i)
  {
  }

  lemma CountAfter(h: Handler, i: int, addr: map<Key, nat>)
    requires GoodWindow(h.plan) && 0 <= i && BackCount(h.plan, i + 1, h.offloaded) && h.current == i + 1
    requires CanCommitBackward(h)
    ensures BackCount(h.plan, i, Backward(h, addr).offloaded)
  {
  }

  /** The group whose window ends with layer `i`. */
  lemma DueGroup(h: Handler, pushed: seq<seq<Tensor>>, i: int)
    requires BackwardInv(h, pushed, i + 1, {}) && 0 <= i && DueBackward(h)
    ensures h.current == i + 1 && i < |pushed| && BackState(h, pushed, i + 1, {})
    ensures var g := h.offloaded - 1;
      && GoodWindow(h.plan) && g in h.plan.window && h.plan.window[g] == i
      && Waiting(h.plan, i + 1, g) && !Waiting(h.plan, i, g)
      && forall g' :: g' != g ==> (Waiting(h.plan, i, g') <==> Waiting(h.plan, i + 1, g'))
  {
    hide BackState, BackBuf, TransitInv;
    DueReload(h.plan, i, h.offloaded);
  }

  /** What a commit with a due reload starts from and ends with. */
  lemma BackwardReloads(h: Handler, i: int, addr: map<Key, nat>)
    requires CanCommitBackward(h) && DueBackward(h) && h.current == i + 1
    ensures var down := WaitH2D(h.(current := i)); var r := Reloaded(down, h.offloaded - 1, addr);
      var h' := Backward(h, addr);
      && h'.state == r.state && h'.hosts == r.hosts && h'.plan == r.plan == h.plan
      && h'.h2d == if i == 0 then {} else r.h2d
  {
  }

  lemma WaitedAlike(h: Handler, i: int)
    ensures var down := WaitH2D(h.(current := i));
      down.state == h.state && down.hosts == h.hosts && down.plan == h.plan && down.h2d == {}
  {
  }

  lemma BackwardDue(h: Handler, pushed: seq<seq<Tensor>>, i: int, addr: map<Key, nat>)
    requires BackwardInv(h, pushed, i + 1, {}) && 0 <= i && DueBackward(h)
    ensures CanCommitBackward(h)
    ensures BackState(Backward(h, addr), pushed, i, TagsOf(i, |pushed[i]|)) && TransitInv(Backward(h, addr), i)
  {
    DueGroup(h, pushed, i);
    var g, down := h.offloaded - 1, WaitH2D(h.(current := i));
    WaitedAlike(h, i);
    hide BackwardInv, BackState, GoodWindow, Waiting, CanReload, Reloaded, WaitH2D, Backward, TransitInv;
    BackStateAlike(h, down, pushed, i + 1, {});
    ReloadState(down, pushed, i, g, addr);
    CanReloadAlike(down, h, g);
    BackwardReloads(h, i, addr);
    BackStateAlike(Reloaded(down, g, addr), Backward(h, addr), pushed, i, TagsOf(i, |pushed[i]|));
    TransitAfter(Backward(h, addr), i, g);
  }

  /** A backward commit succeeds and keeps the invariant. */
  lemma BackwardKeepsInv(h: Handler, pushed: seq<seq<Tensor>>, i: int, addr: map<Key, nat>)
    requires BackwardInv(h, pushed, i + 1, {}) && 0 <= i
    ensures CanCommitBackward(h)
    ensures BackwardInv(Backward(h, addr), pushed, i, TagsOf(i, |pushed[i]|))
  {
    hide BackState, BackBuf, GoodWindow, Waiting, CanReload, TransitInv, BackCount, Recovered;
    DueReload(h.plan, i, h.offloaded);
    if DueBackward(h) {
      BackwardDue(h, pushed, i, addr);
    } else {
      QuietState(h, Backward(h, addr), pushed, i);
      TransitStays(h, Backward(h, addr), i);
    }
    QuietBuf(h, Backward(h, addr), pushed, i);
    CountAfter(h, i, addr);
  }

  // ----- Pops -----

  /** A pop succeeds, returns the value pushed under that tag, and its reload is no longer in transit. */
  lemma PopReturnsPushed(h: Handler, pushed: seq<seq<Tensor>>, i: int, rest: set<Tag>, tag: Tag)
    requires BackwardInv(h, pushed, i, rest) && tag in rest
    ensures CanPop(h, tag) && 0 <= tag.group < |pushed| && tag.index < |pushed[tag.group]|
    ensures SameValue(h.state[tag].tensor, pushed[tag.group][tag.index])
    ensures tag !in h.h2d
  {
    assert IsLive(pushed, i, rest, tag);
    assert !Waiting(h.plan, i, tag.group);
  }

  lemma PopState(h: Handler, pushed: seq<seq<Tensor>>, i: int, rest: set<Tag>, tag: Tag)
    requires BackState(h, pushed, i, rest) && tag in rest && tag.group == i
    ensures BackState(Popped(h, tag), pushed, i, rest - {tag})
  {
    var h' := Popped(h, tag);
    forall t | t in h'.state
      ensures IsLive(pushed, i, rest - {tag}, t)
      ensures var v := pushed[t.group][t.index];
        if StillOut(h'.plan, i, t.group) then Backed(h', t, v)
        else h'.state[t].Device? && SameValue(h'.state[t].tensor, v)
    {
      assert t in h.state && IsLive(pushed, i, rest, t);
    }
    forall t | IsLive(pushed, i, rest - {tag}, t) ensures t in h'.state {
      assert IsLive(pushed, i, rest, t);
    }
  }

  lemma PopBuf(h: Handler, pushed: seq<seq<Tensor>>, i: int, rest: set<Tag>, tag: Tag)
    requires BackBuf(h, pushed, i, rest) && tag in rest && tag.group == i
    ensures BackBuf(Popped(h, tag), pushed, i, rest - {tag})
  {
    forall t ensures IsLive(pushed, i, rest - {tag}, t) <==> IsLive(pushed, i, rest, t) && t != tag {
    }
  }

  lemma PopKeepsInv(h: Handler, pushed: seq<seq<Tensor>>, i: int, rest: set<Tag>, tag: Tag)
    requires BackwardInv(h, pushed, i, rest) && tag in rest
    ensures BackwardInv(Popped(h, tag), pushed, i, rest - {tag})
  {
    hide GoodWindow, BackState, BackBuf, BackCount;
    PopState(h, pushed, i, rest, tag);
    PopBuf(h, pushed, i, rest, tag);
  }

  /** After the last pop of a round the handler is as constructed. */
  lemma RoundRestores(h: Handler, pushed: seq<seq<Tensor>>)
    requires BackwardInv(h, pushed, 0, {})
    requires h.plan == Fresh(h.plan.layers, h.plan.offload).plan
    ensures h == Fresh(h.plan.layers, h.plan.offload)
  {
    forall tag ensures tag !in h.state && tag !in h.buf {
      assert !IsLive(pushed, 0, {}, tag);
    }
    forall g ensures g !in h.hosts {
      assert !Waiting(h.plan, 0, g);
    }
    assert h.state == map[] && h.buf == map[] && h.hosts == map[];
    forall tag ensures tag !in h.h2d {
    }
    assert h.h2d == {};
  }

  // ----- Runs -----

  ghost predicate Inv(h: Handler, layers: int, offload: int, p: Phase) {
    && 1 <= offload <= layers && h.plan == Fresh(layers, offload).plan
    && match p
       case Pushing(done, open) => ForwardInv(h, done, open)
       case Popping(pushed, group, rest) => BackwardInv(h, pushed, group, rest)
  }

  lemma SettleKeepsInv(h: Handler, layers: int, offload: int, p: Phase)
    requires Inv(h, layers, offload, p)
    ensures Inv(h, layers, offload, Settle(p))
    ensures p.Popping? && Settle(p).Pushing? ==> h == Fresh(layers, offload)
  {
    if p.Popping? && p.group == 0 && p.rest == {} {
      RoundRestores(h, p.pushed);
      FreshInv(layers, offload);
    }
  }

  /** The event is the last one of a round. */
  ghost predicate EndsRound(layers: int, p: Phase, e: Event) {
    Legal(layers, p, e) && (e.Pop? || e.CommitBackward?) && Next(layers, p, e).Pushing?
  }

  /** Every legal event succeeds and keeps the invariant. */
  lemma StepKeepsInv(h: Handler, layers: int, offload: int, p: Phase, e: Event)
    requires Inv(h, layers, offload, p) && Legal(layers, p, e) && Chosen(h, e)
    ensures Can(h, e)
    ensures Inv(Do(h, e), layers, offload, Next(layers, p, e))
    ensures EndsRound(layers, p, e) ==> Do(h, e) == Fresh(layers, offload)
  {
    hide ForwardInv, BackwardInv, CanPush, CanPop, CanCommitForward, CanCommitBackward, ForwardSources,
         Pushed, Popped, Forward, Backward, KeysConsistent;
    match e
    case Push(t) =>
      CurrentIs(h, p.done, p.open);
      PushKeepsInv(h, p.done, p.open, t);
      PlanStays(h, e);
    case CommitForward(src0, src1) =>
      CurrentIs(h, p.done, p.open);
      ForwardKeepsInv(h, p.done, p.open, src0, src1);
      PlanStays(h, e);
    case CommitBackward(addr) =>
      var pushed := if p.Pushing? then p.done else p.pushed;
      var i := if p.Pushing? then |p.done| - 1 else p.group - 1;
      if p.Pushing? {
        CurrentIs(h, p.done, p.open);
        TurnAround(h, p.done);
      }
      BackwardKeepsInv(h, pushed, i, addr);
      PlanStays(h, e);
      SettleKeepsInv(Do(h, e), layers, offload, Popping(pushed, i, TagsOf(i, |pushed[i]|)));
    case Pop(tag) =>
      PopReturnsPushed(h, p.pushed, p.group, p.rest, tag);
      PopKeepsInv(h, p.pushed, p.group, p.rest, tag);
      PlanStays(h, e);
      SettleKeepsInv(Do(h, e), layers, offload, p.(rest := p.rest - {tag}));
  }

  lemma CurrentIs(h: Handler, done: seq<seq<Tensor>>, open: seq<Tensor>)
    requires ForwardInv(h, done, open)
    ensures |done| == h.plan.layers ==> open == []
    ensures |done| <= h.plan.layers
  {
  }

  lemma PlanStays(h: Handler, e: Event)
    requires Can(h, e)
    ensures Do(h, e).plan == h.plan
  {
  }

  /** A run of any number of rounds, the last of which may be unfinished. */
  ghost predicate IsRun(layers: int, offload: int, hs: seq<Handler>, ps: seq<Phase>, es: seq<Event>) {
    && 1 <= offload <= layers
    && |hs| == |ps| == |es| + 1
    && hs[0] == Fresh(layers, offload) && ps[0] == Pushing([], [])
    && forall t :: 0 <= t < |es| ==>
      && Legal(layers, ps[t], es[t]) && Chosen(hs[t], es[t])
      && ps[t + 1] == Next(layers, ps[t], es[t])
      && (Can(hs[t], es[t]) ==> hs[t + 1] == Do(hs[t], es[t]))
  }

  lemma {:induction false} RunInv(layers: int, offload: int, hs: seq<Handler>, ps: seq<Phase>, es: seq<Event>, t: nat)
    requires IsRun(layers, offload, hs, ps, es) && t < |hs|
    ensures Inv(hs[t], layers, offload, ps[t])
  {
    if t == 0 {
      FreshInv(layers, offload);
    } else {
      RunInv(layers, offload, hs, ps, es, t - 1);
      hide Inv, Can, Chosen, Legal;
      StepKeepsInv(hs[t - 1], layers, offload, ps[t - 1], es[t - 1]);
    }
  }

  /** Transparency: nothing fails, every pop returns the pushed value, every round ends in the initial state. */
  lemma Transparency(layers: int, offload: int, hs: seq<Handler>, ps: seq<Phase>, es: seq<Event>, t: nat)
    requires IsRun(layers, offload, hs, ps, es) && t < |es|
    ensures Can(hs[t], es[t])
    ensures es[t].Pop? ==> var tag := es[t].tag;
      && tag in hs[t].state && hs[t].state[tag].Device?
      && ps[t].Popping? && 0 <= tag.group < |ps[t].pushed| && tag.index < |ps[t].pushed[tag.group]|
      && SameValue(hs[t].state[tag].tensor, ps[t].pushed[tag.group][tag.index])
    ensures EndsRound(layers, ps[t], es[t]) ==> hs[t + 1] == Fresh(layers, offload)
  {
    hide ForwardInv, BackwardInv;
    RunInv(layers, offload, hs, ps, es, t);
    StepKeepsInv(hs[t], layers, offload, ps[t], es[t]);
    if es[t].Pop? {
      PopReturnsPushed(hs[t], ps[t].pushed, ps[t].group, ps[t].rest, es[t].tag);
    }
  }

  /**
   * Stream ordering: a copied tensor never loses its last reference before the compute stream has waited for the
   * copy, not even between the statements of a commit; nothing is popped before its reload was waited for; and
   * no reload starts while a copy to the host is pending.
   */
  lemma StreamOrdering(layers: int, offload: int, hs: seq<Handler>, ps: seq<Phase>, es: seq<Event>, t: nat)
    requires IsRun(layers, offload, hs, ps, es) && t < |es|
    ensures NoDanglingCopy(hs[t]) && NoDanglingCopy(hs[t + 1])
    ensures es[t].CommitForward? ==> var f := Forward(hs[t], es[t].src0, es[t].src1);
      NoDanglingCopy(f.first) && NoDanglingCopy(f.waited) && NoDanglingCopy(f.dropped) && NoDanglingCopy(f.last)
    ensures es[t].Pop? ==> es[t].tag !in hs[t].h2d
    ensures es[t].CommitBackward? ==> hs[t].d2h == {}
  {
    hide StateInv, BufInv, BackState, BackBuf, TransitInv, GoodWindow;
    RunInv(layers, offload, hs, ps, es, t);
    RunInv(layers, offload, hs, ps, es, t + 1);
    var h, p := hs[t], ps[t];
    if es[t].CommitForward? {
      NoEarlyDrop(h, p.done, p.open, es[t].src0, es[t].src1);
    } else if es[t].Pop? {
      PopReturnsPushed(h, p.pushed, p.group, p.rest, es[t].tag);
    } else if es[t].CommitBackward? && p.Pushing? {
      CurrentIs(h, p.done, p.open);
      TurnAround(h, p.done);
    }
  }
}
