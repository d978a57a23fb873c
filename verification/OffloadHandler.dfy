/** The handler object itself: its methods, proved to do to their fields what module Offload says. */
module OffloadHandler {
  import opened Options
  import opened Offload
  import Weights

  /** What `tensor_push` returns: a tag, or the tensor itself if it is not to be offloaded. */
  datatype Ticket = Tagged(tag: Tag) | Untouched(tensor: Tensor)

  class AsyncDoubleBufferGroupOffloadHandler {
    const numOffloadGroup: int
    const numLayers: int
    var currentGroup: int
    var tensorCountCurrentGroup: nat
    var tensorTagToState: map<Tag, Entry>
    var tensorTagToBuf: map<Tag, Option<Tensor>>
    var offloadedGroupCount: int
    var layerWindowMap: map<int, int>
    var groupOffloadMapping: map<int, map<Key, Backup>>
    ghost var d2h: set<Tensor>
    ghost var h2d: set<Tag>

    ghost function View(): Handler
      reads this
    {
      Handler(Plan(numLayers, numOffloadGroup, layerWindowMap), currentGroup, tensorCountCurrentGroup,
              offloadedGroupCount, tensorTagToState, tensorTagToBuf, groupOffloadMapping, d2h, h2d)
    }

    constructor (numOffloadGroup: int, numModelGroup: int)
      ensures View() == Fresh(numModelGroup, numOffloadGroup)
    {
      this.numOffloadGroup, this.numLayers := numOffloadGroup, numModelGroup;
      currentGroup, tensorCountCurrentGroup, offloadedGroupCount := 0, 0, 0;
      tensorTagToState, tensorTagToBuf, groupOffloadMapping, layerWindowMap := map[], map[], map[], map[];
      d2h, h2d := {}, {};
      new;
      layerWindowMap := SpreadWindows(numOffloadGroup, numModelGroup);
    }

    /** The loop of the constructor that spreads the offloads over the layers. */
    static method SpreadWindows(numOffloadGroup: int, numLayers: int) returns (windows: map<int, int>)
      ensures windows == WindowMap(numLayers, numOffloadGroup)
    {
      windows := map[];
      var constant, i := 0, 0;
      while i < numOffloadGroup
        invariant 0 <= i && (0 < numOffloadGroup ==> i <= numOffloadGroup)
        invariant 0 < numOffloadGroup ==>
          constant == if i <= numLayers % numOffloadGroup then i else numLayers % numOffloadGroup
        invariant forall j :: j in windows <==> 0 <= j < i && j < numOffloadGroup
        invariant forall j :: j in windows ==> windows[j] == Window(numLayers, numOffloadGroup, j)
      {
        var w := (numLayers / numOffloadGroup) * (i + 1) - 1;
        if i < numLayers % numOffloadGroup {
          w := w + (i + 1);
          constant := i + 1;
        } else {
          w := w + constant;
        }
        windows := windows[i := w];
        i := i + 1;
      }
    }

    method TensorPush(tensor: Tensor, needOffload: bool) returns (ticket: Ticket, ok: bool)
      modifies this
      ensures !needOffload ==> ok && ticket == Untouched(tensor) && View() == old(View())
      ensures needOffload ==> (ok <==> CanPush(old(View())))
      ensures needOffload && ok ==>
        ticket == Tagged(Tag(old(currentGroup), old(tensorCountCurrentGroup))) && View() == Pushed(old(View()), tensor)
    {
      ok := true;
      if needOffload {
        var tag := Tag(currentGroup, tensorCountCurrentGroup);
        ticket := Tagged(tag);
        tensorCountCurrentGroup := tensorCountCurrentGroup + 1;
        if tag in tensorTagToState {
          ok := false;
          return;
        }
        tensorTagToState := tensorTagToState[tag := Device(tensor)];
        if currentGroup < numOffloadGroup {
          tensorTagToBuf := tensorTagToBuf[tag := Some(tensor)];
        }
      } else {
        ticket := Untouched(tensor);
      }
    }

    method TensorPop(ticket: Ticket) returns (tensor: Option<Tensor>)
      modifies this
      ensures ticket.Untouched? ==> tensor == Some(ticket.tensor) && View() == old(View())
      ensures ticket.Tagged? ==> (tensor.Some? <==> CanPop(old(View()), ticket.tag))
      ensures ticket.Tagged? && tensor.Some? ==>
        old(View()).state[ticket.tag] == Device(tensor.value) && View() == Popped(old(View()), ticket.tag)
    {
      if ticket.Untouched? {
        return Some(ticket.tensor);
      }
      var tag := ticket.tag;
      if tag !in tensorTagToState {
        return None;
      }
      var entry := tensorTagToState[tag];
      tensorTagToState := tensorTagToState - {tag};
      tensorTagToBuf := tensorTagToBuf - {tag};
      match entry
      case Device(t) => tensor := Some(t);
      case Host(_, _) => tensor := None;
    }

    /** The host copies of the chosen tensors. */
    method CopyToHost(sources: map<Key, Tensor>) returns (mapping: map<Key, Backup>)
      ensures mapping == map k | k in sources :: BackupOf(sources[k])
    {
      mapping := map[];
      var todo := sources.Keys;
      while todo != {}
        invariant todo <= sources.Keys
        invariant mapping == map k | k in sources && k !in todo :: BackupOf(sources[k])
        decreases |todo|
      {
        var k :| k in todo;
        mapping := mapping[k := BackupOf(sources[k])];
        todo := todo - {k};
      }
    }

    /** The tags seen so far, as the loop over the dictionary leaves them and as it found them. */
    static ghost predicate Seen(was: map<Tag, Entry>, now: map<Tag, Entry>, g: int, todo: set<Tag>, src: map<Key, Tensor>) {
      && todo <= was.Keys
      && now == (map tag | tag in was :: if tag.group == g && tag !in todo then ToHost(was[tag]) else was[tag])
      && (forall tag :: tag in was && tag.group == g && tag !in todo ==>
            was[tag].Device? && KeyOf(was[tag].tensor) in src)
      && (forall k :: k in src ==> KeyOf(src[k]) == k && FromGroup(was, g, src[k]))
    }

    static ghost predicate FromGroup(was: map<Tag, Entry>, g: int, t: Tensor) {
      exists tag :: tag in was && tag.group == g && was[tag] == Device(t)
    }

    /** The loop over `tensor_tag_to_state`: it leaves tuples for the tags of group `g` and collects their tensors. */
    static method MarkGroup(was: map<Tag, Entry>, g: int) returns (ok: bool, now: map<Tag, Entry>, src: map<Key, Tensor>)
      ensures ok <==> forall tag :: tag in was && tag.group == g ==> was[tag].Device?
      ensures ok ==> Seen(was, now, g, {}, src)
    {
      ok, now, src := true, was, map[];
      var todo := was.Keys;
      while todo != {}
        invariant ok && Seen(was, now, g, todo, src)
        decreases |todo|
      {
        var tag :| tag in todo;
        assert now[tag] == was[tag];
        SeenNext(was, now, g, todo, src, tag);
        if tag.group == g {
          match now[tag]
          case Host(_, _) =>
            ok := false;
            return;
          case Device(t) =>
            var key := KeyOf(t);
            if key !in src {
              src := src[key := t];
            }
            now := now[tag := Host(key, t.shape)];
        }
        todo := todo - {tag};
      }
    }

    static lemma SeenNext(was: map<Tag, Entry>, now: map<Tag, Entry>, g: int, todo: set<Tag>, src: map<Key, Tensor>, tag: Tag)
      requires Seen(was, now, g, todo, src) && tag in todo
      ensures tag.group != g ==> Seen(was, now, g, todo - {tag}, src)
      ensures tag.group == g && was[tag].Device? ==>
        var (t, key) := (was[tag].tensor, KeyOf(was[tag].tensor));
        Seen(was, now[tag := Host(key, t.shape)], g, todo - {tag}, if key in src then src else src[key := t])
    {
      if tag.group == g && was[tag].Device? {
        assert FromGroup(was, g, was[tag].tensor);
      }
      hide FromGroup;
    }

    method BulkOffloadGroup(groupToOffload: int) returns (ok: bool, ghost src: map<Key, Tensor>)
      modifies `tensorTagToState, `groupOffloadMapping, `d2h
      ensures ok <==> CanOffload(old(View()), groupToOffload)
      ensures ok ==> Sources(old(View()), groupToOffload, src) && View() == Offloaded(old(View()), groupToOffload, src)
    {
      var state, sources;
      ok, state, sources := MarkGroup(tensorTagToState, groupToOffload);
      src := sources;
      if ok {
        SeenSources(View(), state, groupToOffload, sources);
        var mapping := CopyToHost(sources);
        tensorTagToState := state;
        d2h := d2h + src.Values;
        groupOffloadMapping := groupOffloadMapping[groupToOffload := mapping];
      }
    }

    static lemma SeenSources(h: Handler, now: map<Tag, Entry>, g: int, src: map<Key, Tensor>)
      requires Seen(h.state, now, g, {}, src)
      ensures Sources(h, g, src) && now == Offloaded(h, g, src).state
    {
      forall k | k in src ensures InGroup(h, g, src[k]) {
        assert FromGroup(h.state, g, src[k]);
      }
    }

    /** Drops the references to the device tensors of group `g`; none of them may still be read by a copy. */
    method FreeBuffers(g: int)
      requires forall tag :: tag in tensorTagToBuf && tag.group == g && tensorTagToBuf[tag].Some? ==>
        tensorTagToBuf[tag].value !in d2h
      modifies `tensorTagToBuf
      ensures View() == Dropped(old(View()), g)
    {
      var todo := tensorTagToBuf.Keys;
      while todo != {}
        invariant tensorTagToBuf == Freed(old(tensorTagToBuf), g, todo)
        decreases |todo|
      {
        var tag :| tag in todo;
        FreedNext(old(tensorTagToBuf), g, todo, tag);
        if tag.group == g && tag in tensorTagToBuf {
          tensorTagToBuf := tensorTagToBuf[tag := None];
        }
        todo := todo - {tag};
      }
    }

    /** The references of group `g` dropped, but for the tags in `todo`. */
    static ghost function Freed(was: map<Tag, Option<Tensor>>, g: int, todo: set<Tag>): map<Tag, Option<Tensor>> {
      map tag | tag in was :: if tag.group == g && tag !in todo then None else was[tag]
    }

    static lemma FreedNext(was: map<Tag, Option<Tensor>>, g: int, todo: set<Tag>, tag: Tag)
      ensures Freed(was, g, todo - {tag})
           == if tag.group == g && tag in was then Freed(was, g, todo)[tag := None] else Freed(was, g, todo)
      ensures Freed(was, g, todo).Keys == was.Keys
    {
    }

    method OnGroupCommitForward() returns (ok: bool, ghost src0: map<Key, Tensor>, ghost src1: map<Key, Tensor>)
      modifies this
      ensures ok <==> CanCommitForward(old(View()))
      ensures ok ==> ForwardSources(old(View()), src0, src1)
      ensures ok ==> View() == NextGroup(Forward(old(View()), src0, src1).last)
    {
      ok, src0, src1 := SynchronizeOnGroupCommitForward();
      if ok {
        currentGroup := currentGroup + 1;
        tensorCountCurrentGroup := 0;
      }
    }

    method SynchronizeOnGroupCommitForward()
      returns (ok: bool, ghost src0: map<Key, Tensor>, ghost src1: map<Key, Tensor>)
      modifies this
      ensures ok <==> CanCommitForward(old(View()))
      ensures ok ==> ForwardSources(old(View()), src0, src1) && View() == Forward(old(View()), src0, src1).last
    {
      hide Offloaded, Sources, CanOffload, Dropped;
      ghost var h := View();
      ok, src0, src1 := true, map[], map[];
      if currentGroup == 0 {
        ok, src0 := BulkOffloadGroup(0);
        if !ok {
          return;
        }
      }
      assert View() == KickStarted(h, src0);
      KickStateUnchanged(h, src0);
      if offloadedGroupCount !in layerWindowMap {
        ok := false;
        return;
      }
      if layerWindowMap[offloadedGroupCount] == currentGroup {
        ok, src1 := AwaitOldestOffload(h, src0);
      }
    }

    /** The body of the window test: wait for the copies, free their sources, start the next offload. */
    method AwaitOldestOffload(ghost h: Handler, ghost src0: map<Key, Tensor>) returns (ok: bool, ghost src1: map<Key, Tensor>)
      requires View() == KickStarted(h, src0) && DueForward(h)
      modifies this
      ensures ok <==> (h.offloaded < h.plan.offload - 1 ==> CanOffload(KickStarted(h, map[]), h.offloaded + 1))
      ensures ok && h.offloaded < h.plan.offload - 1 ==> Sources(KickStarted(h, src0), h.offloaded + 1, src1)
      ensures ok ==> View() == Forward(h, src0, src1).last
    {
      hide Offloaded, KickStarted, Sources, CanOffload;
      ghost var first := View();
      KickStateUnchanged(h, src0);
      KickKeepsPlan(h, src0);
      ok, src1 := true, map[];
      d2h := {};
      FreeBuffers(offloadedGroupCount);
      ghost var dropped := View();
      assert dropped == Dropped(WaitD2H(first), h.offloaded);
      if offloadedGroupCount < numOffloadGroup - 1 {
        ok, src1 := BulkOffloadGroup(offloadedGroupCount + 1);
        CanOffloadUnchanged(dropped, KickStarted(h, map[]), h.offloaded + 1);
        if !ok {
          return;
        }
        SourcesUnchanged(dropped, first, h.offloaded + 1, src1);
        OffloadKeepsCount(dropped, h.offloaded + 1, src1);
      }
      offloadedGroupCount := offloadedGroupCount + 1;
    }

    static lemma OffloadKeepsCount(h: Handler, g: int, src: map<Key, Tensor>)
      ensures Offloaded(h, g, src).offloaded == h.offloaded
    {
    }

    /** Where the allocator puts the reloaded copies. */
    method Allocate(mapping: map<Key, Backup>) returns (addr: map<Key, nat>)
      ensures addr.Keys == mapping.Keys
    {
      addr := map[];
      var todo := mapping.Keys;
      while todo != {}
        invariant todo <= mapping.Keys && addr.Keys == mapping.Keys - todo
        decreases |todo|
      {
        var k :| k in todo;
        var a: nat := *;
        addr := addr[k := a];
        todo := todo - {k};
      }
    }

    static predicate Recoverable(e: Entry, mapping: map<Key, Backup>) {
      e.Host? ==> e.key in mapping && Weights.Numel(e.shape) == |mapping[e.key].elems|
    }

    /** The dictionary after the tags outside `todo` were handled. */
    static function Halfway(was: map<Tag, Entry>, g: int, mapping: map<Key, Backup>, addr: map<Key, nat>, todo: set<Tag>)
      : map<Tag, Entry>
    {
      map tag | tag in was :: if tag.group == g && tag !in todo then Recovered(was[tag], mapping, addr) else was[tag]
    }

    static lemma HalfwayNext(was: map<Tag, Entry>, g: int, mapping: map<Key, Backup>, addr: map<Key, nat>, todo: set<Tag>, tag: Tag)
      requires tag in todo && todo <= was.Keys
      ensures tag in Halfway(was, g, mapping, addr, todo) && Halfway(was, g, mapping, addr, todo)[tag] == was[tag]
      ensures Halfway(was, g, mapping, addr, todo - {tag})
        == if tag.group == g && was[tag].Host? then Halfway(was, g, mapping, addr, todo)[tag := Recovered(was[tag], mapping, addr)]
           else Halfway(was, g, mapping, addr, todo)
    {
      assert was[tag].Device? ==> Recovered(was[tag], mapping, addr) == was[tag];
      hide Recovered;
    }

    static lemma HalfwayEnds(was: map<Tag, Entry>, g: int, mapping: map<Key, Backup>, addr: map<Key, nat>)
      ensures Halfway(was, g, mapping, addr, was.Keys) == was
      ensures Halfway(was, g, mapping, addr, {})
        == map tag | tag in was :: if tag.group == g then Recovered(was[tag], mapping, addr) else was[tag]
    {
      hide Recovered;
    }

    /** The loop over `tensor_tag_to_state`: the tuples of group `g` become views of the reloaded copies. */
    static method RecoverGroup(was: map<Tag, Entry>, g: int, mapping: map<Key, Backup>, addr: map<Key, nat>)
      returns (ok: bool, now: map<Tag, Entry>)
      requires addr.Keys == mapping.Keys
      ensures ok <==> forall tag :: tag in was && tag.group == g ==> Recoverable(was[tag], mapping)
      ensures ok ==> now == map tag | tag in was :: if tag.group == g then Recovered(was[tag], mapping, addr) else was[tag]
    {
      ok, now := true, was;
      var todo := was.Keys;
      hide Halfway;
      HalfwayEnds(was, g, mapping, addr);
      while todo != {}
        invariant ok && todo <= was.Keys
        invariant forall tag :: tag in was && tag.group == g && tag !in todo ==> Recoverable(was[tag], mapping)
        invariant now == Halfway(was, g, mapping, addr, todo)
        decreases |todo|
      {
        var tag :| tag in todo;
        HalfwayNext(was, g, mapping, addr, todo, tag);
        if tag.group == g && now[tag].Host? {
          var Host(key, shape) := now[tag];
          if key !in mapping || Weights.Numel(shape) != |mapping[key].elems| {
            assert !Recoverable(was[tag], mapping);
            ok := false;
            return;
          }
          now := now[tag := Device(Activation(addr[key], mapping[key].dtype, shape, mapping[key].elems))];
        }
        todo := todo - {tag};
      }
    }

    method BulkReloadGroup(groupToReload: int) returns (ok: bool, ghost addr: map<Key, nat>)
      modifies `tensorTagToState, `groupOffloadMapping, `h2d
      ensures ok <==> CanReload(old(View()), groupToReload)
      ensures ok ==> View() == Reloaded(old(View()), groupToReload, addr)
    {
      addr := map[];
      if groupToReload >= numOffloadGroup || groupToReload !in groupOffloadMapping {
        return false, addr;
      }
      ghost var h := View();
      var mapping := groupOffloadMapping[groupToReload];
      groupOffloadMapping := groupOffloadMapping - {groupToReload};
      var a := Allocate(mapping);
      addr := a;
      var state;
      ok, state := RecoverGroup(tensorTagToState, groupToReload, mapping, a);
      RecoverableIsCanReload(h, groupToReload);
      if ok {
        h2d := h2d + set tag | tag in tensorTagToState && tag.group == groupToReload && tensorTagToState[tag].Host?;
        tensorTagToState := state;
      }
    }

    static lemma RecoverableIsCanReload(h: Handler, g: int)
      requires g < h.plan.offload && g in h.hosts
      ensures CanReload(h, g) <==> forall tag :: tag in h.state && tag.group == g ==> Recoverable(h.state[tag], h.hosts[g])
    {
    }

    method OnGroupCommitBackward() returns (ok: bool, ghost addr: map<Key, nat>)
      modifies this
      ensures ok <==> CanCommitBackward(old(View()))
      ensures ok ==> View() == Backward(old(View()), addr)
    {
      ghost var h := View();
      ok, addr := true, map[];
      currentGroup := currentGroup - 1;
      if currentGroup < 0 || offloadedGroupCount - 1 !in layerWindowMap {
        ok := false;
        return;
      }
      if layerWindowMap[offloadedGroupCount - 1] == currentGroup {
        h2d := {};
        ghost var waited := View();
        ok, addr := BulkReloadGroup(offloadedGroupCount - 1);
        assert CanReload(waited, h.offloaded - 1) <==> CanReload(h, h.offloaded - 1);
        if !ok {
          return;
        }
        offloadedGroupCount := offloadedGroupCount - (if offloadedGroupCount > 1 then 1 else 0);
      }
      if currentGroup == 0 {
        h2d := {};
        offloadedGroupCount := 0;
      }
    }
  }
}
