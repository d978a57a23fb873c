/**
 * The asynchronous activation offload handler: its bookkeeping as a value, and what each operation does to it.
 * Copies on the side streams are sets of pending copies that a `wait_stream` of the compute stream empties.
 */
module Offload {
  import opened Options
  import Weights

  /** A device tensor; `addr` is `data_ptr() + storage_offset()`, `elems` its row-major elements. */
  datatype Activation = Activation(addr: nat, dtype: string, shape: seq<nat>, elems: seq<int>)

  type Tensor = t: Activation | |t.elems| == Weights.Numel(t.shape) witness Activation(0, "", [0], [])

  datatype Key = Key(addr: nat, dtype: string)

  /** `_get_unique_tensor_key` */
  function KeyOf(t: Tensor): Key { Key(t.addr, t.dtype) }

  predicate SameValue(a: Tensor, b: Tensor) {
    a.dtype == b.dtype && a.shape == b.shape && a.elems == b.elems
  }

  /**
   * The hypothesis of the handler: within a group, tensors with equal keys have the same elements. One copy is
   * kept per key, and every tensor with that key is a view of it.
   */
  ghost predicate KeysConsistent(group: seq<Tensor>) {
    forall i, j :: 0 <= i < |group| && 0 <= j < |group| && KeyOf(group[i]) == KeyOf(group[j]) ==>
      group[i].elems == group[j].elems
  }

  datatype Tag = Tag(group: int, index: nat)

  /** A value of `tensor_tag_to_state`: a tensor, or the tuple left behind by an offload. */
  datatype Entry = Device(tensor: Tensor) | Host(key: Key, shape: seq<nat>)

  /** A pinned host copy. */
  datatype Backup = Backup(shape: seq<nat>, dtype: string, elems: seq<int>)

  function BackupOf(t: Tensor): Backup { Backup(t.shape, t.dtype, t.elems) }

  /** What the constructor fixes: `num_layers`, `num_offload_group` and `layer_window_map`. */
  datatype Plan = Plan(layers: int, offload: int, window: map<int, int>)

  /**
   * `d2h` holds the device tensors that a pending
   * copy to the host still reads, `h2d` the tags whose reloaded tensor is still being written.
   */
  datatype Handler = Handler(
    plan: Plan,
    current: int, count: nat, offloaded: int,
    state: map<Tag, Entry>, buf: map<Tag, Option<Tensor>>, hosts: map<int, map<Key, Backup>>,
    d2h: set<Tensor>, h2d: set<Tag>)

  /** `layer_window_map[i]`: the group at whose commit the offload of group `i` is awaited. */
  function Window(layers: int, offload: int, i: int): int
    requires offload > 0
  {
    var (q, rem) := (layers / offload, layers % offload);
    q * (i + 1) - 1 + (if i + 1 <= rem then i + 1 else rem)
  }

  function WindowMap(layers: int, offload: int): map<int, int> {
    map i | 0 <= i < offload :: Window(layers, offload, i)
  }

  // ----- tensor_push, tensor_pop -----

  predicate CanPush(h: Handler) { Tag(h.current, h.count) !in h.state }

  function Pushed(h: Handler, t: Tensor): Handler {
    var tag := Tag(h.current, h.count);
    h.(count := h.count + 1, state := h.state[tag := Device(t)],
       buf := if h.current < h.plan.offload then h.buf[tag := Some(t)] else h.buf)
  }

  predicate CanPop(h: Handler, tag: Tag) { tag in h.state && h.state[tag].Device? }

  function Popped(h: Handler, tag: Tag): Handler {
    h.(state := h.state - {tag}, buf := h.buf - {tag})
  }

  // ----- bulk_offload_group -----

  ghost predicate CanOffload(h: Handler, g: int) {
    forall tag :: tag in h.state && tag.group == g ==> h.state[tag].Device?
  }

  /** `src` picks, for every key in the group, one tensor with that key: the one that is copied. */
  ghost predicate Sources(h: Handler, g: int, src: map<Key, Tensor>) {
    && (forall tag :: tag in h.state && tag.group == g && h.state[tag].Device? ==> KeyOf(h.state[tag].tensor) in src)
    && (forall k :: k in src ==> KeyOf(src[k]) == k && InGroup(h, g, src[k]))
  }

  ghost predicate InGroup(h: Handler, g: int, t: Tensor) {
    exists tag :: tag in h.state && tag.group == g && h.state[tag] == Device(t)
  }

  function ToHost(e: Entry): Entry {
    if e.Device? then Host(KeyOf(e.tensor), e.tensor.shape) else e
  }

  function Offloaded(h: Handler, g: int, src: map<Key, Tensor>): Handler {
    h.(state := map tag | tag in h.state :: if tag.group == g then ToHost(h.state[tag]) else h.state[tag],
       hosts := h.hosts[g := map k | k in src :: BackupOf(src[k])],
       d2h := h.d2h + src.Values)
  }

  // ----- on_group_commit_forward -----

  /** The compute stream waits for the device-to-host stream. */
  function WaitD2H(h: Handler): Handler { h.(d2h := {}) }

  /** The references to the device tensors of group `g` are dropped. */
  function Dropped(h: Handler, g: int): Handler {
    h.(buf := map tag | tag in h.buf :: if tag.group == g then None else h.buf[tag])
  }

  /** The commit of the current group is the one at which the oldest offload is awaited. */
  predicate DueForward(h: Handler) {
    h.offloaded in h.plan.window && h.plan.window[h.offloaded] == h.current
  }

  /** The first commit of a round starts the offload of group 0, with the copy sources `src`. */
  function KickStarted(h: Handler, src: map<Key, Tensor>): Handler {
    if h.current == 0 then Offloaded(h, 0, src) else h
  }

  /** The states a forward commit goes through; `src0` and `src1` are the sources of its offloads. */
  datatype ForwardSteps = ForwardSteps(first: Handler, waited: Handler, dropped: Handler, last: Handler)

  function Forward(h: Handler, src0: map<Key, Tensor>, src1: map<Key, Tensor>): ForwardSteps {
    var first := KickStarted(h, src0);
    if DueForward(h) then
      var waited := WaitD2H(first);
      var dropped := Dropped(waited, h.offloaded);
      var next := if h.offloaded < h.plan.offload - 1 then Offloaded(dropped, h.offloaded + 1, src1) else dropped;
      ForwardSteps(first, waited, dropped, next.(offloaded := h.offloaded + 1))
    else
      ForwardSteps(first, first, first, first)
  }

  ghost predicate ForwardSources(h: Handler, src0: map<Key, Tensor>, src1: map<Key, Tensor>) {
    && (h.current == 0 ==> Sources(h, 0, src0))
    && (DueForward(h) && h.offloaded < h.plan.offload - 1 ==> Sources(KickStarted(h, src0), h.offloaded + 1, src1))
  }

  /** Every assertion and dictionary lookup of the forward commit succeeds. */
  ghost predicate CanCommitForward(h: Handler) {
    && h.offloaded in h.plan.window
    && (h.current == 0 ==> CanOffload(h, 0))
    && (DueForward(h) && h.offloaded < h.plan.offload - 1 ==>
          CanOffload(KickStarted(h, map[]), h.offloaded + 1))
  }

  /** After the bookkeeping of the base class. */
  function NextGroup(h: Handler): Handler { h.(current := h.current + 1, count := 0) }

  lemma SourcesUnchanged(h: Handler, h': Handler, g: int, src: map<Key, Tensor>)
    requires Sources(h, g, src) && h'.state == h.state
    ensures Sources(h', g, src)
  {
    forall k | k in src ensures InGroup(h', g, src[k]) {
      assert InGroup(h, g, src[k]);
    }
  }

  lemma CanOffloadUnchanged(h: Handler, h': Handler, g: int)
    requires h'.state == h.state
    ensures CanOffload(h, g) <==> CanOffload(h', g)
  {
  }

  /** Which tags become tuples does not depend on the sources chosen. */
  lemma KickStateUnchanged(h: Handler, src: map<Key, Tensor>)
    ensures KickStarted(h, src).state == KickStarted(h, map[]).state
  {
  }

  lemma KickKeepsPlan(h: Handler, src: map<Key, Tensor>)
    ensures var k := KickStarted(h, src); k.plan == h.plan && k.offloaded == h.offloaded
  {
  }

  // ----- on_group_commit_backward -----

  /** The compute stream waits for the host-to-device stream. */
  function WaitH2D(h: Handler): Handler { h.(h2d := {}) }

  ghost predicate CanReload(h: Handler, g: int) {
    && g < h.plan.offload && g in h.hosts
    && forall tag :: tag in h.state && tag.group == g && h.state[tag].Host? ==>
         h.state[tag].key in h.hosts[g] && Weights.Numel(h.state[tag].shape) == |h.hosts[g][h.state[tag].key].elems|
  }

  /** The view a tag gets of the copy reloaded to address `addr`. */
  function Recovered(e: Entry, m: map<Key, Backup>, addr: map<Key, nat>): Entry {
    if e.Host? && e.key in m && Weights.Numel(e.shape) == |m[e.key].elems| then
      Device(Activation(if e.key in addr then addr[e.key] else 0, m[e.key].dtype, e.shape, m[e.key].elems))
    else e
  }

  /** `addr` says where the allocator puts the reloaded copies. */
  function Reloaded(h: Handler, g: int, addr: map<Key, nat>): Handler
    requires g in h.hosts
  {
    h.(state := map tag | tag in h.state ::
         if tag.group == g then Recovered(h.state[tag], h.hosts[g], addr) else h.state[tag],
       hosts := h.hosts - {g},
       h2d := h.h2d + set tag | tag in h.state && tag.group == g && h.state[tag].Host?)
  }

  predicate DueBackward(h: Handler) {
    h.offloaded - 1 in h.plan.window && h.plan.window[h.offloaded - 1] == h.current - 1
  }

  ghost predicate CanCommitBackward(h: Handler) {
    && h.current >= 1
    && h.offloaded - 1 in h.plan.window
    && (DueBackward(h) ==> CanReload(h, h.offloaded - 1))
  }

  /** `addr` is the allocator's choice for the copies reloaded, if any are. */
  function Backward(h: Handler, addr: map<Key, nat>): Handler
    requires CanCommitBackward(h)
  {
    var down := h.(current := h.current - 1);
    var mid :=
      if DueBackward(h) then
        Reloaded(WaitH2D(down), h.offloaded - 1, addr)
          .(offloaded := if h.offloaded > 1 then h.offloaded - 1 else h.offloaded)
      else down;
    if mid.current == 0 then WaitH2D(mid).(offloaded := 0) else mid
  }

  /** The handler as constructed. */
  function Fresh(layers: int, offload: int): Handler {
    Handler(Plan(layers, offload, WindowMap(layers, offload)), 0, 0, 0, map[], map[], map[], {}, {})
  }

  // ----- What can go wrong on the device -----

  /** Some reference keeps `t` alive. */
  ghost predicate Referenced(h: Handler, t: Tensor) {
    || (exists tag :: tag in h.buf && h.buf[tag] == Some(t))
    || (exists tag :: tag in h.state && h.state[tag] == Device(t))
  }

  /** No tensor lost its last reference while a copy of it was pending. */
  ghost predicate NoDanglingCopy(h: Handler) {
    forall t :: t in h.d2h ==> Referenced(h, t)
  }

  /** The groups with a tensor on the device that the handler refers to. */
  function Resident(h: Handler): set<int> {
    (set tag | tag in h.state && h.state[tag].Device? :: tag.group)
    + (set tag | tag in h.buf && h.buf[tag].Some? :: tag.group)
  }
}
