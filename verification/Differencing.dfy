/** The differencing algorithm: the queue of states, the order of the merges, and the partitions that result. */
module Differencing {
  import opened Arithmetic
  import opened Options
  import opened Seqs
  import opened Partitions
  import opened KarmarkarKarp

  // ----- The queue -----

  function HeapCount(pq: seq<State>, i: nat): nat {
    if pq == [] then 0 else HeapCount(pq[..|pq| - 1], i) + Count(pq[|pq| - 1], i)
  }

  function HeapSize(pq: seq<State>): nat {
    if pq == [] then 0 else HeapSize(pq[..|pq| - 1]) + Size(pq[|pq| - 1])
  }

  /** The states of the queue hold exactly these items. */
  ghost predicate Holds(pq: seq<State>, items: seq<nat>) {
    HeapSize(pq) == |items| && forall i: nat :: HeapCount(pq, i) == multiset(items)[i]
  }

  ghost predicate AllGood(vals: seq<int>, k: nat, equalSize: bool, d: int, pq: seq<State>) {
    forall s :: s in pq ==> Good(vals, k, equalSize, d, s)
  }

  lemma HeapSnoc(pq: seq<State>, s: State, i: nat)
    ensures HeapCount(pq + [s], i) == HeapCount(pq, i) + Count(s, i)
    ensures HeapSize(pq + [s]) == HeapSize(pq) + Size(s)
  {
    assert (pq + [s])[..|pq|] == pq;
  }

  lemma {:induction false} HeapWithout(pq: seq<State>, k: nat, i: nat)
    requires k < |pq|
    ensures HeapCount(pq, i) == HeapCount(pq[..k] + pq[k + 1..], i) + Count(pq[k], i)
    ensures HeapSize(pq) == HeapSize(pq[..k] + pq[k + 1..]) + Size(pq[k])
    decreases |pq|
  {
    hide Count, Size, HeapCount, HeapSize;
    var front, last := pq[..|pq| - 1], pq[|pq| - 1];
    assert pq == front + [last];
    HeapSnoc(front, last, i);
    if k == |front| {
      assert pq[..k] + pq[k + 1..] == front;
    } else {
      HeapWithout(front, k, i);
      assert pq[..k] + pq[k + 1..] == (front[..k] + front[k + 1..]) + [last];
      HeapSnoc(front[..k] + front[k + 1..], last, i);
    }
  }

  lemma {:induction false} ItemsLessOrders(a: seq<nat>, b: seq<nat>, c: seq<nat>)
    ensures !ItemsLess(a, a)
    ensures ItemsLess(a, b) && ItemsLess(b, c) ==> ItemsLess(a, c)
  {
    if a != [] {
      ItemsLessOrders(a[1..], if b == [] then [] else b[1..], if c == [] then [] else c[1..]);
    }
  }

  /** The order of the heap is a strict order. */
  lemma SoonerOrders(a: State, b: State, c: State)
    requires a != [] && b != [] && c != []
    ensures !Sooner(a, a)
    ensures Sooner(a, b) && Sooner(b, c) ==> Sooner(a, c)
  {
    ItemsLessOrders(c[0].items, b[0].items, a[0].items);
    ItemsLessOrders(a[0].items, a[0].items, a[0].items);
  }

  /** All states have `k` sets. */
  predicate Sized(pq: seq<State>, k: nat) {
    k > 0 && forall j :: 0 <= j < |pq| ==> |pq[j]| == k
  }

  /** The position of the state that the heap puts first. */
  function Head(pq: seq<State>, k: nat): (h: nat)
    requires pq != [] && Sized(pq, k)
    ensures h < |pq|
  {
    if |pq| == 1 then 0 else
      var last := |pq| - 1;
      var h := Head(pq[..last], k);
      if Sooner(pq[last], pq[h]) then last else h
  }

  /** No state precedes the head, so none has a larger spread. */
  lemma {:induction false} HeadFirst(pq: seq<State>, k: nat, j: nat)
    requires pq != [] && Sized(pq, k) && j < |pq|
    ensures !Sooner(pq[j], pq[Head(pq, k)]) && Spread(pq[j]) <= Spread(pq[Head(pq, k)])
    decreases |pq|
  {
    SoonerOrders(pq[j], pq[j], pq[j]);
    if |pq| > 1 {
      var last := |pq| - 1;
      var h := Head(pq[..last], k);
      if j < last {
        HeadFirst(pq[..last], k, j);
        SoonerOrders(pq[j], pq[last], pq[h]);
      }
    }
  }

  function Without(pq: seq<State>, i: nat): (r: seq<State>)
    requires i < |pq|
    ensures |r| == |pq| - 1
  {
    pq[..i] + pq[i + 1..]
  }

  /** `heapq.heappop` */
  method PopSoonest(pq: seq<State>, k: nat) returns (s: State, rest: seq<State>)
    requires pq != [] && Sized(pq, k)
    ensures s == pq[Head(pq, k)] && rest == Without(pq, Head(pq, k))
  {
    var best := 0;
    for i := 1 to |pq|
      invariant best < i && best == Head(pq[..i], k)
    {
      assert pq[..i + 1][..i] == pq[..i];
      if Sooner(pq[i], pq[best]) {
        best := i;
      }
    }
    assert pq[..|pq|] == pq;
    s, rest := pq[best], Without(pq, best);
  }

  /** One turn of the loop: the two states that come first are merged. */
  function MergeTwo(pq: seq<State>, k: nat): (r: seq<State>)
    requires |pq| > 1 && Sized(pq, k)
    ensures |r| == |pq| - 1 && Sized(r, k)
  {
    var i := Head(pq, k);
    var rest := Without(pq, i);
    var j := Head(rest, k);
    MergeSorts(pq[i], rest[j]);
    Without(rest, j) + [Merge(pq[i], rest[j])]
  }

  /** The state that is left when all are merged. */
  function MergeAll(pq: seq<State>, k: nat): State
    requires pq != [] && Sized(pq, k)
    decreases |pq|
  {
    if |pq| == 1 then pq[0] else MergeAll(MergeTwo(pq, k), k)
  }

  // ----- The initial queue -----

  /** `sorted([(seqlen, i) ...])`, as indices. */
  function InsertIndex(vals: seq<int>, i: nat, sorted: seq<nat>): seq<nat> {
    if sorted == [] then [i]
    else if Value(vals, i) < Value(vals, sorted[0]) || (Value(vals, i) == Value(vals, sorted[0]) && i < sorted[0]) then
      [i] + sorted
    else [sorted[0]] + InsertIndex(vals, i, sorted[1..])
  }

  function SortedIndices(vals: seq<int>, n: nat): seq<nat> {
    if n == 0 then [] else InsertIndex(vals, n - 1, SortedIndices(vals, n - 1))
  }

  lemma {:induction false} InsertIndexPermutes(vals: seq<int>, i: nat, sorted: seq<nat>)
    ensures multiset(InsertIndex(vals, i, sorted)) == multiset(sorted) + multiset{i}
  {
    if sorted != [] {
      assert sorted == [sorted[0]] + sorted[1..];
      InsertIndexPermutes(vals, i, sorted[1..]);
    }
  }

  lemma {:induction false} SortedIndicesPermute(vals: seq<int>, n: nat)
    ensures multiset(SortedIndices(vals, n)) == multiset(Indices(n))
    ensures |SortedIndices(vals, n)| == n && InRange(SortedIndices(vals, n), n)
  {
    if n > 0 {
      SortedIndicesPermute(vals, n - 1);
      InsertIndexPermutes(vals, n - 1, SortedIndices(vals, n - 1));
    }
    hide SortedIndices, Indices;
    IndicesAre(n);
    SameElements(SortedIndices(vals, n), Indices(n));
    forall j | 0 <= j < n ensures SortedIndices(vals, n)[j] < n {
      InIndices(n, SortedIndices(vals, n)[j]);
    }
  }

  /** Smaller values first, equal ones by index. */
  predicate Before(vals: seq<int>, i: nat, j: nat) {
    Value(vals, i) < Value(vals, j) || (Value(vals, i) == Value(vals, j) && i < j)
  }

  ghost predicate InOrder(vals: seq<int>, order: seq<nat>) {
    forall a, b :: 0 <= a < b < |order| ==> Before(vals, order[a], order[b])
  }

  lemma {:induction false} InsertIndexMembers(vals: seq<int>, i: nat, sorted: seq<nat>, j: nat)
    requires j in InsertIndex(vals, i, sorted)
    ensures j == i || j in sorted
  {
    if sorted != [] && j != sorted[0] && j !in [i] + sorted {
      InsertIndexMembers(vals, i, sorted[1..], j);
    }
  }

  lemma InOrderCons(vals: seq<int>, i: nat, order: seq<nat>)
    requires InOrder(vals, order) && forall b :: 0 <= b < |order| ==> Before(vals, i, order[b])
    ensures InOrder(vals, [i] + order)
  {
    hide Before;
  }

  lemma InOrderTail(vals: seq<int>, order: seq<nat>)
    requires order != [] && InOrder(vals, order)
    ensures InOrder(vals, order[1..]) && forall b :: 0 <= b < |order[1..]| ==> Before(vals, order[0], order[1..][b])
  {
    hide Before;
  }

  lemma {:induction false} InsertIndexSorts(vals: seq<int>, i: nat, sorted: seq<nat>)
    requires InOrder(vals, sorted) && i !in sorted
    ensures InOrder(vals, InsertIndex(vals, i, sorted))
  {
    if sorted == [] {
    } else {
      InOrderTail(vals, sorted);
      hide InOrder;
      if Before(vals, i, sorted[0]) {
        forall b | 0 <= b < |sorted| ensures Before(vals, i, sorted[b]) {
          if b > 0 {
            assert sorted[b] == sorted[1..][b - 1];
          }
        }
        InOrderCons(vals, i, sorted);
      } else {
        var r := InsertIndex(vals, i, sorted[1..]);
        InsertIndexSorts(vals, i, sorted[1..]);
        forall b | 0 <= b < |r| ensures Before(vals, sorted[0], r[b]) {
          InsertIndexMembers(vals, i, sorted[1..], r[b]);
        }
        InOrderCons(vals, sorted[0], r);
      }
    }
  }

  lemma NotYet(vals: seq<int>, n: nat)
    ensures n !in SortedIndices(vals, n)
  {
    SortedIndicesPermute(vals, n);
    hide SortedIndices;
  }

  lemma {:induction false} SortedIndicesInOrder(vals: seq<int>, n: nat)
    ensures InOrder(vals, SortedIndices(vals, n))
  {
    hide InOrder, InsertIndex;
    if n == 0 {
      NothingInOrder(vals);
    } else {
      SortedIndicesInOrder(vals, n - 1);
      NotYet(vals, n - 1);
      InsertIndexSorts(vals, n - 1, SortedIndices(vals, n - 1));
    }
  }

  lemma NothingInOrder(vals: seq<int>)
    ensures InOrder(vals, [])
  {
  }

  /** The two items that weigh less than all others come first. */
  lemma LightestFirst(vals: seq<int>, x: nat, y: nat)
    requires x < |vals| && y < |vals| && x != y
    requires forall z :: 0 <= z < |vals| && z != x && z != y ==> vals[x] < vals[z] && vals[y] < vals[z]
    ensures |SortedIndices(vals, |vals|)| == |vals| >= 2
    ensures x in SortedIndices(vals, |vals|)[..2] && y in SortedIndices(vals, |vals|)[..2]
  {
    var order := SortedIndices(vals, |vals|);
    SortedIndicesPermute(vals, |vals|);
    SortedIndicesInOrder(vals, |vals|);
    PermutationDistinct(order, |vals|);
    hide SortedIndices;
    InFirstTwo(vals, order, x, y);
    InFirstTwo(vals, order, y, x);
  }

  lemma InFirstTwo(vals: seq<int>, order: seq<nat>, x: nat, y: nat)
    requires InOrder(vals, order) && Distinct(order) && InRange(order, |vals|) && x in order && |order| >= 2
    requires x < |vals| && forall z :: 0 <= z < |vals| && z != x && z != y ==> vals[x] < vals[z]
    ensures x in order[..2]
  {
    var p :| 0 <= p < |order| && order[p] == x;
    forall a | 0 <= a < p ensures order[a] == y {
      assert Before(vals, order[a], order[p]);
    }
    assert order[0] != order[1];
    assert order[..2][p] == x;
  }

  /** The states made of `size` consecutive items of `order` each. */
  function InitialStates(vals: seq<int>, k: nat, order: seq<nat>, size: nat): seq<State>
    requires 0 < size <= k
    decreases |order|
  {
    if |order| < size then []
    else InitialStates(vals, k, order[..|order| - size], size) + [Start(vals, order[|order| - size..], k)]
  }

  function MaxSpread(pq: seq<State>): int {
    if pq == [] then 0
    else Max(MaxSpread(pq[..|pq| - 1]), if pq[|pq| - 1] == [] then 0 else Spread(pq[|pq| - 1]))
  }

  /** The largest spread of the states the queue starts with. */
  function InitialSpread(vals: seq<int>, k: nat, equalSize: bool): int {
    if k == 0 then 0
    else MaxSpread(InitialStates(vals, k, SortedIndices(vals, |vals|), if equalSize then k else 1))
  }

  lemma {:induction false} InitialSpreadBound(vals: seq<int>, k: nat, equalSize: bool, order: seq<nat>)
    requires vals != [] && k > 0 && forall i :: i in order ==> i < |vals|
    ensures MaxSpread(InitialStates(vals, k, order, if equalSize then k else 1)) <= Max(0, Widest(vals, equalSize))
    decreases |order|
  {
    var size := if equalSize then k else 1;
    if |order| >= size {
      var front, items := order[..|order| - size], order[|order| - size..];
      assert forall i :: i in front || i in items ==> i in order;
      InitialSpreadBound(vals, k, equalSize, front);
      StartSpread(vals, k, equalSize, items);
    }
  }

  /** No two initial sums are further apart than the values allow. */
  lemma InitialSpreadAtMost(vals: seq<int>, k: nat, equalSize: bool)
    requires vals != [] && k > 0
    ensures InitialSpread(vals, k, equalSize) <= Widest(vals, equalSize)
  {
    hide SortedIndices, InitialStates, MaxSpread, Greatest, Least;
    SortedIndicesPermute(vals, |vals|);
    InitialSpreadBound(vals, k, equalSize, SortedIndices(vals, |vals|));
    assert Least(vals) <= Greatest(vals);
  }

  lemma {:induction false} InitialSized(vals: seq<int>, k: nat, order: seq<nat>, size: nat)
    requires 0 < size <= k
    ensures Sized(InitialStates(vals, k, order, size), k)
    ensures |order| >= size ==> InitialStates(vals, k, order, size) != []
    decreases |order|
  {
    if |order| >= size {
      InitialSized(vals, k, order[..|order| - size], size);
      StartShape(vals, k, order[|order| - size..]);
    }
  }

  lemma OneSpread(s: State)
    requires s != []
    ensures MaxSpread([s]) >= Spread(s)
  {
    assert [s][..0] == [];
  }

  lemma SpreadSnoc(pq: seq<State>, s: State)
    ensures MaxSpread(pq + [s]) >= MaxSpread(pq) && MaxSpread(pq + [s]) >= MaxSpread([s])
  {
    assert (pq + [s])[..|pq|] == pq;
    assert [s][..0] == [];
    SpreadNatural(pq);
  }

  lemma {:induction false} SpreadNatural(pq: seq<State>)
    ensures MaxSpread(pq) >= 0
  {
    if pq != [] {
      SpreadNatural(pq[..|pq| - 1]);
    }
  }

  /** `n` items form whole blocks. */
  predicate WholeBlocks(n: nat, size: nat)
    requires size > 0
  {
    n == 0 || (n >= size && WholeBlocks(n - size, size))
  }

  lemma {:induction false} TurnsAreBlocks(turns: nat, size: nat)
    requires size > 0
    ensures WholeBlocks(turns * size, size)
  {
    if turns > 0 {
      StepDown(turns, size);
      TurnsAreBlocks(turns - 1, size);
    }
  }

  /** All initial states are good, and together they hold the items of `order`. */
  lemma {:induction false} InitialGood(vals: seq<int>, k: nat, equalSize: bool, d: int, order: seq<nat>, size: nat)
    requires vals != [] && k > 0 && size == (if equalSize then k else 1)
    requires WholeBlocks(|order|, size) && InRange(order, |vals|)
    requires MaxSpread(InitialStates(vals, k, order, size)) <= d
    ensures AllGood(vals, k, equalSize, d, InitialStates(vals, k, order, size))
    ensures Holds(InitialStates(vals, k, order, size), order)
    decreases |order|
  {
    hide *;
    if order == [] {
      EmptyQueue(vals, k, equalSize, d, order, size);
    } else {
      BlocksLeft(order, size, |vals|);
      var m := |order| - size;
      NextSpread(vals, k, order, size);
      InitialGood(vals, k, equalSize, d, order[..m], size);
      InitialGoodStep(vals, k, equalSize, d, order, size, m, InitialStates(vals, k, order[..m], size));
    }
  }

  lemma BlocksLeft(order: seq<nat>, size: nat, n: nat)
    requires order != [] && size > 0 && WholeBlocks(|order|, size) && InRange(order, n)
    ensures size <= |order| && WholeBlocks(|order| - size, size) && InRange(order[..|order| - size], n)
  {
  }

  lemma InitialGoodStep(vals: seq<int>, k: nat, equalSize: bool, d: int, order: seq<nat>, size: nat, m: nat, pq: seq<State>)
    requires vals != [] && k > 0 && size == (if equalSize then k else 1) && m + size == |order| && InRange(order, |vals|)
    requires AllGood(vals, k, equalSize, d, pq) && Holds(pq, order[..m])
    requires MaxSpread([Start(vals, order[m..m + size], k)]) <= d
    ensures var pq' := pq + [Start(vals, order[m..m + size], k)];
      AllGood(vals, k, equalSize, d, pq') && Holds(pq', order)
  {
    hide *;
    StateAdded(vals, k, equalSize, d, pq, order, m, size);
    assert order[..m + size] == order;
  }

  lemma NextState(vals: seq<int>, k: nat, order: seq<nat>, size: nat)
    requires 0 < size <= k && size <= |order|
    ensures var m := |order| - size;
      InitialStates(vals, k, order, size) == InitialStates(vals, k, order[..m], size) + [Start(vals, order[m..m + size], k)]
  {
    hide Start;
    assert order[|order| - size..] == order[|order| - size..|order| - size + size];
  }

  lemma NextSpread(vals: seq<int>, k: nat, order: seq<nat>, size: nat)
    requires 0 < size <= k && size <= |order|
    ensures var m := |order| - size;
      var (pq, s) := (InitialStates(vals, k, order[..m], size), Start(vals, order[m..m + size], k));
      && InitialStates(vals, k, order, size) == pq + [s]
      && MaxSpread(InitialStates(vals, k, order, size)) >= MaxSpread(pq)
      && MaxSpread(InitialStates(vals, k, order, size)) >= MaxSpread([s])
  {
    hide *;
    var m := |order| - size;
    NextState(vals, k, order, size);
    SpreadSnoc(InitialStates(vals, k, order[..m], size), Start(vals, order[m..m + size], k));
  }

  lemma NoTurns(turns: nat, size: nat)
    ensures turns * size >= 0
  {
  }

  lemma HoldsPermuted(pq: seq<State>, a: seq<nat>, b: seq<nat>)
    requires Holds(pq, a) && multiset(a) == multiset(b)
    ensures Holds(pq, b)
  {
    assert |multiset(a)| == |a| && |multiset(b)| == |b|;
  }

  lemma EmptyQueue(vals: seq<int>, k: nat, equalSize: bool, d: int, order: seq<nat>, size: nat)
    requires order == [] && 0 < size <= k
    ensures var pq := InitialStates(vals, k, order, size); AllGood(vals, k, equalSize, d, pq) && Holds(pq, order)
  {
  }

  lemma StateAdded(vals: seq<int>, k: nat, equalSize: bool, d: int, pq: seq<State>, order: seq<nat>, offset: nat, size: nat)
    requires vals != [] && k > 0 && AllGood(vals, k, equalSize, d, pq) && size == (if equalSize then k else 1)
    requires offset + size <= |order| && InRange(order, |vals|)
    requires Holds(pq, order[..offset]) && MaxSpread([Start(vals, order[offset..offset + size], k)]) <= d
    ensures var pq' := pq + [Start(vals, order[offset..offset + size], k)];
      AllGood(vals, k, equalSize, d, pq') && Holds(pq', order[..offset + size])
  {
    hide Good, Start, Count, Size, HeapCount, HeapSize;
    var items := order[offset..offset + size];
    var pq' := pq + [Start(vals, items, k)];
    assert forall i :: i in items ==> i < |vals|;
    StartShape(vals, k, items);
    OneSpread(Start(vals, items, k));
    StartGood(vals, k, equalSize, d, items);
    assert order[..offset + size] == order[..offset] + items;
    forall i: nat ensures HeapCount(pq', i) == multiset(order[..offset + size])[i] {
      StartItems(vals, k, items, i);
      HeapSnoc(pq, Start(vals, items, k), i);
    }
    StartItems(vals, k, items, 0);
    HeapSnoc(pq, Start(vals, items, k), 0);
  }

  // ----- The merges -----

  /** The two states that are merged, and the queue without them. */
  lemma MergeTwoIs(pq: seq<State>, k: nat) returns (s: State, t: State, rest: seq<State>)
    requires |pq| > 1 && Sized(pq, k)
    ensures s in pq && t in pq && |s| == |t| == k && (forall u :: u in rest ==> u in pq)
    ensures MergeTwo(pq, k) == rest + [Merge(s, t)]
    ensures forall x: nat :: HeapCount(pq, x) == HeapCount(rest, x) + Count(s, x) + Count(t, x)
    ensures HeapSize(pq) == HeapSize(rest) + Size(s) + Size(t)
  {
    hide Count, Size, HeapCount, HeapSize, Merge, Head;
    var i := Head(pq, k);
    var left := Without(pq, i);
    var j := Head(left, k);
    s, t, rest := pq[i], left[j], Without(left, j);
    hide Without, MergeTwo;
    WithoutIs(pq, i);
    WithoutIs(left, j);
  }

  /** What the queue holds apart from one state. */
  lemma WithoutIs(pq: seq<State>, i: nat)
    requires i < |pq|
    ensures forall u :: u in Without(pq, i) ==> u in pq
    ensures forall x: nat :: HeapCount(pq, x) == HeapCount(Without(pq, i), x) + Count(pq[i], x)
    ensures HeapSize(pq) == HeapSize(Without(pq, i)) + Size(pq[i])
  {
    hide Count, Size, HeapCount, HeapSize;
    HeapWithout(pq, i, 0);
    forall x: nat ensures HeapCount(pq, x) == HeapCount(Without(pq, i), x) + Count(pq[i], x) {
      HeapWithout(pq, i, x);
    }
  }

  lemma MergeTwoGood(vals: seq<int>, k: nat, equalSize: bool, d: int, pq: seq<State>, items: seq<nat>)
    requires |pq| > 1 && Sized(pq, k) && AllGood(vals, k, equalSize, d, pq) && Holds(pq, items)
    ensures AllGood(vals, k, equalSize, d, MergeTwo(pq, k)) && Holds(MergeTwo(pq, k), items)
  {
    hide Good, Count, Size, HeapCount, HeapSize, Merge, Head, Sized, MergeTwo;
    var s, t, rest := MergeTwoIs(pq, k);
    MergeGood(vals, k, equalSize, d, s, t);
    MergeTwoCounts(pq, k);
  }

  /** A turn keeps every item as often as it was. */
  lemma MergeTwoCounts(pq: seq<State>, k: nat)
    requires |pq| > 1 && Sized(pq, k)
    ensures HeapSize(MergeTwo(pq, k)) == HeapSize(pq) && forall x: nat :: HeapCount(MergeTwo(pq, k), x) == HeapCount(pq, x)
  {
    var s, t, rest := MergeTwoIs(pq, k);
    hide *;
    MergeConserves(s, t, 0);
    HeapSnoc(rest, Merge(s, t), 0);
    forall x: nat ensures HeapCount(MergeTwo(pq, k), x) == HeapCount(pq, x) {
      MergeConserves(s, t, x);
      HeapSnoc(rest, Merge(s, t), x);
    }
  }

  lemma {:induction false} MergeAllGood(vals: seq<int>, k: nat, equalSize: bool, d: int, pq: seq<State>, items: seq<nat>)
    requires pq != [] && Sized(pq, k) && AllGood(vals, k, equalSize, d, pq) && Holds(pq, items)
    ensures Good(vals, k, equalSize, d, MergeAll(pq, k)) && Size(MergeAll(pq, k)) == |items|
    ensures forall x: nat :: Count(MergeAll(pq, k), x) == multiset(items)[x]
    decreases |pq|
  {
    hide Good, Count, Size, Holds, MergeTwo, Sized;
    if |pq| == 1 {
      assert pq[0] in pq;
      OneState(pq, items);
    } else {
      MergeTwoGood(vals, k, equalSize, d, pq, items);
      MergeAllGood(vals, k, equalSize, d, MergeTwo(pq, k), items);
    }
  }

  lemma OneState(pq: seq<State>, items: seq<nat>)
    requires |pq| == 1 && Holds(pq, items)
    ensures Size(pq[0]) == |items| && forall i: nat :: Count(pq[0], i) == multiset(items)[i]
  {
    assert [] + [pq[0]] == pq;
    HeapSnoc([], pq[0], 0);
    forall i: nat ensures Count(pq[0], i) == multiset(items)[i] {
      HeapSnoc([], pq[0], i);
    }
  }

  ghost predicate AllApart(pq: seq<State>, x: nat, y: nat) {
    forall s :: s in pq ==> Apart(s, x, y)
  }

  /** Two items that every state keeps apart are kept apart by all merges. */
  lemma {:induction false} MergeAllApart(pq: seq<State>, k: nat, x: nat, y: nat)
    requires pq != [] && Sized(pq, k) && HeapCount(pq, x) <= 1 && AllApart(pq, x, y)
    ensures Apart(MergeAll(pq, k), x, y)
    decreases |pq|
  {
    hide Apart, Sized, MergeTwo, HeapCount;
    if |pq| > 1 {
      MergeTwoApart(pq, k, x, y);
      MergeTwoCounts(pq, k);
      MergeAllApart(MergeTwo(pq, k), k, x, y);
    }
  }

  lemma MergeTwoApart(pq: seq<State>, k: nat, x: nat, y: nat)
    requires |pq| > 1 && Sized(pq, k) && HeapCount(pq, x) <= 1 && AllApart(pq, x, y)
    ensures AllApart(MergeTwo(pq, k), x, y)
  {
    var s, t, rest := MergeTwoIs(pq, k);
    hide Count, HeapCount, HeapSize, Merge, Head, Apart, MergeTwo, Sized;
    MergeApart(s, t, x, y);
  }

  // ----- The partitions -----

  function PartsOf(s: State): seq<seq<nat>> {
    if s == [] then [] else PartsOf(s[..|s| - 1]) + [s[|s| - 1].items]
  }

  lemma {:induction false} PartsAre(s: State)
    ensures |PartsOf(s)| == |s| && forall i :: 0 <= i < |s| ==> PartsOf(s)[i] == s[i].items
    decreases |s|
  {
    if s != [] {
      PartsAre(s[..|s| - 1]);
    }
  }

  lemma {:induction false} PartsCount(s: State, i: nat)
    ensures multiset(Concat<nat>(PartsOf(s)))[i] == Count(s, i)
    decreases |s|
  {
    if s != [] {
      PartsCount(s[..|s| - 1], i);
      StateSnoc(s, i);
      ConcatSnoc(PartsOf(s[..|s| - 1]), s[|s| - 1].items);
    }
  }

  lemma {:induction false} SmallCount(s: State)
    requires Small(s)
    ensures Size(s) <= |s|
    ensures Size(s) == |s| ==> Filled(s)
  {
    if s != [] {
      assert s == [s[0]] + s[1..];
      SmallCount(s[1..]);
    }
  }

  lemma {:induction false} SameSizeCount(s: State, m: nat)
    requires forall b :: b in s ==> |b.items| == m
    ensures Size(s) == |s| * m
  {
    if s != [] {
      assert s[0] in s;
      SameSizeCount(s[1..], m);
      StepDown(|s|, m);
    }
  }

  /** What the method promises about its partitions, whose loads differ by at most `d`. */
  ghost predicate Differenced(vals: seq<int>, k: nat, equalSize: bool, d: int, parts: seq<seq<nat>>) {
    && |parts| == k && IsPartition(parts, |vals|)
    && (forall i, j :: 0 <= i < j < k ==> Load(vals, parts[i]) >= Load(vals, parts[j]))
    && (forall i, j :: 0 <= i < k && 0 <= j < k ==> Load(vals, parts[i]) - Load(vals, parts[j]) <= d)
    && (equalSize ==> forall i :: 0 <= i < k ==> |parts[i]| * k == |vals|)
    && (NonNegative(vals) && k <= |vals| ==> forall i :: 0 <= i < k ==> parts[i] != [])
  }

  lemma FinalFilled(vals: seq<int>, s: State)
    requires NonNegative(vals) && |s| <= |vals| && (Filled(s) || Small(s)) && Size(s) == |vals|
    ensures Filled(s)
  {
    if Small(s) {
      SmallCount(s);
    }
  }

  lemma FinalEqual(s: State, n: nat)
    requires s != [] && SameSize(s) && Size(s) == n
    ensures forall b :: b in s ==> |b.items| * |s| == n
  {
    assert s[0] in s;
    SameSizeCount(s, |s[0].items|);
    forall b | b in s ensures |b.items| * |s| == n {
      assert |b.items| == |s[0].items|;
    }
  }

  lemma FinalPartition(n: nat, s: State)
    requires forall i: nat :: Count(s, i) == multiset(Indices(n))[i]
    ensures |PartsOf(s)| == |s| && IsPartition(PartsOf(s), n)
  {
    PartsAre(s);
    var all: seq<nat> := Concat<nat>(PartsOf(s));
    forall i: nat ensures multiset(all)[i] == multiset(Indices(n))[i] {
      PartsCount(s, i);
      assert Count(s, i) == multiset(Indices(n))[i];
    }
    assert multiset(all) == multiset(Indices(n));
  }

  lemma FinalSizes(vals: seq<int>, k: nat, equalSize: bool, d: int, s: State)
    requires k > 0 && Good(vals, k, equalSize, d, s) && Size(s) == |vals|
    ensures |PartsOf(s)| == k
    ensures equalSize ==> forall i :: 0 <= i < k ==> |PartsOf(s)[i]| * k == |vals|
    ensures NonNegative(vals) && k <= |vals| ==> forall i :: 0 <= i < k ==> PartsOf(s)[i] != []
  {
    PartsAre(s);
    hide Count, Size, PartsOf, Sorted, Exact, Within, Small, SameSize, NonNegative;
    if NonNegative(vals) && k <= |vals| {
      FinalFilled(vals, s);
    }
    if equalSize {
      FinalEqual(s, |vals|);
    }
    forall i | 0 <= i < k ensures s[i] in s && PartsOf(s)[i] == s[i].items {
    }
  }

  lemma FinalState(vals: seq<int>, k: nat, equalSize: bool, d: int, s: State)
    requires k > 0 && Good(vals, k, equalSize, d, s) && Size(s) == |vals|
    requires forall i: nat :: Count(s, i) == multiset(Indices(|vals|))[i]
    ensures Differenced(vals, k, equalSize, d, PartsOf(s))
  {
    hide Count, Size, PartsOf, Sorted, Exact, Within, Filled, Small, SameSize, IsPartition, Load, Indices, NonNegative;
    FinalPartition(|vals|, s);
    FinalSizes(vals, k, equalSize, d, s);
    PartsOrdered(vals, s, d);
  }

  lemma PartsOrdered(vals: seq<int>, s: State, d: int)
    requires Sorted(s) && Exact(vals, s) && Within(s, d)
    ensures |PartsOf(s)| == |s|
    ensures forall i, j :: 0 <= i < j < |s| ==> Load(vals, PartsOf(s)[i]) >= Load(vals, PartsOf(s)[j])
    ensures forall i, j :: 0 <= i < |s| && 0 <= j < |s| ==> Load(vals, PartsOf(s)[i]) - Load(vals, PartsOf(s)[j]) <= d
  {
    PartsAre(s);
    hide PartsOf, Load;
    forall i | 0 <= i < |s| ensures Load(vals, PartsOf(s)[i]) == s[i].sum && s[i] in s {
    }
  }

  /** The states that the queue starts with: one per item, or one per `k` consecutive items of the sorted list. */
  function Queue(vals: seq<int>, k: nat, equalSize: bool): (pq: seq<State>)
    requires vals != [] && k > 0 && (equalSize ==> |vals| % k == 0)
    ensures pq != [] && Sized(pq, k)
  {
    var order, size := SortedIndices(vals, |vals|), if equalSize then k else 1;
    SortedIndicesPermute(vals, |vals|);
    InitialSized(vals, k, order, size);
    AtLeastOnce(|vals|, k);
    InitialStates(vals, k, order, size)
  }

  lemma AtLeastOnce(n: nat, k: nat)
    requires n > 0 && k > 0
    ensures n % k == 0 ==> k <= n
  {
  }

  /** What the algorithm returns. */
  function Differences(vals: seq<int>, k: nat, equalSize: bool): seq<seq<nat>>
    requires vals != [] && k > 0 && (equalSize ==> |vals| % k == 0)
  {
    PartsOf(MergeAll(Queue(vals, k, equalSize), k))
  }

  /** The initial queue is good and holds every index once. */
  lemma QueueGood(vals: seq<int>, k: nat, equalSize: bool)
    requires vals != [] && k > 0 && (equalSize ==> |vals| % k == 0)
    ensures AllGood(vals, k, equalSize, InitialSpread(vals, k, equalSize), Queue(vals, k, equalSize))
    ensures Holds(Queue(vals, k, equalSize), Indices(|vals|))
  {
    var order, size := SortedIndices(vals, |vals|), if equalSize then k else 1;
    var pq := Queue(vals, k, equalSize);
    assert pq == InitialStates(vals, k, order, size) && InitialSpread(vals, k, equalSize) == MaxSpread(pq);
    var turns := Turns(|vals|, size);
    SortedIndicesPermute(vals, |vals|);
    hide *;
    TurnsAreBlocks(turns, size);
    InitialGood(vals, k, equalSize, InitialSpread(vals, k, equalSize), order, size);
    HoldsPermuted(pq, order, Indices(|vals|));
  }

  ghost function Turns(n: nat, size: nat): (turns: nat)
    requires size > 0 && n % size == 0
    ensures n == turns * size
  {
    DivisionIs(n, size);
    n / size
  }

  /**
   * The result is a partition into parts of falling load that differ by at most the largest initial spread, of equal
   * sizes if asked.
   */
  lemma DifferencesAre(vals: seq<int>, k: nat, equalSize: bool)
    requires vals != [] && k > 0 && (equalSize ==> |vals| % k == 0)
    ensures Differenced(vals, k, equalSize, InitialSpread(vals, k, equalSize), Differences(vals, k, equalSize))
  {
    hide InitialSpread, MergeAll, Good, Holds, Indices, Differenced, Queue, AllGood;
    QueueGood(vals, k, equalSize);
    MergeAllGood(vals, k, equalSize, InitialSpread(vals, k, equalSize), Queue(vals, k, equalSize), Indices(|vals|));
    IndicesAre(|vals|);
    FinalState(vals, k, equalSize, InitialSpread(vals, k, equalSize), MergeAll(Queue(vals, k, equalSize), k));
  }

  // ----- The blocks of the sorted list -----

  /** The two items lie in the same block of `size` consecutive items. */
  predicate SameBlock(order: seq<nat>, size: nat, x: nat, y: nat)
    requires size > 0
    decreases |order|
  {
    |order| >= size
    && ((x in order[|order| - size..] && y in order[|order| - size..]) || SameBlock(order[..|order| - size], size, x, y))
  }

  lemma {:induction false} BlockMembers(order: seq<nat>, size: nat, x: nat, y: nat)
    requires size > 0 && SameBlock(order, size, x, y)
    ensures x in order && y in order
    decreases |order|
  {
    var front := order[..|order| - size];
    if !(x in order[|order| - size..] && y in order[|order| - size..]) {
      BlockMembers(front, size, x, y);
    }
  }

  lemma SplitDistinct(order: seq<nat>, m: nat)
    requires m <= |order| && Distinct(order)
    ensures Distinct(order[..m])
    ensures forall i :: i in order <==> i in order[..m] || i in order[m..]
    ensures forall i :: !(i in order[..m] && i in order[m..])
  {
    assert order == order[..m] + order[m..];
  }

  lemma {:induction false} InitialApart(vals: seq<int>, k: nat, order: seq<nat>, x: nat, y: nat)
    requires k > 0 && x != y && Distinct(order)
    requires SameBlock(order, k, x, y) || (x !in order && y !in order)
    ensures AllApart(InitialStates(vals, k, order, k), x, y)
    decreases |order|
  {
    hide Distinct, Apart, Start;
    if |order| >= k {
      var m := |order| - k;
      var front, items := order[..m], order[m..];
      SplitDistinct(order, m);
      if SameBlock(front, k, x, y) {
        BlockMembers(front, k, x, y);
      }
      hide SameBlock;
      StartApart(vals, k, items, x, y);
      InitialApart(vals, k, front, x, y);
    }
  }

  /** With equal sizes, no part holds two items of the same block of the sorted list. */
  lemma BlocksAreSpread(vals: seq<int>, k: nat, x: nat, y: nat, j: nat)
    requires vals != [] && k > 0 && |vals| % k == 0 && x != y && SameBlock(SortedIndices(vals, |vals|), k, x, y)
    requires j < |Differences(vals, k, true)|
    ensures !(x in Differences(vals, k, true)[j] && y in Differences(vals, k, true)[j])
  {
    var order, pq := SortedIndices(vals, |vals|), Queue(vals, k, true);
    SortedIndicesPermute(vals, |vals|);
    PermutationDistinct(order, |vals|);
    InitialApart(vals, k, order, x, y);
    QueueCount(vals, k, x);
    hide InitialStates, SortedIndices, MergeAll, SameBlock;
    MergeAllApart(pq, k, x, y);
    PartsAre(MergeAll(pq, k));
  }

  lemma QueueCount(vals: seq<int>, k: nat, x: nat)
    requires vals != [] && k > 0 && |vals| % k == 0
    ensures HeapCount(Queue(vals, k, true), x) <= 1
  {
    hide Queue, Holds, AllGood, Indices, HeapCount;
    QueueGood(vals, k, true);
    ItemOnce(Queue(vals, k, true), |vals|, x);
  }

  lemma ItemOnce(pq: seq<State>, n: nat, x: nat)
    requires Holds(pq, Indices(n))
    ensures HeapCount(pq, x) <= 1
  {
    hide Indices, HeapCount, HeapSize;
    PermutationDistinct(Indices(n), n);
    DistinctCount(Indices(n), x);
  }

  /** The first `size` items form a block. */
  lemma {:induction false} FirstBlock(order: seq<nat>, size: nat, x: nat, y: nat)
    requires size > 0 && WholeBlocks(|order|, size) && size <= |order| && x in order[..size] && y in order[..size]
    ensures SameBlock(order, size, x, y)
    decreases |order|
  {
    var front := order[..|order| - size];
    if |order| == size {
      assert order[|order| - size..] == order == order[..size];
    } else {
      assert front[..size] == order[..size];
      FirstBlock(front, size, x, y);
    }
  }

  /** With equal sizes and more than one part, the two items that weigh less than all others are separated. */
  lemma LightestSeparated(vals: seq<int>, k: nat, x: nat, y: nat, j: nat)
    requires k > 1 && vals != [] && |vals| % k == 0 && x < |vals| && y < |vals| && x != y
    requires forall z :: 0 <= z < |vals| && z != x && z != y ==> vals[x] < vals[z] && vals[y] < vals[z]
    requires j < |Differences(vals, k, true)|
    ensures !(x in Differences(vals, k, true)[j] && y in Differences(vals, k, true)[j])
  {
    var order := SortedIndices(vals, |vals|);
    hide Differences, SortedIndices, SameBlock;
    LightestFirst(vals, x, y);
    AtLeastOnce(|vals|, k);
    TurnsAreBlocks(Turns(|vals|, k), k);
    assert order[..2] <= order[..k];
    FirstBlock(order, k, x, y);
    BlocksAreSpread(vals, k, x, y, j);
  }

  // ----- The program -----

  lemma Advance(n: nat, offset: nat, left: nat, size: nat)
    requires n == offset + left * size && offset < n
    ensures left > 0 && offset + size <= n && n == offset + size + (left - 1) * size
  {
    StepDown(left, size);
    NoTurns(left - 1, size);
  }

  lemma NextBlock(vals: seq<int>, k: nat, order: seq<nat>, size: nat, offset: nat)
    requires 0 < size <= k && offset + size <= |order|
    ensures InitialStates(vals, k, order[..offset + size], size)
      == InitialStates(vals, k, order[..offset], size) + [Start(vals, order[offset..offset + size], k)]
  {
    var upTo := order[..offset + size];
    NextState(vals, k, upTo, size);
    assert upTo[..offset] == order[..offset] && upTo[offset..offset + size] == order[offset..offset + size];
  }

  lemma NoStates(vals: seq<int>, k: nat, order: seq<nat>, size: nat)
    requires 0 < size <= k
    ensures InitialStates(vals, k, order[..0], size) == []
  {
  }

  /** The loops that fill the queue. */
  method PushAll(vals: seq<int>, k: nat, order: seq<nat>, size: nat, ghost turns: nat) returns (pq: seq<State>)
    requires 0 < size <= k && |order| == turns * size
    ensures pq == InitialStates(vals, k, order, size)
  {
    hide *;
    pq := [];
    var offset := 0;
    ghost var left := turns;
    NoStates(vals, k, order, size);
    while offset < |order|
      invariant 0 <= offset <= |order| && |order| == offset + left * size
      invariant pq == InitialStates(vals, k, order[..offset], size)
      decreases |order| - offset
    {
      Advance(|order|, offset, left, size);
      NextBlock(vals, k, order, size, offset);
      pq := pq + [Start(vals, order[offset..offset + size], k)];
      offset, left := offset + size, left - 1;
    }
    assert order[..|order|] == order;
  }

  /** `karmarkar_karp`; nothing is returned where the original raises. */
  method Partition(vals: seq<int>, k: nat, equalSize: bool) returns (r: Option<seq<seq<nat>>>)
    ensures r == None <==> vals == [] || k == 0 || (equalSize && |vals| % k != 0)
    ensures r.Some? ==> r.value == Differences(vals, k, equalSize)
  {
    if vals == [] || k == 0 || (equalSize && |vals| % k != 0) {
      return None;
    }
    hide *;
    var pq := FillQueue(vals, k, equalSize);
    MergesOnce(pq, k);
    while |pq| > 1
      invariant pq != [] && Sized(pq, k)
      invariant MergeAll(pq, k) == MergeAll(Queue(vals, k, equalSize), k)
      decreases |pq|
    {
      MergesOnce(pq, k);
      pq := MergeSoonest(pq, k);
    }
    MergesOnce(pq, k);
    DifferencesOf(vals, k, equalSize);
    r := Some(PartsOf(pq[0]));
  }

  lemma MergesOnce(pq: seq<State>, k: nat)
    requires pq != [] && Sized(pq, k)
    ensures MergeAll(pq, k) == if |pq| == 1 then pq[0] else MergeAll(MergeTwo(pq, k), k)
  {
  }

  lemma DifferencesOf(vals: seq<int>, k: nat, equalSize: bool)
    requires vals != [] && k > 0 && (equalSize ==> |vals| % k == 0)
    ensures Differences(vals, k, equalSize) == PartsOf(MergeAll(Queue(vals, k, equalSize), k))
  {
  }

  method FillQueue(vals: seq<int>, k: nat, equalSize: bool) returns (pq: seq<State>)
    requires vals != [] && k > 0 && (equalSize ==> |vals| % k == 0)
    ensures pq == Queue(vals, k, equalSize)
  {
    hide InitialStates;
    var order, size := SortedIndices(vals, |vals|), if equalSize then k else 1;
    SortedIndicesPermute(vals, |vals|);
    pq := PushAll(vals, k, order, size, Turns(|vals|, size));
  }

  /** One turn of the loop. */
  method MergeSoonest(pq: seq<State>, k: nat) returns (pq': seq<State>)
    requires |pq| > 1 && Sized(pq, k)
    ensures pq' == MergeTwo(pq, k)
  {
    hide Head, Merge;
    var state0, rest := PopSoonest(pq, k);
    var state1, rest' := PopSoonest(rest, k);
    pq' := rest' + [Merge(state0, state1)];
  }
}
