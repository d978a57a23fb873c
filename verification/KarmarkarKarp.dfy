/** The k-way largest differencing method: every merge conserves the items and never widens the spread. */
module KarmarkarKarp {
  import opened Arithmetic
  import opened Partitions

  /** A `Set`: the indices it holds and their running sum. (The values stored beside the indices are `vals[index]`.) */
  datatype Bin = Bin(items: seq<nat>, sum: int)

  /** The sets of a `State`, in decreasing order. */
  type State = seq<Bin>

  /** Comparison of item lists of equal length. */
  predicate ItemsLess(a: seq<nat>, b: seq<nat>) {
    if b == [] then false
    else if a == [] then true
    else if a[0] != b[0] then a[0] < b[0]
    else ItemsLess(a[1..], b[1..])
  }

  /** `Set.__lt__` */
  predicate Less(a: Bin, b: Bin) {
    if a.sum != b.sum then a.sum < b.sum
    else if |a.items| != |b.items| then |a.items| < |b.items|
    else ItemsLess(a.items, b.items)
  }

  function Insert(x: Bin, bins: State): State {
    if bins == [] then [x]
    else if Less(bins[0], x) then [x] + bins
    else [bins[0]] + Insert(x, bins[1..])
  }

  /** `sorted(sets, reverse=True)` */
  function SortDown(bins: State): State {
    if bins == [] then [] else Insert(bins[0], SortDown(bins[1..]))
  }

  function MergeBins(a: Bin, b: Bin): Bin { Bin(a.items + b.items, a.sum + b.sum) }

  /** The largest set of one state meets the smallest of the other. */
  function Zip(s: State, t: State): State
    requires |s| == |t|
  {
    if s == [] then [] else [MergeBins(s[0], t[|t| - 1])] + Zip(s[1..], t[..|t| - 1])
  }

  function Merge(s: State, t: State): State
    requires |s| == |t|
  {
    SortDown(Zip(s, t))
  }

  function Spread(s: State): int
    requires s != []
  {
    s[0].sum - s[|s| - 1].sum
  }

  /** `State.__lt__`: the state to be popped first. */
  predicate Sooner(a: State, b: State)
    requires a != [] && b != []
  {
    if Spread(a) != Spread(b) then Spread(a) > Spread(b) else Less(b[0], a[0])
  }

  function Singles(vals: seq<int>, items: seq<nat>): State {
    if items == [] then [] else [Bin([items[0]], Value(vals, items[0]))] + Singles(vals, items[1..])
  }

  function Empties(n: nat): State {
    if n == 0 then [] else [Bin([], 0)] + Empties(n - 1)
  }

  /** `State.__init__` */
  function Start(vals: seq<int>, items: seq<nat>, k: nat): State
    requires |items| <= k
  {
    SortDown(Singles(vals, items) + Empties(k - |items|))
  }

  /** How often index `i` occurs in the sets of `s`. */
  function Count(s: State, i: nat): nat {
    if s == [] then 0 else multiset(s[0].items)[i] + Count(s[1..], i)
  }

  /** The number of items in the sets of `s`. */
  function Size(s: State): nat {
    if s == [] then 0 else |s[0].items| + Size(s[1..])
  }

  // ----- What holds of every state -----

  /** At least as large by sum, then by number of items. */
  predicate AtLeast(a: Bin, b: Bin) {
    a.sum > b.sum || (a.sum == b.sum && |a.items| >= |b.items|)
  }

  ghost predicate Sorted(s: State) {
    forall i, j :: 0 <= i < j < |s| ==> AtLeast(s[i], s[j])
  }

  ghost predicate Exact(vals: seq<int>, s: State) {
    forall b :: b in s ==> b.sum == Load(vals, b.items)
  }

  ghost predicate Within(s: State, d: int) {
    forall a, b :: a in s && b in s ==> a.sum - b.sum <= d
  }

  ghost predicate Filled(s: State) {
    forall b :: b in s ==> b.items != []
  }

  ghost predicate Small(s: State) {
    forall b :: b in s ==> |b.items| <= 1
  }

  ghost predicate SameSize(s: State) {
    forall a, b :: a in s && b in s ==> |a.items| == |b.items|
  }

  // ----- Sorting -----

  lemma {:induction false} InsertPermutes(x: Bin, bins: State)
    ensures multiset(Insert(x, bins)) == multiset(bins) + multiset{x}
  {
    if bins != [] {
      assert bins == [bins[0]] + bins[1..];
      if !Less(bins[0], x) {
        InsertPermutes(x, bins[1..]);
      }
    }
  }

  lemma {:induction false} InsertConserves(x: Bin, bins: State, i: nat)
    ensures Count(Insert(x, bins), i) == Count(bins, i) + multiset(x.items)[i]
    ensures Size(Insert(x, bins)) == Size(bins) + |x.items|
  {
    if bins != [] && !Less(bins[0], x) {
      InsertConserves(x, bins[1..], i);
    } else {
      assert ([x] + bins)[1..] == bins;
    }
  }

  lemma {:induction false} InsertSorts(x: Bin, bins: State)
    requires Sorted(bins)
    ensures Sorted(Insert(x, bins))
  {
    if bins != [] && !Less(bins[0], x) {
      InsertSorts(x, bins[1..]);
      InsertPermutes(x, bins[1..]);
      var r := Insert(x, bins[1..]);
      forall j | 0 <= j < |r| ensures AtLeast(bins[0], r[j]) {
        assert r[j] in multiset(r);
        assert r[j] == x || r[j] in bins[1..];
      }
    }
  }

  lemma {:induction false} SortDownSorts(bins: State)
    ensures Sorted(SortDown(bins)) && |SortDown(bins)| == |bins|
    ensures multiset(SortDown(bins)) == multiset(bins)
  {
    if bins != [] {
      SortDownSorts(bins[1..]);
      InsertSorts(bins[0], SortDown(bins[1..]));
      InsertPermutes(bins[0], SortDown(bins[1..]));
      assert bins == [bins[0]] + bins[1..];
      assert |multiset(SortDown(bins))| == |SortDown(bins)|;
      assert |multiset(bins)| == |bins|;
    }
  }

  lemma {:induction false} SortDownConserves(bins: State, i: nat)
    ensures Count(SortDown(bins), i) == Count(bins, i) && Size(SortDown(bins)) == Size(bins)
  {
    if bins != [] {
      SortDownConserves(bins[1..], i);
      InsertConserves(bins[0], SortDown(bins[1..]), i);
    }
  }

  lemma SameMembers(s: State, t: State, b: Bin)
    requires multiset(s) == multiset(t)
    ensures b in s <==> b in t
  {
    assert b in s <==> b in multiset(s);
    assert b in t <==> b in multiset(t);
  }

  // ----- Merging -----

  lemma {:induction false} ZipAt(s: State, t: State, i: nat)
    requires |s| == |t| && i < |s|
    ensures |Zip(s, t)| == |s| && Zip(s, t)[i] == MergeBins(s[i], t[|t| - 1 - i])
  {
    if i == 0 {
      if |s| > 1 {
        ZipAt(s[1..], t[..|t| - 1], 0);
      }
    } else {
      ZipAt(s[1..], t[..|t| - 1], i - 1);
    }
  }

  lemma {:induction false} StateSnoc(t: State, i: nat)
    requires t != []
    ensures Count(t, i) == Count(t[..|t| - 1], i) + multiset(t[|t| - 1].items)[i]
    ensures Size(t) == Size(t[..|t| - 1]) + |t[|t| - 1].items|
  {
    if |t| > 1 {
      StateSnoc(t[1..], i);
      assert t[1..][..|t| - 2] == t[..|t| - 1][1..];
    }
  }

  lemma {:induction false} ZipConserves(s: State, t: State, i: nat)
    requires |s| == |t|
    ensures Count(Zip(s, t), i) == Count(s, i) + Count(t, i)
    ensures Size(Zip(s, t)) == Size(s) + Size(t)
  {
    if s != [] {
      ZipConserves(s[1..], t[..|t| - 1], i);
      StateSnoc(t, i);
    }
  }

  /** A merge conserves the items: every index occurs as often as in the two states together. */
  lemma MergeConserves(s: State, t: State, i: nat)
    requires |s| == |t|
    ensures Count(Merge(s, t), i) == Count(s, i) + Count(t, i)
    ensures Size(Merge(s, t)) == Size(s) + Size(t)
  {
    ZipConserves(s, t, i);
    SortDownConserves(Zip(s, t), i);
  }

  lemma MergeSorts(s: State, t: State)
    requires |s| == |t|
    ensures |Merge(s, t)| == |s| && Sorted(Merge(s, t))
  {
    SortDownSorts(Zip(s, t));
    if s != [] {
      ZipAt(s, t, 0);
    }
  }

  /** Where a set of the merged state comes from. */
  lemma MergedFrom(s: State, t: State, b: Bin) returns (i: nat)
    requires |s| == |t| && b in Merge(s, t)
    ensures i < |s| && b == MergeBins(s[i], t[|t| - 1 - i])
  {
    SortDownSorts(Zip(s, t));
    SameMembers(Merge(s, t), Zip(s, t), b);
    if s != [] {
      ZipAt(s, t, 0);
    }
    i :| 0 <= i < |Zip(s, t)| && Zip(s, t)[i] == b;
    ZipAt(s, t, i);
  }

  lemma MergeExact(vals: seq<int>, s: State, t: State)
    requires |s| == |t| && Exact(vals, s) && Exact(vals, t)
    ensures Exact(vals, Merge(s, t))
  {
    forall b | b in Merge(s, t) ensures b.sum == Load(vals, b.items) {
      var i := MergedFrom(s, t, b);
      LoadPlus(vals, s[i].items, t[|t| - 1 - i].items);
    }
  }

  /** Two sets of the merged state differ by no more than two sets of one of the merged states. */
  lemma MergeWithin(s: State, t: State, d: int)
    requires |s| == |t| && Sorted(s) && Sorted(t) && Within(s, d) && Within(t, d)
    ensures Within(Merge(s, t), d)
  {
    forall a, b | a in Merge(s, t) && b in Merge(s, t) ensures a.sum - b.sum <= d {
      var i := MergedFrom(s, t, a);
      var j := MergedFrom(s, t, b);
      var m := |t| - 1;
      assert s[i] in s && s[j] in s && t[m - i] in t && t[m - j] in t;
      if i < j {
        assert AtLeast(t[m - j], t[m - i]);
      } else if j < i {
        assert AtLeast(s[j], s[i]);
      }
    }
  }

  lemma SortedWithin(s: State)
    requires s != [] && Sorted(s)
    ensures Within(s, Spread(s)) && Spread(s) >= 0
  {
    forall a, b | a in s && b in s ensures a.sum - b.sum <= Spread(s) {
      var i :| 0 <= i < |s| && s[i] == a;
      var j :| 0 <= j < |s| && s[j] == b;
      assert i > 0 ==> AtLeast(s[0], s[i]);
      assert j < |s| - 1 ==> AtLeast(s[j], s[|s| - 1]);
    }
  }

  /** The differencing step: the spread of the merged state is at most the larger of the two spreads. */
  lemma MergeSpread(s: State, t: State)
    requires |s| == |t| > 0 && Sorted(s) && Sorted(t)
    ensures |Merge(s, t)| == |s|
    ensures Spread(Merge(s, t)) <= Max(Spread(s), Spread(t))
  {
    var d := Max(Spread(s), Spread(t));
    SortedWithin(s);
    SortedWithin(t);
    MergeWithin(s, t, d);
    MergeSorts(s, t);
    var r := Merge(s, t);
    assert r[0] in r && r[|r| - 1] in r;
  }

  /** Sums and lengths put the empty sets last. */
  lemma EmptiesLast(vals: seq<int>, s: State, i: nat, j: nat)
    requires NonNegative(vals) && Exact(vals, s) && Sorted(s) && i <= j < |s| && s[i].items == []
    ensures s[j].items == []
  {
    assert s[i] in s && s[j] in s;
    LoadNonNegative(vals, s[j].items);
    if i < j {
      assert AtLeast(s[i], s[j]);
    }
  }

  /** With non-negative values a state has no empty set, or nothing but singletons and empty sets. */
  lemma MergeShape(vals: seq<int>, s: State, t: State)
    requires NonNegative(vals) && |s| == |t| && Sorted(s) && Sorted(t) && Exact(vals, s) && Exact(vals, t)
    requires (Filled(s) || Small(s)) && (Filled(t) || Small(t))
    ensures Filled(Merge(s, t)) || Small(Merge(s, t))
  {
    var m := |t| - 1;
    if e :| 0 <= e <= m && s[e].items == [] && t[m - e].items == [] {
      assert s[e] in s && t[m - e] in t;
      forall b | b in Merge(s, t) ensures |b.items| <= 1 {
        var i := MergedFrom(s, t, b);
        assert s[i] in s && t[m - i] in t;
        if i >= e {
          EmptiesLast(vals, s, e, i);
        } else {
          EmptiesLast(vals, t, m - e, m - i);
        }
      }
    } else {
      forall b | b in Merge(s, t) ensures b.items != [] {
        var i := MergedFrom(s, t, b);
      }
    }
  }

  lemma MergeSameSize(s: State, t: State)
    requires |s| == |t| && SameSize(s) && SameSize(t)
    ensures SameSize(Merge(s, t))
  {
    forall a, b | a in Merge(s, t) && b in Merge(s, t) ensures |a.items| == |b.items| {
      var i := MergedFrom(s, t, a);
      var j := MergedFrom(s, t, b);
      var m := |t| - 1;
      assert s[i] in s && s[j] in s && t[m - i] in t && t[m - j] in t;
    }
  }

  // ----- Initial states -----

  /** A set of an initial state: empty, or one of the given items. */
  predicate FromItems(vals: seq<int>, items: seq<nat>, b: Bin) {
    b == Bin([], 0) || (|b.items| == 1 && b.items[0] in items && b.sum == Value(vals, b.items[0]))
  }

  lemma {:induction false} SinglesFromItems(vals: seq<int>, items: seq<nat>, b: Bin)
    requires b in Singles(vals, items)
    ensures FromItems(vals, items, b) && |b.items| == 1
  {
    if b != Singles(vals, items)[0] {
      SinglesFromItems(vals, items[1..], b);
    }
  }

  lemma {:induction false} CountPlus(s: State, t: State, i: nat)
    ensures Count(s + t, i) == Count(s, i) + Count(t, i) && Size(s + t) == Size(s) + Size(t)
  {
    if s == [] {
      assert s + t == t;
    } else {
      CountPlus(s[1..], t, i);
      assert (s + t)[1..] == s[1..] + t;
    }
  }

  lemma {:induction false} SinglesCount(vals: seq<int>, items: seq<nat>, i: nat)
    ensures Count(Singles(vals, items), i) == multiset(items)[i]
    ensures Size(Singles(vals, items)) == |Singles(vals, items)| == |items|
  {
    if items != [] {
      SinglesCount(vals, items[1..], i);
      assert items == [items[0]] + items[1..];
    }
  }

  lemma {:induction false} EmptiesAre(n: nat)
    ensures |Empties(n)| == n && Size(Empties(n)) == 0
    ensures forall b :: b in Empties(n) ==> b == Bin([], 0)
  {
    if n > 0 {
      EmptiesAre(n - 1);
    }
  }

  lemma {:induction false} EmptiesCount(n: nat, i: nat)
    ensures Count(Empties(n), i) == 0
  {
    if n > 0 {
      EmptiesCount(n - 1, i);
    }
  }

  /** A bound on the spread of any initial state, from the values alone. */
  function Widest(vals: seq<int>, equalSize: bool): int
    requires vals != []
  {
    if equalSize then Greatest(vals) - Least(vals) else Max(Greatest(vals), -Least(vals))
  }

  function Greatest(vals: seq<int>): (g: int)
    requires vals != []
    ensures g in vals && forall v :: v in vals ==> v <= g
  {
    if |vals| == 1 then vals[0] else
      var g := Greatest(vals[1..]);
      assert vals == [vals[0]] + vals[1..];
      Max(vals[0], g)
  }

  function Least(vals: seq<int>): (l: int)
    requires vals != []
    ensures l in vals && forall v :: v in vals ==> l <= v
  {
    if |vals| == 1 then vals[0] else
      var l := Least(vals[1..]);
      assert vals == [vals[0]] + vals[1..];
      if vals[0] <= l then vals[0] else l
  }

  /** Everything the proof needs to know about a state in the queue. */
  ghost predicate Good(vals: seq<int>, k: nat, equalSize: bool, d: int, s: State) {
    && |s| == k && Sorted(s) && Exact(vals, s) && Within(s, d)
    && (NonNegative(vals) ==> Filled(s) || Small(s))
    && (equalSize ==> SameSize(s))
  }

  lemma StartFrom(vals: seq<int>, k: nat, items: seq<nat>, b: Bin)
    requires |items| <= k && b in Start(vals, items, k)
    ensures FromItems(vals, items, b) && (|items| == k ==> |b.items| == 1)
  {
    var bins := Singles(vals, items) + Empties(k - |items|);
    SortDownSorts(bins);
    SameMembers(Start(vals, items, k), bins, b);
    EmptiesAre(k - |items|);
    if b in Singles(vals, items) {
      SinglesFromItems(vals, items, b);
    }
  }

  lemma FromItemsSum(vals: seq<int>, items: seq<nat>, b: Bin)
    requires vals != [] && FromItems(vals, items, b) && forall i :: i in items ==> i < |vals|
    ensures b.sum == Load(vals, b.items) && |b.items| <= 1
    ensures |b.items| == 1 ==> Least(vals) <= b.sum <= Greatest(vals)
    ensures |b.items| == 0 ==> b.sum == 0
  {
    if |b.items| == 1 {
      assert vals[b.items[0]] in vals;
      assert b.items[1..] == [];
    }
  }

  lemma StartSpread(vals: seq<int>, k: nat, equalSize: bool, items: seq<nat>)
    requires vals != [] && |items| == (if equalSize then k else 1) && 0 < k && forall i :: i in items ==> i < |vals|
    ensures Start(vals, items, k) != [] && Spread(Start(vals, items, k)) <= Widest(vals, equalSize)
  {
    var s := Start(vals, items, k);
    StartShape(vals, k, items);
    var a, b := s[0], s[|s| - 1];
    assert a in s && b in s;
    hide Start, Count;
    StartFrom(vals, k, items, a);
    StartFrom(vals, k, items, b);
    FromItemsSum(vals, items, a);
    FromItemsSum(vals, items, b);
  }

  lemma StartItems(vals: seq<int>, k: nat, items: seq<nat>, i: nat)
    requires |items| <= k
    ensures Count(Start(vals, items, k), i) == multiset(items)[i] && Size(Start(vals, items, k)) == |items|
  {
    hide Count, Size, Empties, Singles, SortDown;
    var empties := Empties(k - |items|);
    EmptiesAre(k - |items|);
    EmptiesCount(k - |items|, i);
    SinglesCount(vals, items, i);
    CountPlus(Singles(vals, items), empties, i);
    SortDownConserves(Singles(vals, items) + empties, i);
  }

  lemma StartShape(vals: seq<int>, k: nat, items: seq<nat>)
    requires |items| <= k
    ensures |Start(vals, items, k)| == k && Sorted(Start(vals, items, k))
  {
    EmptiesAre(k - |items|);
    SinglesCount(vals, items, 0);
    SortDownSorts(Singles(vals, items) + Empties(k - |items|));
  }

  lemma StartGood(vals: seq<int>, k: nat, equalSize: bool, d: int, items: seq<nat>)
    requires vals != [] && |items| == (if equalSize then k else 1) && 0 < k && forall i :: i in items ==> i < |vals|
    requires Start(vals, items, k) != [] && Spread(Start(vals, items, k)) <= d
    ensures Good(vals, k, equalSize, d, Start(vals, items, k))
  {
    hide Count, Size, Start, SortDown, Load, FromItems;
    var s := Start(vals, items, k);
    StartShape(vals, k, items);
    SortedWithin(s);
    forall b | b in s ensures b.sum == Load(vals, b.items) && |b.items| <= 1 && (equalSize ==> |b.items| == 1) {
      StartFrom(vals, k, items, b);
      FromItemsSum(vals, items, b);
    }
  }

  lemma MergeGood(vals: seq<int>, k: nat, equalSize: bool, d: int, s: State, t: State)
    requires Good(vals, k, equalSize, d, s) && Good(vals, k, equalSize, d, t)
    ensures Good(vals, k, equalSize, d, Merge(s, t))
  {
    hide Sorted, Exact, Within, Filled, Small, SameSize, NonNegative;
    MergeSorts(s, t);
    MergeExact(vals, s, t);
    MergeWithin(s, t, d);
    if NonNegative(vals) {
      MergeShape(vals, s, t);
    }
    if equalSize {
      MergeSameSize(s, t);
    }
  }

  // ----- Items that stay apart -----

  lemma {:induction false} CountIn(s: State, i: nat)
    ensures Count(s, i) > 0 <==> exists j :: 0 <= j < |s| && i in s[j].items
  {
    if s != [] {
      CountIn(s[1..], i);
      if j :| 0 <= j < |s| && i in s[j].items {
        if j > 0 {
          assert s[1..][j - 1] == s[j];
        }
      }
      if j :| 0 <= j < |s| - 1 && i in s[1..][j].items {
        assert s[j + 1] == s[1..][j];
      }
    }
  }

  /** The state holds both items or neither, and never both in the same set. */
  ghost predicate Apart(s: State, x: nat, y: nat) {
    && (Count(s, x) > 0 <==> Count(s, y) > 0)
    && forall j :: 0 <= j < |s| ==> !(x in s[j].items && y in s[j].items)
  }

  /** Merging a state that keeps the items apart with one that does not hold them keeps them apart. */
  lemma MergeApart(s: State, t: State, x: nat, y: nat)
    requires |s| == |t| && Apart(s, x, y) && Apart(t, x, y) && (Count(s, x) == 0 || Count(t, x) == 0)
    ensures Apart(Merge(s, t), x, y)
  {
    MergeConserves(s, t, x);
    MergeConserves(s, t, y);
    CountIn(s, x);
    CountIn(s, y);
    CountIn(t, x);
    CountIn(t, y);
    hide Merge, Count;
    forall j | 0 <= j < |Merge(s, t)| ensures !(x in Merge(s, t)[j].items && y in Merge(s, t)[j].items) {
      var b := Merge(s, t)[j];
      var i := MergedFrom(s, t, b);
      assert b.items == s[i].items + t[|t| - 1 - i].items;
    }
  }

  /** The first state spreads its items over its sets, one each. */
  lemma StartApart(vals: seq<int>, k: nat, items: seq<nat>, x: nat, y: nat)
    requires |items| <= k && x != y && (x in items <==> y in items)
    ensures Apart(Start(vals, items, k), x, y)
  {
    var s := Start(vals, items, k);
    StartItems(vals, k, items, x);
    StartItems(vals, k, items, y);
    hide Start, Count;
    forall j | 0 <= j < |s| ensures !(x in s[j].items && y in s[j].items) {
      assert s[j] in s;
      StartFrom(vals, k, items, s[j]);
    }
  }
}
