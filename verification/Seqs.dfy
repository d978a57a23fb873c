/** Concatenation of a list of lists, and selection by index. */
module Seqs {
  function Concat<T>(parts: seq<seq<T>>): seq<T> {
    if parts == [] then [] else Concat(parts[..|parts| - 1]) + parts[|parts| - 1]
  }

  lemma ConcatSnoc<T>(parts: seq<seq<T>>, p: seq<T>)
    ensures Concat(parts + [p]) == Concat(parts) + p
  {
    assert (parts + [p])[..|parts|] == parts;
  }

  lemma {:induction false} ConcatPlus<T>(a: seq<seq<T>>, b: seq<seq<T>>)
    ensures Concat(a + b) == Concat(a) + Concat(b)
    decreases |b|
  {
    if b == [] {
      assert a + b == a;
    } else {
      var front := b[..|b| - 1];
      ConcatPlus(a, front);
      ConcatLast(b);
      hide Concat;
      assert a + b == (a + front) + [b[|b| - 1]];
      ConcatSnoc(a + front, b[|b| - 1]);
    }
  }

  lemma ConcatLast<T>(parts: seq<seq<T>>)
    requires parts != []
    ensures Concat(parts) == Concat(parts[..|parts| - 1]) + parts[|parts| - 1]
  {
  }

  lemma ConcatCons<T>(p: seq<T>, parts: seq<seq<T>>)
    ensures Concat([p] + parts) == p + Concat(parts)
  {
    ConcatPlus([p], parts);
    assert [p][..0] == [];
  }

  /** One part grows by one element. */
  lemma {:induction false} ConcatGrows<T>(parts: seq<seq<T>>, k: nat, x: T)
    requires k < |parts|
    ensures multiset(Concat(parts[k := parts[k] + [x]])) == multiset(Concat(parts)) + multiset{x}
    decreases |parts|
  {
    hide Concat;
    var last := |parts| - 1;
    var grown := parts[k := parts[k] + [x]];
    ConcatLast(parts);
    ConcatLast(grown);
    if k < last {
      ConcatGrows(parts[..last], k, x);
      assert grown[..last] == parts[..last][k := parts[k] + [x]];
    } else {
      assert grown[..last] == parts[..last];
    }
  }

  /** The parts before `parts[k]` are a prefix of the whole, and `parts[k]` follows them. */
  lemma ConcatTake<T>(parts: seq<seq<T>>, k: nat)
    requires k <= |parts|
    ensures Concat(parts[..k]) <= Concat(parts)
    ensures k < |parts| ==> Concat(parts[..k]) + parts[k] <= Concat(parts)
  {
    hide Concat;
    ConcatPlus(parts[..k], parts[k..]);
    assert parts[..k] + parts[k..] == parts;
    if k < |parts| {
      ConcatCons(parts[k], parts[k..][1..]);
      assert parts[k..] == [parts[k]] + parts[k..][1..];
      PrefixOfThree(Concat(parts[..k]), parts[k], Concat(parts[k..][1..]));
    }
  }

  lemma PrefixOfThree<T>(a: seq<T>, b: seq<T>, c: seq<T>)
    ensures a + b <= a + (b + c)
  {
    assert a + (b + c) == a + b + c;
  }

  /** All the indices are below `n`. */
  predicate InRange(part: seq<nat>, n: nat) {
    forall k :: 0 <= k < |part| ==> part[k] < n
  }

  /** The elements at the given indices. */
  function Select<T>(rows: seq<T>, part: seq<nat>): (r: seq<T>)
    requires InRange(part, |rows|)
    ensures |r| == |part|
  {
    seq(|part|, k requires 0 <= k < |part| => rows[part[k]])
  }

  /** A slice bound: negative bounds count from the end, and bounds outside the list are clamped. */
  function Bound(i: int, n: nat): (r: nat)
    ensures r <= n
  {
    if i < 0 then (if n + i < 0 then 0 else n + i) else if i > n then n else i
  }

  /** `s[lo:hi]` */
  function Slice<T>(s: seq<T>, lo: int, hi: int): seq<T> {
    if Bound(lo, |s|) <= Bound(hi, |s|) then s[Bound(lo, |s|)..Bound(hi, |s|)] else []
  }

  function Sum(s: seq<nat>): nat {
    if s == [] then 0 else Sum(s[..|s| - 1]) + s[|s| - 1]
  }

  lemma SumSnoc(s: seq<nat>, x: nat)
    ensures Sum(s + [x]) == Sum(s) + x
  {
    assert (s + [x])[..|s|] == s;
  }

  lemma SameElements<T>(a: seq<T>, b: seq<T>)
    requires multiset(a) == multiset(b)
    ensures |a| == |b| && forall x :: x in a <==> x in b
  {
    assert |multiset(a)| == |a| && |multiset(b)| == |b|;
    forall x ensures x in a <==> x in b {
      assert x in a <==> x in multiset(a);
      assert x in b <==> x in multiset(b);
    }
  }

  ghost predicate Distinct<T>(s: seq<T>) {
    forall i, j :: 0 <= i < j < |s| ==> s[i] != s[j]
  }

  lemma CountSnoc<T>(a: seq<T>, x: T, y: T)
    ensures multiset(a + [x])[y] == multiset(a)[y] + if x == y then 1 else 0
  {
  }

  lemma {:induction false} DistinctCount<T>(s: seq<T>, y: T)
    requires Distinct(s)
    ensures multiset(s)[y] <= 1
  {
    if s != [] {
      var last := |s| - 1;
      assert s == s[..last] + [s[last]];
      DistinctCount(s[..last], y);
      CountSnoc(s[..last], s[last], y);
      assert s[last] !in s[..last];
    }
  }

  lemma TwiceCount<T>(s: seq<T>, i: nat, j: nat)
    requires i < j < |s| && s[i] == s[j]
    ensures multiset(s)[s[i]] >= 2
  {
    assert s == s[..j] + s[j..];
    assert s[i] in s[..j] && s[i] in s[j..];
  }
}
