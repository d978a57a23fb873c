/** Splitting fused query/key/value weights: rows grouped by key/value head into separate q, k and v. */
module Qkv {
  import opened Arithmetic
  import opened Options
  import opened Seqs
  import opened Matrices

  datatype Qkv<T> = Qkv(q: seq<T>, k: seq<T>, v: seq<T>)

  // ----- Chunks -----

  /** Pieces of `size` rows; the last one may be shorter. */
  function Chunks<T>(s: seq<T>, size: nat): seq<seq<T>>
    requires size > 0
  {
    if |s| <= size then (if s == [] then [] else [s]) else [s[..size]] + Chunks(s[size..], size)
  }

  /** `tensor.chunk(n)` */
  function Chunk<T>(s: seq<T>, n: nat): seq<seq<T>>
    requires n > 0
  {
    if s == [] then seq(n, _ => []) else Chunks(s, (|s| + n - 1) / n)
  }

  /** `s` is `m` chunks of `size` rows. */
  lemma {:induction false} ChunksAre<T>(s: seq<T>, size: nat, m: nat)
    requires size > 0 && |s| == m * size
    ensures |Chunks(s, size)| == m && IsMatrix(Chunks(s, size), size) && Concat(Chunks(s, size)) == s
  {
    if m > 0 {
      StepDown(m, size);
      if m > 1 {
        StepDown(m - 1, size);
        ChunksAre(s[size..], size, m - 1);
        ConcatCons(s[..size], Chunks(s[size..], size));
      } else {
        assert [s][..0] == [];
      }
    }
  }

  lemma {:induction false} ChunksPlus<T>(a: seq<T>, b: seq<T>, size: nat, m: nat)
    requires size > 0 && |a| == m * size
    ensures Chunks(a + b, size) == Chunks(a, size) + Chunks(b, size)
  {
    if m == 0 {
      assert a + b == b;
    } else {
      StepDown(m, size);
      assert (m - 1) * size >= 0;
      assert (a + b)[..size] == a[..size] && (a + b)[size..] == a[size..] + b;
      ChunksPlus(a[size..], b, size, m - 1);
      if b == [] {
        assert a + b == a;
      }
    }
  }

  /** Rows `lo` to `hi` of every chunk. */
  function Pieces<T>(chunks: seq<seq<T>>, lo: nat, hi: nat): (r: seq<seq<T>>)
    ensures |r| == |chunks|
  {
    seq(|chunks|, i requires 0 <= i < |chunks| => Slice(chunks[i], lo, hi))
  }

  // ----- What the split means -----

  /** The split of a tensor whose groups consist of `a` query heads, a key head and a value head of `h` rows each. */
  function Split<T>(tensor: seq<T>, a: nat, h: nat): Qkv<T> {
    if h == 0 then Qkv([], [], []) else
      PositiveProduct(h, a + 2);
      SplitOf(Chunks(tensor, h * (a + 2)), a, h)
  }

  function SplitOf<T>(groups: seq<seq<T>>, a: nat, h: nat): Qkv<T> {
    Qkv(Concat(Pieces(groups, 0, h * a)), Concat(Pieces(groups, h * a, h * a + h)),
        Concat(Pieces(groups, h * a + h, h * (a + 2))))
  }

  /** The rows of one group: queries, then keys, then values. */
  lemma GroupSize(h: nat, a: nat)
    ensures h * (a + 2) == h * a + h + h
  {
  }

  ghost predicate RowAt<T>(part: seq<T>, i: nat, row: T) {
    i < |part| && part[i] == row
  }

  lemma PieceAt<T>(groups: seq<seq<T>>, size: nat, lo: nat, hi: nat, n: nat, b: nat, r: nat)
    requires IsMatrix(groups, size) && lo + n == hi <= size && b < |groups| && r < n
    ensures Flat(b, lo + r, size) < |Concat(groups)|
    ensures RowAt(Concat(Pieces(groups, lo, hi)), Flat(b, r, n), Concat(groups)[Flat(b, lo + r, size)])
  {
    hide *;
    PieceRow(groups, size, lo, hi, n, b, r);
    FlattenAt(groups, size, b, lo + r);
    FlattenAt(Pieces(groups, lo, hi), n, b, r);
    IsRowAt(Concat(Pieces(groups, lo, hi)), Flat(b, r, n));
  }

  lemma PieceRow<T>(groups: seq<seq<T>>, size: nat, lo: nat, hi: nat, n: nat, b: nat, r: nat)
    requires IsMatrix(groups, size) && lo + n == hi <= size && b < |groups| && r < n
    ensures |groups[b]| == size && |Pieces(groups, lo, hi)[b]| == n && IsMatrix(Pieces(groups, lo, hi), n)
    ensures Pieces(groups, lo, hi)[b][r] == groups[b][lo + r]
  {
  }

  lemma IsRowAt<T>(part: seq<T>, i: nat)
    requires i < |part|
    ensures RowAt(part, i, part[i])
  {
  }

  /** A group: `x` rows of queries, `h` of the key and `h` of the value. */
  predicate IsGroup(a: nat, h: nat, x: nat, size: nat) {
    h > 0 && x == h * a && size == h * (a + 2)
  }

  lemma GroupRows<T>(tensor: seq<T>, a: nat, h: nat, x: nat, size: nat)
    requires IsGroup(a, h, x, size)
    ensures 0 < size == x + h + h && Split(tensor, a, h) == Thirds(Chunks(tensor, size), x, x + h, size)
  {
    PositiveProduct(h, a + 2);
    GroupSize(h, a);
  }

  /** Where every row goes: row `r` of group `b` is a row of the queries, of the keys or of the values of that group. */
  lemma SplitAt<T>(tensor: seq<T>, a: nat, h: nat, x: nat, size: nat, m: nat, b: nat, r: nat)
    requires IsGroup(a, h, x, size) && |tensor| == m * size && b < m && r < size
    ensures size == x + h + h && Flat(b, r, size) < |tensor|
    ensures r < x ==> RowAt(Split(tensor, a, h).q, Flat(b, r, x), tensor[Flat(b, r, size)])
    ensures x <= r < x + h ==> RowAt(Split(tensor, a, h).k, Flat(b, r - x, h), tensor[Flat(b, r, size)])
    ensures x + h <= r ==> RowAt(Split(tensor, a, h).v, Flat(b, r - x - h, h), tensor[Flat(b, r, size)])
  {
    hide *;
    GroupRows(tensor, a, h, x, size);
    ChunksAre(tensor, size, m);
    var groups := Chunks(tensor, size);
    ThirdsParts(groups, x, x + h, size);
    FlattenAt(groups, size, b, r);
    if r < x {
      PieceAt(groups, size, 0, x, x, b, r);
    } else if r < x + h {
      PieceAt(groups, size, x, x + h, h, b, r - x);
    } else {
      PieceAt(groups, size, x + h, size, h, b, r - x - h);
    }
  }

  lemma ThirdsParts<T>(groups: seq<seq<T>>, x: nat, y: nat, size: nat)
    ensures var s := Thirds(groups, x, y, size);
      s.q == Concat(Pieces(groups, 0, x)) && s.k == Concat(Pieces(groups, x, y)) && s.v == Concat(Pieces(groups, y, size))
  {
  }

  /** How many rows each part has. */
  lemma SplitSizes<T>(tensor: seq<T>, a: nat, h: nat, x: nat, size: nat, m: nat)
    requires IsGroup(a, h, x, size) && |tensor| == m * size
    ensures var s := Split(tensor, a, h); |s.q| == m * x && |s.k| == |s.v| == m * h
  {
    hide *;
    GroupRows(tensor, a, h, x, size);
    ChunksAre(tensor, size, m);
    ThirdSizes(Chunks(tensor, size), x, h, size);
  }

  /** The pieces of all groups, cut at `x` and `y`. */
  function Thirds<T>(groups: seq<seq<T>>, x: nat, y: nat, size: nat): Qkv<T> {
    Qkv(Concat(Pieces(groups, 0, x)), Concat(Pieces(groups, x, y)), Concat(Pieces(groups, y, size)))
  }

  lemma ThirdSizes<T>(groups: seq<seq<T>>, x: nat, h: nat, size: nat)
    requires IsMatrix(groups, size) && size == x + h + h
    ensures var s := Thirds(groups, x, x + h, size);
      |s.q| == |groups| * x && |s.k| == |groups| * h && |s.v| == |groups| * h
  {
    FlattenedSize(Pieces(groups, 0, x), x);
    FlattenedSize(Pieces(groups, x, x + h), h);
    FlattenedSize(Pieces(groups, x + h, size), h);
  }

  /** The three parts together are a permutation of the rows. */
  ghost predicate SameRows<T>(s: Qkv<T>, tensor: seq<T>) {
    multiset(s.q + s.k + s.v) == multiset(tensor)
  }

  /** Nothing is lost. */
  lemma SplitPermutes<T>(tensor: seq<T>, a: nat, h: nat, x: nat, size: nat, m: nat)
    requires IsGroup(a, h, x, size) && |tensor| == m * size
    ensures SameRows(Split(tensor, a, h), tensor)
  {
    hide *;
    GroupRows(tensor, a, h, x, size);
    ChunksAre(tensor, size, m);
    PiecesPermute(Chunks(tensor, size), x, x + h, size);
  }

  lemma {:induction false} PiecesPermute<T>(groups: seq<seq<T>>, x: nat, y: nat, size: nat)
    requires IsMatrix(groups, size) && x <= y <= size
    ensures SameRows(Thirds(groups, x, y, size), Concat(groups))
    decreases |groups|
  {
    hide SameRows, Thirds, Concat;
    if groups == [] {
      NoRows<T>(x, y, size);
    } else {
      var front, last := groups[..|groups| - 1], groups[|groups| - 1];
      PiecesPermute(front, x, y, size);
      PermuteSnoc(front, last, x, y, size);
      assert groups == front + [last];
    }
  }

  lemma PermuteSnoc<T>(groups: seq<seq<T>>, last: seq<T>, x: nat, y: nat, size: nat)
    requires x <= y <= size == |last| && SameRows(Thirds(groups, x, y, size), Concat(groups))
    ensures SameRows(Thirds(groups + [last], x, y, size), Concat(groups + [last]))
  {
    hide *;
    ThirdsSnoc(groups, last, x, y, size);
    ConcatSnoc(groups, last);
    Regroup(Thirds(groups, x, y, size), Concat(groups), Qkv(last[..x], last[x..y], last[y..]));
  }

  lemma NoRows<T>(x: nat, y: nat, size: nat)
    ensures SameRows(Thirds<T>([], x, y, size), Concat<T>([]))
  {
  }

  lemma ThirdsSnoc<T>(groups: seq<seq<T>>, last: seq<T>, x: nat, y: nat, size: nat)
    requires x <= y <= size == |last|
    ensures Thirds(groups + [last], x, y, size) == Joined(Thirds(groups, x, y, size), Qkv(last[..x], last[x..y], last[y..]))
    ensures last == last[..x] + last[x..y] + last[y..]
  {
    hide Concat, Pieces;
    PiecesSnoc(groups, last, 0, x);
    PiecesSnoc(groups, last, x, y);
    PiecesSnoc(groups, last, y, size);
  }

  lemma Regroup<T>(s: Qkv<T>, t: seq<T>, last: Qkv<T>)
    requires SameRows(s, t)
    ensures SameRows(Joined(s, last), t + (last.q + last.k + last.v))
  {
    var Qkv(q, k, v) := s;
    var Qkv(x, y, z) := last;
    forall e: T ensures multiset((q + x) + (k + y) + (v + z))[e] == multiset(t + (x + y + z))[e] {
      assert multiset(q + k + v)[e] == multiset(q)[e] + multiset(k)[e] + multiset(v)[e];
      assert multiset(x + y + z)[e] == multiset(x)[e] + multiset(y)[e] + multiset(z)[e];
    }
  }

  lemma PiecesSnoc<T>(groups: seq<seq<T>>, last: seq<T>, lo: nat, hi: nat)
    ensures Concat(Pieces(groups + [last], lo, hi)) == Concat(Pieces(groups, lo, hi)) + Slice(last, lo, hi)
  {
    assert Pieces(groups + [last], lo, hi)[..|groups|] == Pieces(groups, lo, hi);
  }

  function Joined<T>(x: Qkv<T>, y: Qkv<T>): Qkv<T> {
    Qkv(x.q + y.q, x.k + y.k, x.v + y.v)
  }

  /** `cat` of the three lists. */
  function Cat<T>(lists: Qkv<seq<T>>): Qkv<T> {
    Qkv(Concat(lists.q), Concat(lists.k), Concat(lists.v))
  }

  lemma CatJoined<T>(x: Qkv<seq<T>>, y: Qkv<seq<T>>)
    ensures Cat(Joined(x, y)) == Joined(Cat(x), Cat(y))
  {
    ConcatPlus(x.q, y.q);
    ConcatPlus(x.k, y.k);
    ConcatPlus(x.v, y.v);
  }

  /** Splitting two tensors of whole groups one after the other is splitting them together. */
  lemma SplitPlus<T>(s: seq<T>, t: seq<T>, a: nat, h: nat, m: nat)
    requires |s| == m * (h * (a + 2))
    ensures Split(s + t, a, h) == Joined(Split(s, a, h), Split(t, a, h))
  {
    if h > 0 {
      PositiveProduct(h, a + 2);
      hide Chunks, SplitOf;
      var size := h * (a + 2);
      ChunksPlus(s, t, size, m);
      SplitOfPlus(Chunks(s, size), Chunks(t, size), a, h);
    }
  }

  lemma SplitOfPlus<T>(c: seq<seq<T>>, d: seq<seq<T>>, a: nat, h: nat)
    ensures SplitOf(c + d, a, h) == Joined(SplitOf(c, a, h), SplitOf(d, a, h))
  {
    hide Pieces, Concat;
    PiecesConcat(c, d, 0, h * a);
    PiecesConcat(c, d, h * a, h * a + h);
    PiecesConcat(c, d, h * a + h, h * (a + 2));
  }

  lemma PiecesConcat<T>(a: seq<seq<T>>, b: seq<seq<T>>, lo: nat, hi: nat)
    ensures Concat(Pieces(a + b, lo, hi)) == Concat(Pieces(a, lo, hi)) + Concat(Pieces(b, lo, hi))
  {
    hide *;
    PiecesPlus(a, b, lo, hi);
    ConcatPlus(Pieces(a, lo, hi), Pieces(b, lo, hi));
  }

  lemma PiecesPlus<T>(a: seq<seq<T>>, b: seq<seq<T>>, lo: nat, hi: nat)
    ensures Pieces(a + b, lo, hi) == Pieces(a, lo, hi) + Pieces(b, lo, hi)
  {
    hide Slice;
  }

  // ----- The sizes the programs compute -----

  /** `n` groups of `h` rows per head: the quotients are exact. */
  lemma EvenSizes(n: nat, a: nat, h: nat)
    requires n > 0
    ensures n * h / n == h && n * h % n == 0 && n * h * a / n == h * a
    ensures n * h * (a + 2) == n * (h * (a + 2))
    ensures (n * h * (a + 2) + n - 1) / n == h * (a + 2)
    ensures n * (h * (a + 2)) == 0 ==> h == 0
  {
    Commutes(n, h);
    QuotientIs(n, h, 0);
    Associates(n, h, a);
    Commutes(n, h * a);
    QuotientIs(n, h * a, 0);
    Associates(n, h, a + 2);
    Commutes(n, h * (a + 2));
    QuotientIs(n, h * (a + 2), n - 1);
    if h > 0 {
      PositiveProduct(h, a + 2);
      PositiveProduct(n, h * (a + 2));
    }
  }

  /** `n` groups of `h` rows per head: the chunks are the groups. */
  lemma EvenChunks<T>(tensor: seq<T>, n: nat, a: nat, h: nat)
    requires n > 0 && |tensor| == n * h * (a + 2)
    ensures |Chunk(tensor, n)| == n && IsMatrix(Chunk(tensor, n), h * (a + 2))
    ensures SplitOf(Chunk(tensor, n), a, h) == Split(tensor, a, h)
  {
    EvenSizes(n, a, h);
    if tensor == [] {
      EmptyPieces<T>(n, 0, 0);
    } else {
      PositiveProduct(h, a + 2);
      ChunksAre(tensor, h * (a + 2), n);
    }
  }

  lemma {:induction false} EmptyPieces<T>(n: nat, lo: nat, hi: nat)
    ensures Concat(Pieces(seq<seq<T>>(n, _ => []), lo, hi)) == []
  {
    if n > 0 {
      EmptyPieces<T>(n - 1, lo, hi);
      assert Pieces(seq<seq<T>>(n, _ => []), lo, hi)[..n - 1] == Pieces(seq<seq<T>>(n - 1, _ => []), lo, hi);
    }
  }

  /** Rows that do not divide evenly among the heads: `n` times the three sizes do not cover the tensor. */
  lemma UnevenSizes(n: nat, a: nat, kv: nat)
    requires n > 0 && kv % n != 0
    ensures (kv * a / n + kv / n + kv / n) * n < kv * (a + 2)
  {
    DivisionIs(kv, n);
    DivisionIs(kv * a, n);
    var x, y := kv * a / n, kv / n;
    assert (x + y + y) * n == x * n + y * n + y * n;
    assert kv * (a + 2) == kv * a + kv + kv;
  }

  lemma LongFirstChunk<T>(tensor: seq<T>, n: nat, sum: nat)
    requires n > 0 && sum * n < |tensor|
    ensures Chunk(tensor, n) != [] && |Chunk(tensor, n)[0]| > sum
  {
    hide Chunks;
    var c := (|tensor| + n - 1) / n;
    DivisionIs(|tensor| + n - 1, n);
    OneMore(0, n, sum);
    Commutes(n, sum);
    if c <= sum {
      OneMore(c, sum + 1, n);
    }
    FirstChunk(tensor, c);
  }

  lemma FirstChunk<T>(s: seq<T>, size: nat)
    requires s != [] && size > 0
    ensures Chunks(s, size) != [] && |Chunks(s, size)[0]| == if |s| <= size then |s| else size
  {
  }

  /** The three lists of pieces of every chunk. */
  function Split3<T>(chunks: seq<seq<T>>, qSize: nat, kvSize: nat): Qkv<seq<T>> {
    Qkv(Pieces(chunks, 0, qSize), Pieces(chunks, qSize, qSize + kvSize),
        Pieces(chunks, qSize + kvSize, qSize + kvSize + kvSize))
  }

  /** The three sizes fit the chunks exactly when the rows divide evenly among the heads. */
  lemma ChunksFit<T>(tensor: seq<T>, n: nat, a: nat, kv: nat, qSize: nat, kvSize: nat)
    requires n > 0 && |tensor| == kv * (a + 2) && qSize == kv * a / n && kvSize == kv / n
    ensures kv % n == 0 <==> IsMatrix(Chunk(tensor, n), qSize + kvSize + kvSize)
    ensures kv % n == 0 ==> Cat(Split3(Chunk(tensor, n), qSize, kvSize)) == Split(tensor, a, kvSize)
  {
    hide Chunk, Split;
    if kv % n == 0 {
      DivisionIs(kv, n);
      Commutes(n, kvSize);
      EvenChunks(tensor, n, a, kvSize);
      EvenSizes(n, a, kvSize);
      GroupSize(kvSize, a);
    } else {
      UnevenSizes(n, a, kv);
      LongFirstChunk(tensor, n, qSize + kvSize + kvSize);
    }
  }

  // ----- The three programs -----

  /** `h` rows per head, `heads` query heads and `kvHeads` key/value heads, fused into one tensor. */
  ghost predicate QkvShape<T>(tensor: seq<T>, h: nat, heads: nat, kvHeads: nat) {
    h > 0 && kvHeads > 0 && heads % kvHeads == 0 && |tensor| == h * (heads + 2 * kvHeads)
  }

  lemma ShapeSizes<T>(tensor: seq<T>, h: nat, heads: nat, kvHeads: nat)
    requires QkvShape(tensor, h, heads, kvHeads)
    ensures h > 0 && kvHeads > 0 && heads % kvHeads == 0
    ensures var a := heads / kvHeads; |tensor| == kvHeads * (h * (a + 2)) && |tensor| == kvHeads * h * (a + 2)
    ensures var a := heads / kvHeads; |tensor| % (a + 2) == 0 && |tensor| / (a + 2) == kvHeads * h
  {
    var a := heads / kvHeads;
    DivisionIs(heads, kvHeads);
    calc {
      h * (heads + 2 * kvHeads);
      h * ((a + 2) * kvHeads);
      { Associates(h, a + 2, kvHeads); }
      h * (a + 2) * kvHeads;
      { Commutes(h * (a + 2), kvHeads); }
      kvHeads * (h * (a + 2));
      { Associates(kvHeads, h, a + 2); }
      kvHeads * h * (a + 2);
    }
    QuotientIs(a + 2, kvHeads * h, 0);
  }

  lemma Split3Snoc<T>(chunks: seq<seq<T>>, i: nat, qSize: nat, kvSize: nat)
    requires i < |chunks| && |chunks[i]| == qSize + kvSize + kvSize
    ensures Split3(chunks[..i + 1], qSize, kvSize)
         == Joined(Split3(chunks[..i], qSize, kvSize),
                   Qkv([chunks[i][..qSize]], [chunks[i][qSize..qSize + kvSize]], [chunks[i][qSize + kvSize..]]))
  {
    var before, after := chunks[..i], chunks[..i + 1];
    assert Slice(chunks[i], qSize + kvSize, qSize + kvSize + kvSize) == chunks[i][qSize + kvSize..];
    assert Pieces(after, 0, qSize) == Pieces(before, 0, qSize) + [chunks[i][..qSize]];
    assert Pieces(after, qSize, qSize + kvSize) == Pieces(before, qSize, qSize + kvSize) + [chunks[i][qSize..qSize + kvSize]];
    assert Pieces(after, qSize + kvSize, qSize + kvSize + kvSize)
        == Pieces(before, qSize + kvSize, qSize + kvSize + kvSize) + [chunks[i][qSize + kvSize..]];
  }

  /** The loop over the chunks, every one of which is split into three sizes that must add up. */
  method AppendPieces<T>(chunks: seq<seq<T>>, qSize: nat, kvSize: nat, lists: Qkv<seq<T>>)
    returns (ok: bool, r: Qkv<seq<T>>)
    ensures ok <==> IsMatrix(chunks, qSize + kvSize + kvSize)
    ensures ok ==> r == Joined(lists, Split3(chunks, qSize, kvSize))
  {
    r := lists;
    assert Split3(chunks[..0], qSize, kvSize) == Qkv([], [], []);
    for i := 0 to |chunks|
      invariant r == Joined(lists, Split3(chunks[..i], qSize, kvSize))
      invariant IsMatrix(chunks[..i], qSize + kvSize + kvSize)
    {
      hide Split3;
      if |chunks[i]| != qSize + kvSize + kvSize {
        return false, r;
      }
      Split3Snoc(chunks, i, qSize, kvSize);
      r := Qkv(r.q + [chunks[i][..qSize]], r.k + [chunks[i][qSize..qSize + kvSize]], r.v + [chunks[i][qSize + kvSize..]]);
    }
    ok := true;
    assert chunks[..|chunks|] == chunks;
  }

  /** `n` chunks of one tensor, with sizes computed from its `kv` rows per key/value part. */
  method AppendChunks<T>(tensor: seq<T>, n: nat, a: nat, kv: nat, lists: Qkv<seq<T>>) returns (ok: bool, r: Qkv<seq<T>>)
    requires n > 0 && |tensor| == kv * (a + 2)
    ensures ok <==> kv % n == 0
    ensures ok ==> Cat(r) == Joined(Cat(lists), Split(tensor, a, kv / n))
  {
    var qSize, kvSize := kv * a / n, kv / n;
    ChunksFit(tensor, n, a, kv, qSize, kvSize);
    hide *;
    var chunks := Chunk(tensor, n);
    ok, r := AppendPieces(chunks, qSize, kvSize, lists);
    CatJoined(lists, Split3(chunks, qSize, kvSize));
  }

  /** `_split_tensors` on a fused weight; nothing is returned where it raises. */
  method SplitTensors<T>(tensor: seq<T>, heads: nat, kvHeads: nat) returns (r: Option<Qkv<T>>)
    ensures r.Some? <==>
      && kvHeads > 0 && heads % kvHeads == 0 && |tensor| % (heads / kvHeads + 2) == 0
      && |tensor| / (heads / kvHeads + 2) % kvHeads == 0
    ensures forall h: nat :: QkvShape(tensor, h, heads, kvHeads) ==> r == Some(Split(tensor, heads / kvHeads, h))
  {
    hide Split, Concat;
    r := None;
    if kvHeads > 0 && heads % kvHeads == 0 {
      var a := heads / kvHeads;
      if |tensor| % (a + 2) == 0 {
        r := SplitHeads(tensor, kvHeads, a, |tensor| / (a + 2));
      }
    }
    forall h: nat | QkvShape(tensor, h, heads, kvHeads) ensures r == Some(Split(tensor, heads / kvHeads, h)) {
      TensorQuotients(tensor, h, heads, kvHeads);
    }
  }

  lemma TensorQuotients<T>(tensor: seq<T>, h: nat, heads: nat, kvHeads: nat)
    requires QkvShape(tensor, h, heads, kvHeads)
    ensures kvHeads > 0 && heads % kvHeads == 0
    ensures var (a, kv) := (heads / kvHeads, |tensor| / (heads / kvHeads + 2));
      |tensor| % (a + 2) == 0 && kv % kvHeads == 0 && kv / kvHeads == h
  {
    ShapeSizes(tensor, h, heads, kvHeads);
    EvenSizes(kvHeads, 0, h);
  }

  method SplitHeads<T>(tensor: seq<T>, kvHeads: nat, a: nat, kv: nat) returns (r: Option<Qkv<T>>)
    requires kvHeads > 0 && |tensor| % (a + 2) == 0 && kv == |tensor| / (a + 2)
    ensures r == if kv % kvHeads == 0 then Some(Split(tensor, a, kv / kvHeads)) else None
  {
    DivisionIs(|tensor|, a + 2);
    hide *;
    var ok, lists := AppendChunks(tensor, kvHeads, a, kv, Nothing<seq<T>>());
    CatNothing(Split(tensor, a, kv / kvHeads));
    r := if ok then Some(Cat(lists)) else None;
  }

  function Nothing<T>(): Qkv<T> { Qkv([], [], []) }

  lemma CatNothing<T>(s: Qkv<T>)
    ensures Joined(Cat(Nothing<seq<T>>()), s) == s
  {
  }

  /** The sizes of one of `tp` equal shards of a fused weight. */
  lemma ShardSizes<T>(shards: seq<seq<T>>, size: nat, h: nat, heads: nat, kvHeads: nat)
    requires shards != [] && IsMatrix(shards, size) && kvHeads % |shards| == 0 && QkvShape(Concat(shards), h, heads, kvHeads)
    ensures kvHeads / |shards| > 0 && size == kvHeads / |shards| * h * (heads / kvHeads + 2)
  {
    ShapeSizes(Concat(shards), h, heads, kvHeads);
    FlattenedSize(shards, size);
    DivisionIs(kvHeads, |shards|);
    ShardArithmetic(|shards|, kvHeads / |shards|, kvHeads, size, h, heads / kvHeads + 2);
  }

  lemma ShardArithmetic(tp: nat, n: nat, kvHeads: nat, size: nat, h: nat, w: nat)
    requires tp > 0 && kvHeads == n * tp && tp * size == kvHeads * (h * w)
    ensures size == n * h * w
  {
    Associates(n, tp, h * w);
    Commutes(n, tp);
    Associates(tp, n, h * w);
    Cancel(tp, size, n * (h * w));
    Associates(n, h, w);
  }

  lemma Cancel(n: nat, x: nat, y: nat)
    requires n > 0 && n * x == n * y
    ensures x == y
  {
    Commutes(n, x);
    Commutes(n, y);
    if x < y {
      OneMore(x, y, n);
    } else if y < x {
      OneMore(y, x, n);
    }
  }

  /** What the program computes from one shard. */
  lemma ShardQuotients<T>(shards: seq<seq<T>>, size: nat, h: nat, heads: nat, kvHeads: nat)
    requires shards != [] && IsMatrix(shards, size) && kvHeads % |shards| == 0 && QkvShape(Concat(shards), h, heads, kvHeads)
    ensures var (a, n) := (heads / kvHeads, kvHeads / |shards|);
      0 < n && |shards| <= kvHeads && size % (a + 2) == 0 && size / (a + 2) % n == 0 && size / (a + 2) / n == h
  {
    var a, n := heads / kvHeads, kvHeads / |shards|;
    ShardSizes(shards, size, h, heads, kvHeads);
    QuotientIs(a + 2, n * h, 0);
    Commutes(n, h);
    QuotientIs(n, h, 0);
  }

  lemma ShardsJoined<T>(shards: seq<seq<T>>, i: nat, size: nat, n: nat, a: nat, h: nat)
    requires i < |shards| && IsMatrix(shards, size) && size == n * h * (a + 2)
    ensures Split(Concat(shards[..i + 1]), a, h) == Joined(Split(Concat(shards[..i]), a, h), Split(shards[i], a, h))
  {
    hide Split;
    FlattenedSize(shards[..i], size);
    Associates(n, h, a + 2);
    Associates(i, n, h * (a + 2));
    SplitPlus(Concat(shards[..i]), shards[i], a, h, i * n);
    assert shards[..i + 1] == shards[..i] + [shards[i]];
    ConcatSnoc(shards[..i], shards[i]);
  }

  lemma SplitNothing<T>(a: nat, h: nat)
    ensures Cat(Nothing<seq<T>>()) == Split<T>([], a, h)
  {
  }

  /** `default_tp_concat_fn` on the gathered shards of a fused weight; nothing is returned where it raises. */
  method DefaultTpConcat<T>(shards: seq<seq<T>>, size: nat, heads: nat, kvHeads: nat, tp: nat) returns (r: Option<Qkv<T>>)
    requires shards != [] && IsMatrix(shards, size)
    ensures r.Some? <==>
      && kvHeads > 0 && heads % kvHeads == 0 && size % (heads / kvHeads + 2) == 0
      && 0 < tp <= kvHeads && size / (heads / kvHeads + 2) % (kvHeads / tp) == 0
    ensures forall h: nat :: QkvShape(Concat(shards), h, heads, kvHeads) && tp == |shards| && kvHeads % tp == 0 ==>
      r == Some(Split(Concat(shards), heads / kvHeads, h))
  {
    r := None;
    if kvHeads > 0 && tp > 0 {
      QuotientPositive(kvHeads, tp);
      var a, n := heads / kvHeads, kvHeads / tp;
      if heads % kvHeads == 0 && size % (a + 2) == 0 && n > 0 {
        DivisionIs(size, a + 2);
        r := ConcatShards(shards, size, a, size / (a + 2), n);
      }
    }
    forall h: nat | QkvShape(Concat(shards), h, heads, kvHeads) && tp == |shards| && kvHeads % tp == 0
      ensures r == Some(Split(Concat(shards), heads / kvHeads, h))
    {
      ShardQuotients(shards, size, h, heads, kvHeads);
    }
  }

  /** The loop over the shards. */
  method ConcatShards<T>(shards: seq<seq<T>>, size: nat, a: nat, kv: nat, n: nat) returns (r: Option<Qkv<T>>)
    requires shards != [] && IsMatrix(shards, size) && n > 0 && size == kv * (a + 2)
    ensures r == if kv % n == 0 then Some(Split(Concat(shards), a, kv / n)) else None
  {
    hide Split;
    var lists := Nothing<seq<T>>();
    SplitNothing<T>(a, kv / n);
    for i := 0 to |shards|
      invariant i > 0 ==> kv % n == 0
      invariant Cat(lists) == Split(Concat(shards[..i]), a, kv / n)
    {
      var ok;
      ok, lists := AppendChunks(shards[i], n, a, kv, lists);
      if !ok {
        return None;
      }
      DivisionIs(kv, n);
      Commutes(n, kv / n);
      ShardsJoined(shards, i, size, n, a, kv / n);
    }
    assert shards[..|shards|] == shards;
    r := Some(Cat(lists));
  }

  // ----- convert_qkv_shard -----

  /** Rows from `lo` to the end of every chunk. */
  function Tails<T>(chunks: seq<seq<T>>, lo: nat): (r: seq<seq<T>>)
    ensures |r| == |chunks|
  {
    seq(|chunks|, i requires 0 <= i < |chunks| => Slice(chunks[i], lo, |chunks[i]|))
  }

  /** The loop over the chunks of one part, which are sliced without a check of their length. */
  method SliceChunks<T>(chunks: seq<seq<T>>, qSize: nat, kvSize: nat, lists: Qkv<seq<T>>) returns (r: Qkv<seq<T>>)
    ensures r == Joined(lists, Qkv(Pieces(chunks, 0, qSize), Pieces(chunks, qSize, qSize + kvSize), Tails(chunks, qSize + kvSize)))
  {
    hide Pieces, Tails, Slice;
    r := lists;
    NoPieces(chunks, 0, qSize);
    NoPieces(chunks, qSize, qSize + kvSize);
    for i := 0 to |chunks|
      invariant r.q == lists.q + Pieces(chunks[..i], 0, qSize)
      invariant r.k == lists.k + Pieces(chunks[..i], qSize, qSize + kvSize)
      invariant r.v == lists.v + Tails(chunks[..i], qSize + kvSize)
    {
      var chunk := chunks[i];
      NextPiece(chunks, i, 0, qSize);
      NextPiece(chunks, i, qSize, qSize + kvSize);
      NextTail(chunks, i, qSize + kvSize);
      r := Qkv(r.q + [Slice(chunk, 0, qSize)], r.k + [Slice(chunk, qSize, qSize + kvSize)],
               r.v + [Slice(chunk, qSize + kvSize, |chunk|)]);
    }
    assert chunks[..|chunks|] == chunks;
  }

  lemma NoPieces<T>(chunks: seq<seq<T>>, lo: nat, hi: nat)
    ensures Pieces(chunks[..0], lo, hi) == [] && Tails(chunks[..0], hi) == []
  {
  }

  lemma NextPiece<T>(chunks: seq<seq<T>>, i: nat, lo: nat, hi: nat)
    requires i < |chunks|
    ensures Pieces(chunks[..i + 1], lo, hi) == Pieces(chunks[..i], lo, hi) + [Slice(chunks[i], lo, hi)]
  {
    hide Slice;
  }

  lemma NextTail<T>(chunks: seq<seq<T>>, i: nat, lo: nat)
    requires i < |chunks|
    ensures Tails(chunks[..i + 1], lo) == Tails(chunks[..i], lo) + [Slice(chunks[i], lo, |chunks[i]|)]
  {
    hide Slice;
  }

  /** The sizes the program computes for `tp` parts of `n` groups each. */
  lemma PartSizes(tp: nat, n: nat, kvHeads: nat, heads: nat, a: nat, h: nat)
    requires tp > 0 && n > 0 && kvHeads == n * tp && heads == a * kvHeads
    ensures h * heads / tp == n * (h * a) && h * kvHeads / tp == n * h
    ensures h * heads / tp / n == h * a && h * kvHeads / tp / n == h
    ensures h * heads / tp + 2 * (h * kvHeads / tp) == n * h * (a + 2)
    ensures h * (heads + 2 * kvHeads) == tp * (n * h * (a + 2))
  {
    var x, y := n * (h * a), n * h;
    calc {
      h * heads;
      { Associates(h, a, kvHeads); Associates(h * a, n, tp); }
      h * a * n * tp;
      { Commutes(h * a, n); }
      x * tp;
    }
    calc {
      h * kvHeads;
      { Associates(h, n, tp); Commutes(h, n); }
      y * tp;
    }
    QuotientIs(tp, x, 0);
    QuotientIs(tp, y, 0);
    Commutes(n, h * a);
    QuotientIs(n, h * a, 0);
    Commutes(n, h);
    QuotientIs(n, h, 0);
    Associates(n, h, a);
    assert n * h * (a + 2) == x + 2 * y;
    Commutes(tp, x + 2 * y);
    assert h * (heads + 2 * kvHeads) == x * tp + 2 * (y * tp);
    assert (x + 2 * y) * tp == x * tp + 2 * (y * tp);
  }

  /** One part of `n` groups: slicing its chunks is splitting the part. */
  lemma PartSplit<T>(part: seq<T>, n: nat, a: nat, h: nat)
    requires n > 0 && |part| == n * h * (a + 2)
    ensures h * a >= 0
    ensures var c := Chunk(part, n); Cat(Qkv(Pieces(c, 0, h * a), Pieces(c, h * a, h * a + h), Tails(c, h * a + h))) == Split(part, a, h)
  {
    hide Split, Chunk;
    EvenChunks(part, n, a, h);
    GroupSize(h, a);
    var c := Chunk(part, n);
    assert Tails(c, h * a + h) == Pieces(c, h * a + h, h * (a + 2));
  }

  /** The parts before part `i + 1` are those before part `i`, and part `i`. */
  lemma NextPart<T>(full: seq<T>, tp: nat, n: nat, a: nat, h: nat, i: nat)
    requires |full| == tp * (n * h * (a + 2)) && i < tp
    ensures var total := n * h * (a + 2);
      && 0 <= i * total <= (i + 1) * total <= |full|
      && |Slice(full, i * total, (i + 1) * total)| == total
      && Split(full[..(i + 1) * total], a, h)
         == Joined(Split(full[..i * total], a, h), Split(Slice(full, i * total, (i + 1) * total), a, h))
  {
    hide Split;
    var total := n * h * (a + 2);
    OneMore(i, tp, total);
    StepDown(i + 1, total);
    Associates(n, h, a + 2);
    Associates(i, n, h * (a + 2));
    var part := full[i * total..(i + 1) * total];
    SplitPlus(full[..i * total], part, a, h, i * n);
    assert full[..(i + 1) * total] == full[..i * total] + part;
  }

  /** The sizes of the parts and of their chunks. */
  datatype Sizes = Sizes(n: nat, total: nat, qSize: nat, kvSize: nat)

  function PartitionSizes(h: nat, heads: nat, kvHeads: nat, groups: nat, tp: nat): Sizes
    requires 0 < tp && groups / tp > 0
  {
    var qTp, kvTp, n := Quotient(h * heads, tp), Quotient(h * kvHeads, tp), groups / tp;
    Sizes(n, qTp + 2 * kvTp, Quotient(qTp, n), Quotient(kvTp, n))
  }

  /** A fused weight whose key/value heads are spread evenly over `tp` parts. */
  ghost predicate EvenParts<T>(full: seq<T>, h: nat, heads: nat, kvHeads: nat, groups: nat, tp: nat) {
    QkvShape(full, h, heads, kvHeads) && groups == kvHeads && tp > 0 && kvHeads % tp == 0
  }

  ghost predicate SizesFit<T>(full: seq<T>, tp: nat, sizes: Sizes, a: nat, h: nat) {
    sizes.qSize == h * a && sizes.kvSize == h && sizes.total == sizes.n * h * (a + 2) && |full| == tp * sizes.total
  }

  lemma ConvertSizes<T>(full: seq<T>, h: nat, heads: nat, kvHeads: nat, groups: nat, tp: nat)
    requires tp > 0 && groups / tp > 0
    ensures PartitionSizes(h, heads, kvHeads, groups, tp).n > 0
    ensures EvenParts(full, h, heads, kvHeads, groups, tp) ==>
      kvHeads > 0 && SizesFit(full, tp, PartitionSizes(h, heads, kvHeads, groups, tp), heads / kvHeads, h)
  {
    if EvenParts(full, h, heads, kvHeads, groups, tp) {
      DivisionIs(heads, kvHeads);
      DivisionIs(kvHeads, tp);
      PartSizes(tp, kvHeads / tp, kvHeads, heads, heads / kvHeads, h);
    }
  }

  /** `convert_qkv_shard` with at least as many key/value heads as parts; nothing is returned where it raises. */
  method ConvertQkvShard<T>(full: seq<T>, h: nat, heads: nat, kvHeads: nat, groups: nat, tp: nat) returns (r: Option<Qkv<T>>)
    requires kvHeads >= tp
    ensures r == None <==> tp == 0 || groups < tp
    ensures EvenParts(full, h, heads, kvHeads, groups, tp) ==> r == Some(Split(full, heads / kvHeads, h))
  {
    r := None;
    if tp > 0 {
      QuotientPositive(groups, tp);
    }
    if tp > 0 && groups / tp > 0 {
      ConvertSizes(full, h, heads, kvHeads, groups, tp);
      hide *;
      var sizes := PartitionSizes(h, heads, kvHeads, groups, tp);
      var lists := ConvertParts(full, tp, sizes, heads / kvHeads, h);
      r := Some(Cat(lists));
    }
  }

  /** The loop over the parts. */
  method ConvertParts<T>(full: seq<T>, tp: nat, sizes: Sizes, ghost a: nat, ghost h: nat) returns (lists: Qkv<seq<T>>)
    requires sizes.n > 0
    ensures SizesFit(full, tp, sizes, a, h) ==> Cat(lists) == Split(full, a, h)
  {
    hide Split, Chunk, Cat;
    var Sizes(n, total, qSize, kvSize) := sizes;
    lists := Nothing<seq<T>>();
    SplitNothing<T>(a, h);
    for i := 0 to tp
      invariant SizesFit(full, tp, sizes, a, h) ==> 0 <= i * total <= |full| && Cat(lists) == Split(full[..i * total], a, h)
    {
      var part := Slice(full, i * total, (i + 1) * total);
      var chunks := Chunk(part, n);
      CatJoined(lists, Qkv(Pieces(chunks, 0, qSize), Pieces(chunks, qSize, qSize + kvSize), Tails(chunks, qSize + kvSize)));
      lists := SliceChunks(chunks, qSize, kvSize, lists);
      if SizesFit(full, tp, sizes, a, h) {
        NextPart(full, tp, n, a, h, i);
        PartSplit(part, n, a, h);
      }
    }
    if SizesFit(full, tp, sizes, a, h) {
      assert full[..tp * total] == full;
    }
  }
}
