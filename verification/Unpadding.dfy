/** Gathering the unmasked tokens of a padded batch, scattering them back, and log-probabilities on either form. */
module Unpadding {
  import opened Seqs
  import opened Matrices

  // ----- Gather and scatter -----

  /** `nonzero`: the positions that the mask keeps. */
  function Nonzero(mask: seq<bool>): (r: seq<nat>)
    ensures |r| <= |mask| && InRange(r, |mask|)
  {
    if mask == [] then [] else
      var last := |mask| - 1;
      if mask[last] then Nonzero(mask[..last]) + [last] else Nonzero(mask[..last])
  }

  /** How many positions before `i` the mask keeps. */
  function Rank(mask: seq<bool>, i: nat): nat
    requires i <= |mask|
  {
    |Nonzero(mask[..i])|
  }

  /** The kept positions in increasing order: position `i` is the entry number `Rank(mask, i)`. */
  lemma {:induction false} NonzeroAt(mask: seq<bool>, i: nat)
    requires i <= |mask|
    ensures Rank(mask, i) <= |Nonzero(mask)| && Nonzero(mask)[..Rank(mask, i)] == Nonzero(mask[..i])
    ensures i < |mask| && mask[i] ==> Rank(mask, i) < |Nonzero(mask)| && Nonzero(mask)[Rank(mask, i)] == i
    decreases |mask|
  {
    if i == |mask| {
      assert mask[..i] == mask;
    } else {
      var front := mask[..|mask| - 1];
      NonzeroAt(front, i);
      assert front[..i] == mask[..i];
    }
  }

  /** Only kept positions are listed, each at its rank. */
  lemma {:induction false} NonzeroKeeps(mask: seq<bool>, k: nat)
    requires k < |Nonzero(mask)|
    ensures mask[Nonzero(mask)[k]] && Rank(mask, Nonzero(mask)[k]) == k
    decreases |mask|
  {
    var last := |mask| - 1;
    if k < |Nonzero(mask[..last])| {
      NonzeroKeeps(mask[..last], k);
      assert mask[..last][..Nonzero(mask)[k]] == mask[..Nonzero(mask)[k]];
    }
  }

  /** `output = zeros(n); output[indices] = values` */
  function Scatter<T>(values: seq<T>, indices: seq<nat>, n: nat, zero: T): (r: seq<T>)
    requires |values| == |indices| && InRange(indices, n)
    ensures |r| == n
    decreases |indices|
  {
    if indices == [] then seq(n, _ => zero) else
      var last := |indices| - 1;
      Scatter(values[..last], indices[..last], n, zero)[indices[last] := values[last]]
  }

  /** `IndexPutFirstAxis.forward`: the values are written one by one into a fresh buffer. */
  method IndexPutFirstAxis<T>(values: seq<T>, indices: seq<nat>, n: nat, zero: T) returns (output: array<T>)
    requires |values| == |indices| && InRange(indices, n)
    ensures fresh(output) && output[..] == Scatter(values, indices, n, zero)
  {
    output := new T[n](_ => zero);
    for k := 0 to |indices|
      invariant output[..] == Scatter(values[..k], indices[..k], n, zero)
    {
      output[indices[k]] := values[k];
      assert values[..k + 1][..k] == values[..k] && indices[..k + 1][..k] == indices[..k];
    }
    assert values[..|values|] == values && indices[..|indices|] == indices;
  }

  lemma {:induction false} ScatterHit<T>(values: seq<T>, indices: seq<nat>, n: nat, zero: T, k: nat)
    requires |values| == |indices| && InRange(indices, n) && k < |indices|
    requires forall i, j :: 0 <= i < j < |indices| ==> indices[i] != indices[j]
    ensures Scatter(values, indices, n, zero)[indices[k]] == values[k]
    decreases |indices|
  {
    var last := |indices| - 1;
    if k < last {
      ScatterHit(values[..last], indices[..last], n, zero, k);
    }
  }

  lemma {:induction false} ScatterMiss<T>(values: seq<T>, indices: seq<nat>, n: nat, zero: T, i: nat)
    requires |values| == |indices| && InRange(indices, n) && i < n && i !in indices
    ensures Scatter(values, indices, n, zero)[i] == zero
    decreases |indices|
  {
    if indices != [] {
      var last := |indices| - 1;
      ScatterMiss(values[..last], indices[..last], n, zero, i);
    }
  }

  /** Scattering to the kept positions: a kept position holds the value of its rank, every other position is zero. */
  lemma ScatterAt<T>(values: seq<T>, mask: seq<bool>, zero: T, i: nat)
    requires |values| == |Nonzero(mask)| && i < |mask|
    ensures mask[i] ==> Rank(mask, i) < |values|
    ensures Scatter(values, Nonzero(mask), |mask|, zero)[i] == if mask[i] then values[Rank(mask, i)] else zero
  {
    var indices := Nonzero(mask);
    forall k | 0 <= k < |indices| ensures mask[indices[k]] && Rank(mask, indices[k]) == k {
      NonzeroKeeps(mask, k);
    }
    if mask[i] {
      NonzeroAt(mask, i);
      ScatterHit(values, indices, |mask|, zero, Rank(mask, i));
    } else {
      ScatterMiss(values, indices, |mask|, zero, i);
    }
  }

  /** `unpad_input`: the kept tokens and their positions in the flattened batch. */
  function UnpadInput<T>(tokens: seq<seq<T>>, mask: seq<seq<bool>>, width: nat): (r: (seq<T>, seq<nat>))
    requires IsMatrix(tokens, width) && IsMatrix(mask, width) && |tokens| == |mask|
  {
    FlattenedSize(tokens, width);
    FlattenedSize(mask, width);
    var indices := Nonzero(Concat(mask));
    (Select(Concat(tokens), indices), indices)
  }

  /** `pad_input` */
  function PadInput<T>(values: seq<T>, indices: seq<nat>, height: nat, width: nat, zero: T): (r: seq<seq<T>>)
    requires |values| == |indices| && InRange(indices, height * width)
    ensures |r| == height && IsMatrix(r, width)
  {
    Rows(Scatter(values, indices, height * width, zero), height, width)
  }

  /** Padding back a list with one value for every kept token. */
  lemma PaddedAt<T>(values: seq<T>, mask: seq<seq<bool>>, width: nat, zero: T, b: nat, c: nat)
    requires IsMatrix(mask, width) && b < |mask| && c < width && |values| == |Nonzero(Concat(mask))|
    ensures |Concat(mask)| == |mask| * width && Flat(b, c, width) < |Concat(mask)|
    ensures mask[b][c] ==> Rank(Concat(mask), Flat(b, c, width)) < |values|
    ensures PadInput(values, Nonzero(Concat(mask)), |mask|, width, zero)[b][c]
         == if mask[b][c] then values[Rank(Concat(mask), Flat(b, c, width))] else zero
  {
    FlattenAt(mask, width, b, c);
    ScatterAt(values, Concat(mask), zero, Flat(b, c, width));
  }

  /** Round trip: unpadding and padding keeps the unmasked tokens and zeroes the others. */
  lemma PadUndoesUnpad<T>(tokens: seq<seq<T>>, mask: seq<seq<bool>>, width: nat, zero: T, b: nat, c: nat)
    requires IsMatrix(tokens, width) && IsMatrix(mask, width) && |tokens| == |mask| && b < |mask| && c < width
    ensures |Concat(mask)| == |mask| * width
    ensures var (kept, indices) := UnpadInput(tokens, mask, width);
      PadInput(kept, indices, |mask|, width, zero)[b][c] == if mask[b][c] then tokens[b][c] else zero
  {
    var (kept, indices) := UnpadInput(tokens, mask, width);
    PaddedAt(kept, mask, width, zero, b, c);
    FlattenAt(tokens, width, b, c);
    FlattenAt(mask, width, b, c);
    NonzeroAt(Concat(mask), Flat(b, c, width));
  }

  /** Round trip: padding and unpadding returns the list. */
  lemma UnpadUndoesPad<T>(values: seq<T>, mask: seq<seq<bool>>, width: nat, zero: T)
    requires IsMatrix(mask, width) && |values| == |Nonzero(Concat(mask))|
    ensures |Concat(mask)| == |mask| * width
    ensures UnpadInput(PadInput(values, Nonzero(Concat(mask)), |mask|, width, zero), mask, width).0 == values
  {
    FlattenedSize(mask, width);
    var padded := PadInput(values, Nonzero(Concat(mask)), |mask|, width, zero);
    FlattenedSize(padded, width);
    forall k | 0 <= k < |values| ensures Concat(padded)[Nonzero(Concat(mask))[k]] == values[k] {
      var i := Nonzero(Concat(mask))[k];
      var b, c := Unflat(i, |mask|, width);
      NonzeroKeeps(Concat(mask), k);
      FlattenAt(padded, width, b, c);
      FlattenAt(mask, width, b, c);
      PaddedAt(values, mask, width, zero, b, c);
    }
  }

  // ----- Where the rows lie in the unpadded list -----

  /** `mask.sum()` of one row. */
  function CountKept(mask: seq<bool>): nat {
    if mask == [] then 0 else CountKept(mask[..|mask| - 1]) + (if mask[|mask| - 1] then 1 else 0)
  }

  /** `pad(cumsum(mask.sum(dim=-1)), (1, 0))` */
  function CuSeqlens(mask: seq<seq<bool>>): (r: seq<nat>)
    ensures |r| == |mask| + 1
  {
    if mask == [] then [0] else
      var front := CuSeqlens(mask[..|mask| - 1]);
      front + [front[|mask| - 1] + CountKept(mask[|mask| - 1])]
  }

  lemma {:induction false} NonzeroCounts(mask: seq<bool>)
    ensures |Nonzero(mask)| == CountKept(mask)
    decreases |mask|
  {
    if mask != [] {
      NonzeroCounts(mask[..|mask| - 1]);
    }
  }

  /** The kept tokens of one row. */
  function Kept<T>(tokens: seq<T>, mask: seq<bool>): seq<T>
    requires |tokens| == |mask|
  {
    Select(tokens, Nonzero(mask))
  }

  lemma {:induction false} KeptPlus<T>(a: seq<T>, m: seq<bool>, b: seq<T>, n: seq<bool>)
    requires |a| == |m| && |b| == |n|
    ensures Kept(a + b, m + n) == Kept(a, m) + Kept(b, n)
    decreases |b|
  {
    if b == [] {
      assert a + b == a && m + n == m;
    } else {
      var last := |b| - 1;
      KeptPlus(a, m, b[..last], n[..last]);
      KeptPlusSnoc(a, m, b[..last], n[..last], b[last], n[last]);
      assert b == b[..last] + [b[last]] && n == n[..last] + [n[last]];
    }
  }

  lemma KeptPlusSnoc<T>(a: seq<T>, m: seq<bool>, b: seq<T>, n: seq<bool>, x: T, keep: bool)
    requires |a| == |m| && |b| == |n| && Kept(a + b, m + n) == Kept(a, m) + Kept(b, n)
    ensures Kept(a + (b + [x]), m + (n + [keep])) == Kept(a, m) + Kept(b + [x], n + [keep])
  {
    hide *;
    KeptSnoc(a + b, m + n, x, keep);
    KeptSnoc(b, n, x, keep);
    assert a + (b + [x]) == a + b + [x] && m + (n + [keep]) == m + n + [keep];
  }

  lemma KeptSnoc<T>(a: seq<T>, m: seq<bool>, x: T, keep: bool)
    requires |a| == |m|
    ensures Kept(a + [x], m + [keep]) == if keep then Kept(a, m) + [x] else Kept(a, m)
  {
    assert (m + [keep])[..|m|] == m;
  }

  function KeptRows<T>(tokens: seq<seq<T>>, mask: seq<seq<bool>>, width: nat): (r: seq<seq<T>>)
    requires IsMatrix(tokens, width) && IsMatrix(mask, width) && |tokens| == |mask|
    ensures |r| == |tokens|
  {
    seq(|tokens|, b requires 0 <= b < |tokens| => Kept(tokens[b], mask[b]))
  }

  /**
   * The unpadded list is the kept tokens of the rows, one row after the other; row `b` lies between the cumulative
   * lengths `b` and `b + 1`.
   */
  lemma {:induction false} UnpaddedRows<T>(tokens: seq<seq<T>>, mask: seq<seq<bool>>, width: nat)
    requires IsMatrix(tokens, width) && IsMatrix(mask, width) && |tokens| == |mask|
    ensures UnpadInput(tokens, mask, width).0 == Concat(KeptRows(tokens, mask, width))
    ensures CuSeqlens(mask)[|mask|] == |UnpadInput(tokens, mask, width).0|
    decreases |tokens|
  {
    FlattenedSize(tokens, width);
    FlattenedSize(mask, width);
    if tokens != [] {
      var last := |tokens| - 1;
      UnpaddedRows(tokens[..last], mask[..last], width);
      assert KeptRows(tokens, mask, width)[..last] == KeptRows(tokens[..last], mask[..last], width);
      FlattenedSize(tokens[..last], width);
      FlattenedSize(mask[..last], width);
      KeptPlus(Concat(tokens[..last]), Concat(mask[..last]), tokens[last], mask[last]);
      NonzeroCounts(mask[last]);
    }
  }

  lemma UnpaddedRow<T>(tokens: seq<seq<T>>, mask: seq<seq<bool>>, width: nat, b: nat)
    requires IsMatrix(tokens, width) && IsMatrix(mask, width) && |tokens| == |mask| && b < |mask|
    ensures CuSeqlens(mask)[b] <= CuSeqlens(mask)[b + 1] <= |UnpadInput(tokens, mask, width).0|
    ensures UnpadInput(tokens, mask, width).0[CuSeqlens(mask)[b]..CuSeqlens(mask)[b + 1]] == Kept(tokens[b], mask[b])
  {
    hide *;
    var rows := KeptRows(tokens, mask, width);
    UnpaddedRows(tokens, mask, width);
    CuSeqlensRows(tokens, mask, width, b);
    CuSeqlensRows(tokens, mask, width, b + 1);
    ConcatSnoc(rows[..b], rows[b]);
    assert rows[..b] + [rows[b]] == rows[..b + 1];
    ConcatTake(rows, b);
  }

  /** The cumulative length `b` is the number of kept tokens in the rows before `b`. */
  lemma CuSeqlensRows<T>(tokens: seq<seq<T>>, mask: seq<seq<bool>>, width: nat, b: nat)
    requires IsMatrix(tokens, width) && IsMatrix(mask, width) && |tokens| == |mask| && b <= |mask|
    ensures CuSeqlens(mask)[b] == |Concat(KeptRows(tokens, mask, width)[..b])|
    ensures b < |mask| ==> KeptRows(tokens, mask, width)[b] == Kept(tokens[b], mask[b])
  {
    UnpaddedRows(tokens[..b], mask[..b], width);
    CuSeqlensPrefix(mask, b);
    assert KeptRows(tokens[..b], mask[..b], width) == KeptRows(tokens, mask, width)[..b];
  }

  lemma {:induction false} CuSeqlensPrefix(mask: seq<seq<bool>>, b: nat)
    requires b <= |mask|
    ensures CuSeqlens(mask)[b] == CuSeqlens(mask[..b])[b]
    decreases |mask|
  {
    if b < |mask| {
      CuSeqlensPrefix(mask[..|mask| - 1], b);
      assert mask[..|mask| - 1][..b] == mask[..b];
    } else {
      assert mask[..b] == mask;
    }
  }
}
