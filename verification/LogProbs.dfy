/** Response log-probabilities on the padded and on the unpadded form. The log-probability itself is a parameter. */
module LogProbs {
  import opened Options
  import opened Seqs
  import opened Matrices
  import opened Unpadding

  function ZipWith<L, X>(lp: (L, X) -> real, logits: seq<L>, labels: seq<X>): (r: seq<real>)
    requires |logits| == |labels|
    ensures |r| == |labels|
  {
    seq(|labels|, k requires 0 <= k < |labels| => lp(logits[k], labels[k]))
  }

  /** `log_probs_from_logits_response` on one row; nothing where the shapes of logits and labels differ. */
  function DenseRow<L, X>(lp: (L, X) -> real, ids: seq<X>, logits: seq<L>, responseLength: nat): Option<seq<real>>
    requires |ids| == |logits|
  {
    var responseLogits := Slice(logits, -(responseLength as int) - 1, -1);
    var response := Slice(ids, -(responseLength as int), |ids|);
    if |responseLogits| == |response| then Some(ZipWith(lp, responseLogits, response)) else None
  }

  /** The dense form exists exactly when the response is shorter than the row and not empty. */
  lemma DenseExists<L, X>(lp: (L, X) -> real, ids: seq<X>, logits: seq<L>, responseLength: nat)
    requires |ids| == |logits| > 0
    ensures DenseRow(lp, ids, logits, responseLength).Some? <==> 0 < responseLength < |ids|
    ensures 0 < responseLength < |ids| ==>
      var row := DenseRow(lp, ids, logits, responseLength).value;
      var start := |ids| - responseLength;
      |row| == responseLength && forall j :: 0 <= j < responseLength ==> row[j] == lp(logits[start + j - 1], ids[start + j])
  {
  }

  /** `roll(s, shifts=-1)` */
  function Roll<T>(s: seq<T>): (r: seq<T>)
    ensures |r| == |s|
  {
    if s == [] then [] else s[1..] + [s[0]]
  }

  /** `log_probs_from_logits_response_rmpad` */
  function Rmpad<L, X>(lp: (L, X) -> real, ids: seq<seq<X>>, mask: seq<seq<bool>>, width: nat, logitsRmpad: seq<L>,
                       responseLength: nat): (r: seq<seq<real>>)
    requires IsMatrix(ids, width) && IsMatrix(mask, width) && |ids| == |mask|
    requires |logitsRmpad| == |Nonzero(Concat(mask))|
    ensures |r| == |mask|
  {
    FlattenedSize(mask, width);
    var (idsRmpad, indices) := UnpadInput(ids, mask, width);
    var fullLogProbs := ZipWith(lp, logitsRmpad, Roll(idsRmpad));
    var full := PadInput(fullLogProbs, indices, |mask|, width, 0.0);
    seq(|full|, b requires 0 <= b < |full| => Slice(full[b], -(responseLength as int) - 1, -1))
  }

  /** `n` is the first kept position after `i`, or the first of all when nothing is kept after `i`. */
  predicate NextKept(mask: seq<bool>, i: nat, n: nat) {
    && n < |mask| && mask[n]
    && if i < n then (forall m :: i < m < n ==> !mask[m])
       else forall m :: 0 <= m < |mask| && (m < n || i < m) ==> !mask[m]
  }

  /** Ranks of kept positions increase. */
  lemma RankGrows(mask: seq<bool>, i: nat, j: nat)
    requires i < j <= |mask| && mask[i]
    ensures Rank(mask, i) < Rank(mask, j)
  {
    assert mask[..j][..i] == mask[..i];
    NonzeroAt(mask[..j], i);
  }

  /** Kept positions stand in the list of kept positions at their ranks. */
  lemma RankIs(mask: seq<bool>, m: nat, i: nat)
    requires m < |mask| && i < |mask| && mask[m] && mask[i]
    ensures Rank(mask, m) < |Nonzero(mask)| && Nonzero(mask)[Rank(mask, m)] == m
    ensures (m < i ==> Rank(mask, m) < Rank(mask, i)) && (i < m ==> Rank(mask, i) < Rank(mask, m))
  {
    NonzeroAt(mask, m);
    hide Rank, Nonzero;
    if m < i {
      RankGrows(mask, m, i);
    } else if i < m {
      RankGrows(mask, i, m);
    }
  }

  /** The label of a kept position is the next kept token, even when that one lies in another row. */
  lemma RolledLabel<T>(tokens: seq<T>, mask: seq<bool>, i: nat) returns (n: nat)
    requires |tokens| == |mask| && i < |mask| && mask[i]
    ensures NextKept(mask, i, n)
    ensures Rank(mask, i) < |Nonzero(mask)| && Roll(Kept(tokens, mask))[Rank(mask, i)] == tokens[n]
  {
    hide Rank, Nonzero;
    var indices, k := Nonzero(mask), Rank(mask, i);
    RankIs(mask, i, i);
    var next := if k + 1 < |indices| then k + 1 else 0;
    n := indices[next];
    NonzeroKeeps(mask, next);
    forall m | 0 <= m < |mask| && mask[m]
      ensures Rank(mask, m) < |indices| && indices[Rank(mask, m)] == m
      ensures m < i ==> Rank(mask, m) < k
      ensures i < m ==> k < Rank(mask, m)
      ensures m < n ==> Rank(mask, m) < next
      ensures n < m ==> next < Rank(mask, m)
    {
      RankIs(mask, m, i);
      RankIs(mask, m, n);
    }
  }

  /** The value at one position: zero where it is masked, otherwise the log-probability of the rolled label. */
  lemma RmpadAt<L, X>(lp: (L, X) -> real, ids: seq<seq<X>>, mask: seq<seq<bool>>, width: nat,
                      logits: seq<seq<L>>, responseLength: nat, b: nat, j: nat)
    requires IsMatrix(ids, width) && IsMatrix(mask, width) && IsMatrix(logits, width)
    requires |ids| == |mask| == |logits| && 0 < responseLength < width && b < |mask| && j < responseLength
    ensures |Concat(ids)| == |Concat(mask)|
    ensures var p := width - responseLength - 1 + j;
      var output := Rmpad(lp, ids, mask, width, UnpadInput(logits, mask, width).0, responseLength)[b];
      var i := Flat(b, p, width);
      && |output| == responseLength && i < |Concat(mask)| && Concat(mask)[i] == mask[b][p]
      && (mask[b][p] ==> Rank(Concat(mask), i) < |Nonzero(Concat(mask))|)
      && output[j] == if mask[b][p] then lp(logits[b][p], Roll(Kept(Concat(ids), Concat(mask)))[Rank(Concat(mask), i)]) else 0.0
  {
    var p := width - responseLength - 1 + j;
    var values := ZipWith(lp, UnpadInput(logits, mask, width).0, Roll(UnpadInput(ids, mask, width).0));
    hide Nonzero, Concat, Scatter, Roll, PadInput;
    FlattenedSize(ids, width);
    FlattenedSize(logits, width);
    FlattenAt(mask, width, b, p);
    PaddedAt(values, mask, width, 0.0, b, p);
    if mask[b][p] {
      FlattenAt(logits, width, b, p);
      NonzeroAt(Concat(mask), Flat(b, p, width));
    }
  }

  /**
   * The unpadded form refines the dense one. At response position `j` of row `b`, whose logits stand at column `p`:
   * zero where column `p` is masked; the dense value where columns `p` and `p + 1` are both kept; and otherwise the
   * log-probability of the next kept token of the batch, whichever row it belongs to.
   */
  lemma RmpadRefinesDense<L, X>(lp: (L, X) -> real, ids: seq<seq<X>>, mask: seq<seq<bool>>, width: nat,
                                logits: seq<seq<L>>, responseLength: nat, b: nat, j: nat) returns (n: nat)
    requires IsMatrix(ids, width) && IsMatrix(mask, width) && IsMatrix(logits, width)
    requires |ids| == |mask| == |logits| && 0 < responseLength < width && b < |mask| && j < responseLength
    ensures var p := width - responseLength - 1 + j;
      var output := Rmpad(lp, ids, mask, width, UnpadInput(logits, mask, width).0, responseLength)[b];
      var dense := DenseRow(lp, ids[b], logits[b], responseLength);
      && |output| == responseLength && dense.Some? && |dense.value| == responseLength
      && (!mask[b][p] ==> output[j] == 0.0)
      && (mask[b][p] && mask[b][p + 1] ==> output[j] == dense.value[j])
      && (mask[b][p] && !mask[b][p + 1] ==>
            n < |Concat(ids)| && NextKept(Concat(mask), Flat(b, p, width), n) && output[j] == lp(logits[b][p], Concat(ids)[n]))
  {
    hide Nonzero, Concat, Rmpad, Roll, Rank, DenseRow;
    n := 0;
    var p := width - responseLength - 1 + j;
    var i := Flat(b, p, width);
    DenseExists(lp, ids[b], logits[b], responseLength);
    RmpadAt(lp, ids, mask, width, logits, responseLength, b, j);
    if mask[b][p] {
      n := RolledLabel(Concat(ids), Concat(mask), i);
      FlattenAt(mask, width, b, p + 1);
      FlattenAt(ids, width, b, p + 1);
      if mask[b][p + 1] {
        assert n == i + 1;
      }
    }
  }
}
