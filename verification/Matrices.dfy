/** Matrices as lists of rows, and their flattened form. */
module Matrices {
  import opened Arithmetic
  import opened Seqs

  /** `rows` is a matrix with rows of length `width`. */
  predicate IsMatrix<T>(rows: seq<seq<T>>, width: nat) {
    forall b :: 0 <= b < |rows| ==> |rows[b]| == width
  }

  /** The position of row `b`, column `c` in the flattened matrix. */
  function Flat(b: nat, c: nat, width: nat): nat { b * width + c }

  lemma {:induction false} FlattenAt<T>(rows: seq<seq<T>>, width: nat, b: nat, c: nat)
    requires IsMatrix(rows, width) && b < |rows| && c < width
    ensures |Concat(rows)| == |rows| * width
    ensures Flat(b, c, width) < |Concat(rows)| && Concat(rows)[Flat(b, c, width)] == rows[b][c]
    decreases |rows|
  {
    var front := rows[..|rows| - 1];
    FlattenedSize(front, width);
    FlattenedSize(rows, width);
    if b < |front| {
      FlattenAt(front, width, b, c);
    }
  }

  lemma {:induction false} FlattenedSize<T>(rows: seq<seq<T>>, width: nat)
    requires IsMatrix(rows, width)
    ensures |Concat(rows)| == |rows| * width
    decreases |rows|
  {
    if rows != [] {
      FlattenedSize(rows[..|rows| - 1], width);
      StepDown(|rows|, width);
    }
  }

  lemma {:induction false} FlatInRange(b: nat, c: nat, height: nat, width: nat)
    requires b < height && c < width
    ensures Flat(b, c, width) < height * width
  {
    if b + 1 < height {
      FlatInRange(b, c, height - 1, width);
    }
    StepDown(height, width);
  }

  /** `rearrange("(b s) -> b s")` */
  function Rows<T>(flat: seq<T>, height: nat, width: nat): (r: seq<seq<T>>)
    requires |flat| == height * width
    ensures |r| == height && IsMatrix(r, width)
  {
    seq(height, b requires 0 <= b < height =>
      seq(width, c requires 0 <= c < width => (FlatInRange(b, c, height, width); flat[Flat(b, c, width)])))
  }

  lemma {:induction false} Unflat(i: nat, height: nat, width: nat) returns (b: nat, c: nat)
    requires i < height * width
    ensures b < height && c < width && i == Flat(b, c, width)
    decreases height
  {
    StepDown(height, width);
    if i < (height - 1) * width {
      b, c := Unflat(i, height - 1, width);
    } else {
      b, c := height - 1, i - (height - 1) * width;
    }
  }
}
