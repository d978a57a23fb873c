/** Products and quotients. */
module Arithmetic {
  function Max(a: int, b: int): int { if a >= b then a else b }

  function Min(a: int, b: int): int { if a <= b then a else b }

  lemma {:induction false} OneMore(x: nat, y: nat, b: nat)
    requires x < y
    ensures x * b + b <= y * b
  {
    StepDown(y, b);
    if x + 1 < y {
      OneMore(x, y - 1, b);
    }
  }

  lemma StepDown(y: nat, b: nat)
    requires y > 0
    ensures y * b == (y - 1) * b + b
  {
  }

  lemma PositiveProduct(h: nat, n: nat)
    requires h > 0 && n > 0
    ensures h * n > 0
  {
  }

  lemma DivisionUnique(n: nat, q: nat, m: nat, x: nat, rest: nat)
    requires q * n + m == x * n + rest && m < n && rest < n
    ensures q == x && m == rest
  {
    if q < x {
      OneMore(q, x, n);
    } else if x < q {
      OneMore(x, q, n);
    }
  }

  lemma DivisionIs(y: nat, n: nat)
    requires n > 0
    ensures (y / n) * n + y % n == y && y % n < n
  {
  }

  lemma QuotientIs(n: nat, x: nat, rest: nat)
    requires rest < n
    ensures (x * n + rest) / n == x && (x * n + rest) % n == rest
  {
    var y := x * n + rest;
    DivisionIs(y, n);
    DivisionUnique(n, y / n, y % n, x, rest);
  }

  lemma Associates(x: nat, y: nat, z: nat)
    ensures x * y * z == x * (y * z)
  {
  }

  lemma Commutes(x: nat, y: nat)
    ensures x * y == y * x
  {
  }

  lemma QuotientPositive(y: nat, n: nat)
    requires n > 0
    ensures y / n > 0 <==> n <= y
  {
    DivisionIs(y, n);
  }

  /** `y // n` */
  function Quotient(y: nat, n: nat): nat
    requires n > 0
  {
    y / n
  }

  lemma Monotone(a: int, b: int, k: nat)
    requires a <= b
    ensures a * k <= b * k
  {
  }

  /** `a // b` of the original, which rounds down also for negative numbers. */
  function FloorDiv(a: int, b: int): int
    requires b != 0
  {
    if b > 0 then a / b else (-a) / (-b)
  }

  lemma FloorDivIs(a: int, b: int)
    requires b > 0
    ensures FloorDiv(a, b) * b <= a < FloorDiv(a, b) * b + b
    ensures a >= 0 ==> FloorDiv(a, b) >= 0
  {
  }

  /** `n` times `b` reaches `a`, in the direction in which multiples of `b` grow. */
  predicate Reaches(n: int, b: int, a: int) {
    if b > 0 then n * b >= a else n * b <= a
  }

  /** `ceildiv` */
  function Ceildiv(a: int, b: int): int
    requires b != 0
  {
    -FloorDiv(a, -b)
  }

  /** `Ceildiv(a, b)` is the least integer that is at least the quotient of `a` and `b`. */
  lemma CeildivIsLeast(a: int, b: int, c: int)
    requires b != 0
    ensures Ceildiv(a, b) <= c <==> Reaches(c, b, a)
  {
    if b > 0 {
      CeilingOf(a, b, c);
    } else {
      CeilingOf(-a, -b, c);
      assert (-c) * (-b) == -(c * -b) && c * -b == -(c * b);
    }
  }

  lemma CeilingOf(a: int, b: nat, c: int)
    requires b > 0
    ensures -((-a) / b) <= c <==> c * b >= a
  {
    var q := (-a) / b;
    FloorDivIs(-a, b);
    assert (-q) * b == -(q * b);
    if c >= -q {
      Monotone(-q, c, b);
    } else {
      Monotone(c, -q - 1, b);
      assert (-q - 1) * b == (-q) * b - b;
    }
  }

  lemma CeildivNatural(a: nat, b: nat)
    requires b > 0
    ensures Ceildiv(a, b) >= 0
  {
    CeildivIsLeast(a, b, -1);
  }

  lemma AtLeastAsMany(c: nat, r: nat, b: nat)
    requires c <= r
    ensures c * b <= r * b
  {
    if c < r {
      OneMore(c, r, b);
    }
  }
}
