/** 17.14 fixed-point arithmetic of src/threads/fixed_point.h, on unbounded integers.
    The functions ending in 32 repeat the operations with the widths of the C types:
    they yield None as soon as an intermediate value leaves `int` or `int64_t`. */
module FixedPoint {
  import opened Options

  const F: int := 0x4000

  /** The quotient of C: truncated toward zero, whatever the signs. */
  function TruncDiv(a: int, b: int): int
    requires b != 0
  {
    var m := if a < 0 then -a else a;
    var n := if b < 0 then -b else b;
    if (a < 0) == (b < 0) then m / n else -(m / n)
  }

  function Abs(x: int): nat {
    if x < 0 then -x else x
  }

  /** The remainder is smaller than the divisor and takes the sign of the dividend. */
  predicate IsTruncated(a: int, b: int, product: int) {
    && Abs(a - product) < Abs(b)
    && (a >= 0 ==> 0 <= product <= a)
    && (a <= 0 ==> a <= product <= 0)
  }

  /** C's `/` is characterised by its remainder, for operands of either sign. */
  lemma TruncDivIsTheCQuotient(a: int, b: int, q: int)
    requires b != 0
    ensures q == TruncDiv(a, b) <==> IsTruncated(a, b, q * b)
  {
    TruncDivRemainder(a, b);
    if IsTruncated(a, b, q * b) {
      SameMultiple(q, TruncDiv(a, b), b);
    }
  }

  lemma TruncDivRemainder(a: int, b: int)
    requires b != 0
    ensures IsTruncated(a, b, TruncDiv(a, b) * b)
  {
    if b > 0 {
      TruncDivBounds(a, b);
    } else {
      TruncDivBounds(a, -b);
      SignedProducts(TruncDiv(a, -b), b);
      assert TruncDiv(a, b) == -TruncDiv(a, -b);
    }
  }

  lemma SignedProducts(k: int, n: int)
    ensures (-k) * n == -(k * n) && k * (-n) == -(k * n) && (-k) * (-n) == k * n
  {}

  /** Two multiples of b closer than |b| are the same multiple. */
  lemma SameMultiple(p: int, q: int, b: int)
    requires b != 0 && Abs(p * b - q * b) < Abs(b)
    ensures p == q
  {
    assert p * b - q * b == (p - q) * b;
    MultipleIsFar(p - q, b);
  }

  lemma MultipleIsFar(d: int, b: int)
    ensures d != 0 ==> Abs(d * b) >= Abs(b)
  {
    if d > 0 && b >= 0 { assert d * b >= b; }
    if d > 0 && b < 0 { assert d * b <= b; }
    if d < 0 && b >= 0 { assert d * b <= -b; }
    if d < 0 && b < 0 { assert d * b >= -b; }
  }

  lemma TruncDivBounds(a: int, b: int)
    requires b > 0
    ensures a >= 0 ==> 0 <= TruncDiv(a, b) * b <= a < TruncDiv(a, b) * b + b
    ensures a <= 0 ==> TruncDiv(a, b) * b - b < a <= TruncDiv(a, b) * b <= 0
    ensures a >= 0 ==> TruncDiv(a, b) >= 0
    ensures a <= 0 ==> TruncDiv(a, b) <= 0
  {
    var m := Abs(a);
    assert b * (m / b) <= m < b * (m / b) + b;
    assert (-(m / b)) * b == -(b * (m / b));
  }

  lemma TruncDivMonotone(a: int, c: int, b: int)
    requires a <= c && b > 0
    ensures TruncDiv(a, b) <= TruncDiv(c, b)
  {
    if 0 <= a {
      QuotientMonotone(a, c, b);
    } else if c < 0 {
      QuotientMonotone(-c, -a, b);
    } else {
      TruncDivBounds(a, b);
      TruncDivBounds(c, b);
    }
  }

  lemma QuotientMonotone(a: nat, c: nat, b: int)
    requires a <= c && b > 0
    ensures a / b <= c / b
  {
    var p, q := a / b, c / b;
    QuotientBounds(a, b);
    QuotientBounds(c, b);
    if p > q {
      StepsApart(b, q, p);
    }
  }

  lemma QuotientBounds(a: nat, b: int)
    requires b > 0
    ensures b * (a / b) <= a < b * (a / b) + b
  {}

  lemma StepsApart(b: int, q: int, p: int)
    requires b > 0 && p > q
    ensures b * p >= b * q + b
  {
    assert b * p - b * q - b == b * (p - q - 1);
    assert b * (p - q - 1) >= 0;
  }

  function IntToFp(n: int): int { n * F }

  function FpToInt(x: int): int { TruncDiv(x, F) }

  function FpToIntNearest(x: int): int {
    if x >= 0 then TruncDiv(x + F / 2, F) else TruncDiv(x - F / 2, F)
  }

  function FpAdd(x: int, y: int): int { x + y }

  function FpAddInt(x: int, n: int): int { x + n * F }

  function FpMul(x: int, y: int): int { TruncDiv(x * y, F) }

  function FpMulInt(x: int, n: int): int { x * n }

  function FpDiv(x: int, y: int): int
    requires y != 0
  {
    TruncDiv(x * F, y)
  }

  function FpDivInt(x: int, n: int): int
    requires n != 0
  {
    TruncDiv(x, n)
  }

  /** Rounding to nearest is within half a unit, ties away from zero, and it undoes
      IntToFp even after any perturbation smaller than half a unit. */
  lemma NearestWithinHalf(x: int)
    ensures var r := FpToIntNearest(x);
            && 2 * Abs(x - IntToFp(r)) <= F
            && (2 * Abs(x - IntToFp(r)) == F ==> Abs(IntToFp(r)) > Abs(x))
    ensures forall n, d :: x == IntToFp(n) + d && 2 * Abs(d) < F ==> FpToIntNearest(x) == n
  {
    TruncDivBounds(x + F / 2, F);
    TruncDivBounds(x - F / 2, F);
    forall n, d | x == IntToFp(n) + d && 2 * Abs(d) < F
      ensures FpToIntNearest(x) == n
    {
      SameMultiple(FpToIntNearest(x), n, F);
    }
  }

  // ----- the same operations in C's widths -----

  predicate Int32(x: int) { -0x8000_0000 <= x < 0x8000_0000 }

  predicate Int64(x: int) { -0x8000_0000_0000_0000 <= x < 0x8000_0000_0000_0000 }

  function Narrow(x: int): Option<int> { if Int32(x) then Some(x) else None }

  function Add32(x: int, y: int): Option<int> { Narrow(x + y) }

  function Mul32(x: int, y: int): Option<int> { Narrow(x * y) }

  function FpAddInt32(x: int, n: int): Option<int> {
    var scaled :- Mul32(n, F);
    Add32(x, scaled)
  }

  function FpMul32(x: int, y: int): Option<int> {
    if Int64(x * y) then Narrow(TruncDiv(x * y, F)) else None
  }

  function FpDiv32(x: int, y: int): Option<int> {
    if y != 0 && Int64(x * F) then Narrow(TruncDiv(x * F, y)) else None
  }
}
