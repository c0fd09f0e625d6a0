/** The few `Math.*` helpers the scene arithmetic uses, over exact reals. */
module Numeric {

  /** `Math.min` of two reals. */
  function Min(a: real, b: real): (r: real)
    ensures r <= a && r <= b
    ensures r == a || r == b
  {
    if a <= b then a else b
  }

  /** `Math.max` of two reals. */
  function Max(a: real, b: real): (r: real)
    ensures r >= a && r >= b
    ensures r == a || r == b
  {
    if a >= b then a else b
  }

  /** `Math.abs` of a real. */
  function Abs(a: real): (r: real)
    ensures r >= 0.0
    ensures r == a || r == -a
  {
    if a >= 0.0 then a else -a
  }

  /** `b` raised to the natural power `n`. */
  function Pow(b: real, n: nat): real
  {
    if n == 0 then 1.0 else b * Pow(b, n - 1)
  }

  lemma {:induction false} PowPositive(b: real, n: nat)
    requires b > 0.0
    ensures Pow(b, n) > 0.0
  {
    if n > 0 {
      PowPositive(b, n - 1);
    }
  }

  lemma {:induction false} PowAtMostOne(b: real, n: nat)
    requires 0.0 <= b <= 1.0
    ensures 0.0 <= Pow(b, n) <= 1.0
  {
    if n > 0 {
      var q := Pow(b, n - 1);
      PowAtMostOne(b, n - 1);
      MulNonNegative(b, q);
      MulNonNegative(1.0 - b, q);
    }
  }

  lemma MulNonNegative(x: real, y: real)
    requires x >= 0.0 && y >= 0.0
    ensures x * y >= 0.0
  {
  }

  lemma SquareNonNegative(x: real)
    ensures x * x >= 0.0
  {
    if x < 0.0 {
      MulNonNegative(-x, -x);
    } else {
      MulNonNegative(x, x);
    }
  }

  lemma AbsOfProduct(x: real, y: real)
    ensures Abs(x * y) == Abs(x) * Abs(y)
  {
    if x < 0.0 && y >= 0.0 {
      MulNonNegative(-x, y);
    } else if x >= 0.0 && y < 0.0 {
      MulNonNegative(x, -y);
    } else if x < 0.0 && y < 0.0 {
      MulNonNegative(-x, -y);
    } else {
      MulNonNegative(x, y);
    }
  }

  /** A product with a positive factor is non-negative only if the other
      factor is. */
  lemma NonNegativeFactor(a: real, m: real)
    requires m > 0.0 && a * m >= 0.0
    ensures a >= 0.0
  {
    if a < 0.0 {
      MulNonNegative(-a, m);
    }
  }

  /** Where a ratio over a positive height falls, from where its numerator
      falls. */
  lemma RatioBounds(y: real, h: real)
    requires h > 0.0
    ensures y <= 0.0 ==> y / h <= 0.0
    ensures y >= h ==> y / h >= 1.0
    ensures 0.0 <= y <= h ==> 0.0 <= y / h <= 1.0
  {
    var q := y / h;
    assert q * h == y;
    assert (q - 1.0) * h == y - h;
    assert (-q) * h == -y;
    assert (1.0 - q) * h == h - y;
    if y <= 0.0 {
      NonNegativeFactor(-q, h);
    }
    if y >= h {
      NonNegativeFactor(q - 1.0, h);
    }
    if 0.0 <= y <= h {
      NonNegativeFactor(q, h);
      NonNegativeFactor(1.0 - q, h);
    }
  }
}
