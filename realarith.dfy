/** Small facts of real arithmetic. The solver handles products of
    variables poorly, so each step that multiplies or divides is proved here
    on its own, in a context that holds nothing else. */
module RealArith {

  lemma MulPos(a: real, b: real)
    requires 0.0 < a && 0.0 < b
    ensures 0.0 < a * b
  {
  }

  lemma MulNonneg(a: real, b: real)
    requires 0.0 <= a && 0.0 <= b
    ensures 0.0 <= a * b
  {
  }

  lemma MulNonzero(a: real, b: real)
    requires a != 0.0 && b != 0.0
    ensures a * b != 0.0
  {
    if a > 0.0 {
      if b > 0.0 { MulPos(a, b); } else { MulPos(a, -b); }
    } else {
      if b > 0.0 { MulPos(-a, b); } else { MulPos(-a, -b); }
    }
  }

  lemma MulCancel(x: real, y: real, s: real)
    requires s != 0.0 && x * s == y * s
    ensures x == y
  {
    if x != y {
      MulNonzero(x - y, s);
    }
  }

  lemma MulEq(x: real, y: real, z: real)
    requires x == y
    ensures x * z == y * z
  {
  }

  lemma SquareEq(x: real, y: real)
    requires x == y
    ensures x * x == y * y
  {
  }

  lemma SquareNonneg(a: real)
    ensures 0.0 <= a * a
  {
  }

  lemma SquareMonotone(a: real, b: real)
    requires 0.0 <= a <= b
    ensures a * a <= b * b
  {
    assert a * a <= a * b;
    assert a * b <= b * b;
  }

  lemma DivThenMul(c: real, s: real)
    requires s != 0.0
    ensures c / s * s == c
  {
  }

  lemma SumOfSquaresScaled(a: real, b: real, s: real)
    ensures ((a * a + b * b) * s) * s == (a * s) * (a * s) + (b * s) * (b * s)
  {
  }

  lemma ScaledSquares(a: real, b: real, m: real, n: real)
    ensures (a * n) * (a * n) + (b * m) * (b * m) == (a * a) * (n * n) + (b * b) * (m * m)
  {
  }

  /** A weighted mean of `lo` and `hi` lies between them. */
  lemma ConvexBounds(p: real, q: real, lo: real, hi: real)
    requires 0.0 <= p && 0.0 <= q && p + q == 1.0 && lo <= hi
    ensures lo <= p * hi + q * lo <= hi
  {
    MulNonneg(p, hi - lo);
    MulNonneg(q, hi - lo);
    MulEq(q, 1.0 - p, lo);
    MulEq(p, 1.0 - q, hi);
  }

  /** If `(x, y) = s * (a, b)` and `s` is the length of `(x, y)`, then
      `(a, b)` has length one. */
  lemma UnitProducts(a: real, b: real, x: real, y: real, s: real)
    requires a * s == x && b * s == y && s * s == x * x + y * y && s != 0.0
    ensures a * a + b * b == 1.0
  {
    SquareEq(a * s, x);
    SquareEq(b * s, y);
    SumOfSquaresScaled(a, b, s);
    MulCancel((a * a + b * b) * s, s, s);
    MulCancel(a * a + b * b, 1.0, s);
  }
}
