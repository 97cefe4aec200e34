/**
 * Facts about products and quotients of reals that the conversions and the
 * waveform need, stated once so that their proofs stay linear.
 */
module RealArith {

  /** The sign of a product with a positive factor is the sign of the other factor. */
  lemma ProductSign(x: real, y: real)
    requires y > 0.0
    ensures x > 0.0 ==> x * y > 0.0
    ensures x < 0.0 ==> x * y < 0.0
  {
  }

  /** Scaling by a fraction in [0, 1] stays between 0 and the value scaled. */
  lemma ScaleAtMost(f: real, m: real)
    requires 0.0 <= f <= 1.0 && m >= 0.0
    ensures 0.0 <= f * m <= m
  {
    if m > 0.0 {
      ProductSign(f, m);
      ProductSign(1.0 - f, m);
    }
  }

  /** Comparing a quotient by a positive divisor with 1 compares the dividend with the divisor. */
  lemma QuotientVersusOne(a: real, b: real)
    requires b > 0.0
    ensures a <= b ==> a / b <= 1.0
    ensures a >= b ==> a / b >= 1.0
  {
    var q := a / b;
    assert q * b == a;
    ProductSign(q - 1.0, b);
  }

  /** Dividing by a positive divisor keeps the order. */
  lemma QuotientMonotone(a1: real, a2: real, b: real)
    requires b > 0.0 && a1 <= a2
    ensures a1 / b <= a2 / b
  {
    var q := (a2 - a1) / b;
    assert q * b == a2 - a1;
    ProductSign(q, b);
    assert a2 / b - a1 / b == q;
  }
}
