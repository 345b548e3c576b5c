/** Order facts about products of reals that the solver needs to be handed one at a time. */
module RealMath {
  lemma MulLe(a: real, b: real, c: real)
    requires a <= b && c >= 0.0
    ensures a * c <= b * c
  {
    assert (b - a) * c >= 0.0;
  }

  lemma MulLt(a: real, b: real, c: real)
    requires a < b && c > 0.0
    ensures a * c < b * c
  {
    assert (b - a) * c > 0.0;
  }

  lemma Distribute(a: real, b: real, c: real)
    ensures a * c + b * c == (a + b) * c
  {
  }

  lemma MulNonNegative(a: real, b: real)
    requires a >= 0.0 && b >= 0.0
    ensures a * b >= 0.0
  {
  }

  lemma MulSwap(a: real, b: real, c: real)
    ensures a * (b * c) == b * (a * c)
  {
  }

  lemma QuotientTimes(x: real, d: real)
    requires d != 0.0
    ensures x / d * d == x
  {
  }

  lemma QuotientIs(x: real, d: real, q: real)
    requires d != 0.0 && q * d == x
    ensures x / d == q
  {
    QuotientTimes(x, d);
    assert (x / d - q) * d == x / d * d - q * d;
  }
}
