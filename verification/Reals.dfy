/** Sign and quotient facts about exact reals that the pricing proofs share. */
module Reals {
  lemma SignOfProduct(x: real, y: real)
    requires y > 0.0
    ensures (x * y > 0.0 <==> x > 0.0) && (x * y == 0.0 <==> x == 0.0)
  {}

  lemma Compare(x: real, y: real, t: real)
    requires t > 0.0
    ensures (x * t < y * t <==> x < y) && (x * t == y * t <==> x == y)
  {
    assert (y - x) * t == y * t - x * t;
    SignOfProduct(y - x, t);
  }

  lemma Inverse(x: real)
    requires x > 0.0
    ensures 1.0 / x > 0.0 && x * (1.0 / x) == 1.0
  {}

  lemma InverseDecreases(x: real, y: real)
    requires 0.0 < x < y
    ensures 1.0 / y < 1.0 / x
  {
    Inverse(x);
    Inverse(y);
    Compare(x, y, 1.0 / y);
    Compare(1.0 / y, 1.0 / x, x);
  }

  lemma Quotient(a: real, b: real, q: real)
    requires b != 0.0 && q * b == a
    ensures a / b == q
  {}

  lemma Negate(a: real, b: real)
    requires b != 0.0
    ensures -a / b == -(a / b)
  {
    Quotient(-a, b, -(a / b));
  }

  lemma Grows(x: real, y: real)
    requires x > 0.0 && y >= 1.0
    ensures x * y >= x
  {
    assert x * y - x == x * (y - 1.0);
    SignOfProduct(y - 1.0, x);
  }
}
