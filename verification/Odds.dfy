/** American and decimal odds. */
module Odds {
  import opened Reals

  /** math.Round: to the nearest integer, halves away from zero. */
  function Round(x: real): int {
    if x >= 0.0 then (x + 0.5).Floor else -((-x + 0.5).Floor)
  }

  function DecimalToAmerican(decimal: real): int {
    if decimal >= 2.0 then Round((decimal - 1.0) * 100.0)
    else if decimal <= 1.0 then 0
    else Round(-100.0 / (decimal - 1.0))
  }

  function AmericanToDecimal(american: int): real {
    if american > 0 then american as real / 100.0 + 1.0
    else if american < 0 then 100.0 / (-american) as real + 1.0
    else 1.0
  }

  function Distance(x: real, y: real): real {
    if x >= y then x - y else y - x
  }

  lemma RoundNearest(x: real)
    ensures Distance(x, Round(x) as real) <= 0.5
    ensures x >= 0.0 ==> Round(x) >= 0
    ensures x >= 100.0 ==> Round(x) >= 100
    ensures x == x.Floor as real ==> Round(x) == x.Floor
    ensures Round(-x) == -Round(x)
    ensures x >= 0.0 && x - x.Floor as real == 0.5 ==> Round(x) == x.Floor + 1
  {}

  lemma PositiveLine(a: int)
    requires a > 0
    ensures var back := DecimalToAmerican(AmericanToDecimal(a)); if a >= 100 then back == a else back <= 0
  {
    var d := AmericanToDecimal(a);
    if a >= 100 {
      assert (d - 1.0) * 100.0 == a as real;
      RoundNearest(a as real);
    } else {
      Negate(100.0, d - 1.0);
      PositiveQuotient(100.0, d - 1.0);
      RoundNearest(100.0 / (d - 1.0));
    }
  }

  lemma PositiveQuotient(a: real, b: real)
    requires a > 0.0 && b > 0.0
    ensures a / b > 0.0
  {
    assert (a / b) * b == a;
    SignOfProduct(a / b, b);
  }

  lemma NegativeLine(a: int)
    requires a < -100
    ensures DecimalToAmerican(AmericanToDecimal(a)) == a
  {
    var n := (-a) as real;
    var x := 100.0 / n;
    assert x * n == 100.0;
    Compare(x, 1.0, n);
    SignOfProduct(x, n);
    assert AmericanToDecimal(a) == x + 1.0;
    Quotient(100.0, x, n);
    Negate(100.0, x);
    RoundNearest(n);
  }

  lemma SmallNegativeLine(a: int)
    requires -100 <= a < 0
    ensures DecimalToAmerican(AmericanToDecimal(a)) >= 100
    ensures a == -100 ==> DecimalToAmerican(AmericanToDecimal(a)) == 100
  {
    var n := (-a) as real;
    var x := 100.0 / n;
    assert x * n == 100.0;
    Compare(x, 1.0, n);
    assert AmericanToDecimal(a) == x + 1.0;
    assert x >= 1.0;
    if a == -100 {
      assert n == 100.0 && x == 1.0;
    }
    RoundNearest(x * 100.0);
    assert DecimalToAmerican(x + 1.0) == Round(x * 100.0);
  }

  /**
   A line survives the trip to decimal and back exactly when it is 100 or more,
   less than -100, or 0; -100 becomes 100.
   */
  lemma AmericanRoundTrip(a: int)
    ensures DecimalToAmerican(AmericanToDecimal(a)) == a <==> a >= 100 || a < -100 || a == 0
    ensures a == -100 ==> DecimalToAmerican(AmericanToDecimal(a)) == 100
  {
    hide DecimalToAmerican, AmericanToDecimal;
    if a > 0 { PositiveLine(a); }
    if a < -100 { NegativeLine(a); }
    if -100 <= a < 0 { SmallNegativeLine(a); }
    if a == 0 { ZeroLine(); }
  }

  lemma ZeroLine()
    ensures DecimalToAmerican(AmericanToDecimal(0)) == 0
  {}

  /** A decimal price goes to a line and back with an error of at most half a cent per dollar, on both branches. */
  lemma DecimalRoundTrip(d: real)
    requires d > 1.0
    ensures Distance(AmericanToDecimal(DecimalToAmerican(d)), d) <= 0.005
  {
    if d >= 2.0 {
      RoundNearest((d - 1.0) * 100.0);
    } else {
      var x := d - 1.0;
      var y := 100.0 / x;
      assert y * x == 100.0;
      assert y > 100.0;
      Negate(100.0, x);
      RoundNearest(y);
      var n := Round(y);
      assert DecimalToAmerican(d) == -n && n >= 100;
      NearReciprocal(x, y, n as real);
    }
  }

  lemma NearReciprocal(x: real, y: real, n: real)
    requires 0.0 < x < 1.0 && y * x == 100.0 && n >= 100.0 && Distance(y, n) <= 0.5
    ensures Distance(100.0 / n, x) <= 0.005
  {
    var z := 100.0 / n;
    assert z * n == 100.0;
    assert z <= 1.0;
    assert n * (z - x) == 100.0 - n * x == (y - n) * x;
    var e, g := z - x, (y - n) * x;
    assert e * n == g;
    assert (n - y) * x == -g;
    Halved(y - n, x);
    Halved(n - y, x);
    assert -0.5 <= e * n <= 0.5;
    Compare(0.005, e, n);
    Compare(e, -0.005, n);
  }

  lemma Halved(a: real, x: real)
    requires a <= 0.5 && 0.0 < x < 1.0
    ensures a * x <= 0.5
  {
    Compare(a, 0.5, x);
  }

  /** A line is 100 or more for decimals of 2 and up, and -100 or less between 1 and 2. */
  lemma LineOfDecimal(d: real)
    requires d > 1.0
    ensures if d >= 2.0 then DecimalToAmerican(d) >= 100 else DecimalToAmerican(d) <= -100
  {
    if d >= 2.0 {
      RoundNearest((d - 1.0) * 100.0);
    } else {
      LineOfShortPrice(d - 1.0);
    }
  }

  lemma LineOfShortPrice(x: real)
    requires 0.0 < x < 1.0
    ensures DecimalToAmerican(x + 1.0) <= -100
  {
    var y := 100.0 / x;
    assert 100.0 * x < y * x by {
      assert y * x == 100.0;
    }
    Compare(100.0, y, x);
    Negate(100.0, x);
    RoundNearest(y);
    assert Round(y) >= 100;
    assert DecimalToAmerican(x + 1.0) == -Round(y);
  }
}
