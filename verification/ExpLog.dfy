/**
 The logit shift over exact reals. The exponential and the logarithm are
 parameters: any pair of functions with the laws that single out e^x and ln x.
 */
module ExpLog {
  // ---------------------------------------------------------------- e^x and ln x

  ghost predicate IsExp(exp: real -> real) {
    && (forall x, y :: exp(x + y) == exp(x) * exp(y))
    && (forall x :: exp(x) >= 1.0 + x)
  }

  ghost predicate IsExpLog(exp: real -> real, log: real -> real) {
    IsExp(exp) && forall x | x > 0.0 :: exp(log(x)) == x
  }

  lemma ExpSum(exp: real -> real, x: real, y: real)
    requires IsExp(exp)
    ensures exp(x + y) == exp(x) * exp(y)
  {}

  lemma ExpAbove(exp: real -> real, x: real)
    requires IsExp(exp)
    ensures exp(x) >= 1.0 + x
  {}

  lemma ExpPositive(exp: real -> real, x: real)
    requires IsExp(exp)
    ensures exp(0.0) == 1.0
    ensures exp(x) > 0.0 && exp(-x) > 0.0 && exp(x) * exp(-x) == 1.0
  {
    hide IsExp;
    var h := x / 2.0;
    ExpSum(exp, 0.0, 0.0);
    ExpAbove(exp, 0.0);
    ExpSum(exp, h, h);
    ExpSum(exp, -h, -h);
    ExpSum(exp, x, -x);
    assert h + h == x && -h + -h == -x && x + -x == 0.0;
  }

  lemma ExpIncreasing(exp: real -> real, x: real, y: real)
    requires IsExp(exp) && x < y
    ensures exp(x) < exp(y)
  {
    hide IsExp;
    ExpPositive(exp, x);
    ExpSum(exp, x, y - x);
    ExpAbove(exp, y - x);
    var a, b := exp(x), exp(y - x);
    assert a > 0.0 && b > 1.0;
    assert a * b > a;
  }

  // ---------------------------------------------------------------- the logit shift

  function Logit(log: real -> real, p: real): real
    requires p != 1.0
  {
    log(p / (1.0 - p))
  }

  /** 1 + exp(-x) is positive for the real exponential; a zero divisor cannot occur. */
  function Sigmoid(exp: real -> real, x: real): real {
    var d := 1.0 + exp(-x);
    if d == 0.0 then 0.0 else 1.0 / d
  }

  /** The implied probability after multiplying the odds by m. */
  function Vigged(m: real, p: real): (q: real)
    requires m > 0.0 && 0.0 < p < 1.0
    ensures 0.0 < q < 1.0
    ensures q * (m * p + 1.0 - p) == m * p
  {
    m * p / (m * p + 1.0 - p)
  }

  lemma ExpOfLogit(exp: real -> real, log: real -> real, p: real)
    requires IsExpLog(exp, log) && 0.0 < p < 1.0
    ensures exp(Logit(log, p)) > 0.0 && exp(Logit(log, p)) * (1.0 - p) == p
  {
    var odds := p / (1.0 - p);
    assert odds * (1.0 - p) == p;
    assert exp(log(odds)) == odds;
  }

  lemma ExpOfShift(exp: real -> real, l: real, delta: real)
    requires IsExp(exp)
    ensures exp(l) * exp(delta) * exp(-(l + delta)) == 1.0 && exp(-(l + delta)) > 0.0
  {
    hide IsExp;
    ExpSum(exp, l, delta);
    ExpPositive(exp, l + delta);
  }

  lemma SigmoidOf(exp: real -> real, x: real, e: real)
    requires exp(-x) == e > 0.0
    ensures Sigmoid(exp, x) == 1.0 / (1.0 + e)
  {}

  /** sigmoid(logit(p) + delta) is rational in e^delta: the odds p/(1-p) are multiplied by e^delta. */
  lemma LogitShift(exp: real -> real, log: real -> real, p: real, delta: real)
    requires IsExpLog(exp, log) && 0.0 < p < 1.0
    ensures exp(delta) > 0.0
    ensures Sigmoid(exp, Logit(log, p) + delta) == Vigged(exp(delta), p)
  {
    hide IsExpLog, IsExp, Logit, Vigged, Sigmoid;
    var l := Logit(log, p);
    ExpOfLogit(exp, log, p);
    ExpLogIsExp(exp, log);
    assert exp(delta) > 0.0 by { ExpPositive(exp, delta); }
    ExpOfShift(exp, l, delta);
    ShiftAlgebra(p, exp(l), exp(delta), exp(-(l + delta)));
    SigmoidOf(exp, l + delta, exp(-(l + delta)));
  }

  lemma ExpLogIsExp(exp: real -> real, log: real -> real)
    requires IsExpLog(exp, log)
    ensures IsExp(exp)
  {}

  lemma ShiftAlgebra(p: real, odds: real, m: real, e: real)
    requires 0.0 < p < 1.0 && m > 0.0 && e > 0.0 && odds > 0.0
    requires odds * (1.0 - p) == p && odds * m * e == 1.0
    ensures 1.0 / (1.0 + e) == Vigged(m, p)
  {
    var k := 1.0 - p;
    assert (odds * m * e) * k == k;
    assert (odds * m * e) * k == (odds * k) * (m * e) == p * (m * e);
    var mp := m * p;
    assert mp > 0.0;
    assert mp * e == k;
    assert mp * (1.0 + e) == mp + k;
    assert Vigged(m, p) * (mp + k) == mp;
    assert Vigged(m, p) == mp / (mp * (1.0 + e));
    QuotientCancel(mp, 1.0 + e);
  }

  lemma QuotientCancel(a: real, b: real)
    requires a > 0.0 && b > 0.0
    ensures a * b > 0.0 && a / (a * b) == 1.0 / b
  {
    var q := 1.0 / b;
    assert q * b == 1.0;
    assert (a * b) * q == a;
  }
}
