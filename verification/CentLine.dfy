/** The bisection for the vig that makes a 20-cent line. */
module CentLine {
  import opened ExpLog
  import opened Reals

  function AmericanFloat(decimal: real): real {
    if decimal >= 2.0 then (decimal - 1.0) * 100.0
    else if decimal <= 1.0 then 0.0
    else -100.0 / (decimal - 1.0)
  }

  function CentSpread(qFav: real, qDog: real): real
    requires qFav > 0.0 && qDog > 0.0
  {
    var aFav := AmericanFloat(1.0 / qFav);
    var aDog := AmericanFloat(1.0 / qDog);
    if aFav < 0.0 && aDog >= 0.0 then -aFav - aDog
    else if aFav < 0.0 && aDog < 0.0 then -aFav - aDog - 200.0
    else 0.0
  }

  /** The spread of the fair pair p, 1-p with the odds of both sides multiplied by m. */
  function SpreadAt(m: real, p: real): real
    requires m > 0.0 && 0.0 < p < 1.0
  {
    var q0, q1 := Vigged(m, p), Vigged(m, 1.0 - p);
    if q1 > q0 then CentSpread(q1, q0) else CentSpread(q0, q1)
  }

  function Pow2(n: nat): (r: real)
    ensures r > 0.0
  {
    if n == 0 then 1.0 else 2.0 * Pow2(n - 1)
  }

  // ---------------------------------------------------------------- the spread in closed form

  /** The spread for odds r >= 1 of the favourite: the dog's line is positive up to m = r, negative beyond. */
  function Spread(m: real, r: real): real
    requires m > 0.0 && r > 0.0
  {
    if m <= r then 100.0 * r * (m - 1.0 / m) else 100.0 * m * (r + 1.0 / r) - 200.0
  }

  /** The American line of a side whose fair odds p/(1-p) are o, after the vig: 100/(m*o), or -100*m*o once m*o > 1. */
  lemma LineOf(m: real, p: real, o: real)
    requires m > 0.0 && 0.0 < p < 1.0 && o > 0.0 && o * (1.0 - p) == p
    ensures AmericanFloat(1.0 / Vigged(m, p)) == if m * o <= 1.0 then 100.0 * (1.0 / (m * o)) else -100.0 * (m * o)
  {
    var q, k, mo := Vigged(m, p), 1.0 - p, m * o;
    assert q * (m * p + k) == m * p;
    hide Vigged;
    Inverse(mo);
    LineAlgebra(m, p, o, q, k, mo);
    var x := 1.0 / mo;
    assert 1.0 / q == 1.0 + x;
    Compare(mo, 1.0, x);
    if mo > 1.0 {
      assert (-100.0 * mo) * x == -100.0;
      Quotient(-100.0, x, -100.0 * mo);
    }
  }

  lemma LineAlgebra(m: real, p: real, o: real, q: real, k: real, mo: real)
    requires m > 0.0 && 0.0 < p < 1.0 && k == 1.0 - p && o > 0.0 && o * k == p && mo == m * o && mo > 0.0
    requires 0.0 < q && q * (m * p + k) == m * p
    ensures 1.0 / q == 1.0 + 1.0 / mo
  {
    assert m * p == mo * k;
    assert q * (mo * k + k) == mo * k;
    assert (q * (mo + 1.0) - mo) * k == 0.0;
    assert q * (mo + 1.0) == mo;
    var x := 1.0 / mo;
    assert x * mo == 1.0;
    assert (1.0 + x) * q == x * (mo + 1.0) * q == x * mo;
    Quotient(1.0, q, 1.0 + x);
  }

  lemma ViggedIncreasing(m: real, p: real, p': real)
    requires m > 0.0 && 0.0 < p < p' < 1.0
    ensures Vigged(m, p) < Vigged(m, p')
  {
    var q, q' := Vigged(m, p), Vigged(m, p');
    var a, a' := m * p + 1.0 - p, m * p' + 1.0 - p';
    assert q * a == m * p && q' * a' == m * p';
    hide Vigged;
    CrossMultiply(m, p, p', q, q', a, a');
  }

  lemma CrossMultiply(m: real, p: real, p': real, q: real, q': real, a: real, a': real)
    requires m > 0.0 && 0.0 < p < p' < 1.0
    requires a == m * p + 1.0 - p && a' == m * p' + 1.0 - p' && q * a == m * p && q' * a' == m * p'
    ensures q < q'
  {
    SignOfProduct(m, p);
    SignOfProduct(m, p');
    SignOfProduct(a, a');
    assert (q' - q) * (a * a') == (q' * a') * a - (q * a) * a';
    assert (m * p') * a - (m * p) * a' == m * (p' - p);
    SameSign(q' - q, a * a', m, p' - p);
  }

  lemma SameSign(x: real, y: real, m: real, z: real)
    requires y > 0.0 && m > 0.0 && z > 0.0 && x * y == m * z
    ensures x > 0.0
  {
    SignOfProduct(m, z);
    assert m * z > 0.0;
    assert x * y > 0.0;
    SignOfProduct(x, y);
  }

  lemma OddsOf(f: real, r: real)
    requires 0.5 <= f < 1.0 && r * (1.0 - f) == f
    ensures r >= 1.0 && 1.0 / r > 0.0 && (1.0 / r) * r == 1.0 && (1.0 / r) * f == 1.0 - f
  {
    var c, k := 1.0 / r, 1.0 - f;
    Compare(r, 1.0, k);
    assert r >= 1.0;
    Inverse(r);
    Cancel(c, r, k);
  }

  lemma Cancel(c: real, r: real, k: real)
    requires r * c == 1.0
    ensures c * (r * k) == k
  {
    assert c * (r * k) == (r * c) * k;
  }

  /** CentSpread on vigged probabilities, for the favourite's fair odds r. */
  lemma SpreadClosed(m: real, f: real, r: real)
    requires m > 0.0 && 0.5 <= f < 1.0 && r * (1.0 - f) == f
    ensures r >= 1.0
    ensures CentSpread(Vigged(m, f), Vigged(m, 1.0 - f)) == if m * r <= 1.0 then 0.0 else Spread(m, r)
  {
    hide Vigged, AmericanFloat, Spread;
    var c := 1.0 / r;
    OddsOf(f, r);
    LineOf(m, f, r);
    LineOf(m, 1.0 - f, c);
    SpreadOfLines(m, r, c);
    Inverse(m * r);
    Inverse(m * c);
  }

  lemma SpreadOfLines(m: real, r: real, c: real)
    requires m > 0.0 && r >= 1.0 && c * r == 1.0 && c > 0.0
    ensures m * c > 0.0 && m * r > 0.0
    ensures m * r > 1.0 && m * c <= 1.0 ==> m <= r && 100.0 * (m * r) - 100.0 * (1.0 / (m * c)) == Spread(m, r)
    ensures m * r > 1.0 && m * c > 1.0 ==> m > r && 100.0 * (m * r) + 100.0 * (m * c) - 200.0 == Spread(m, r)
  {
    assert m * c > 0.0 && m * r > 0.0;
    assert (m * c) * r == m;
    Quotient(1.0, r, c);
    Compare(m * c, 1.0, r);
    if m * c <= 1.0 {
      Inverse(m);
      assert (r * (1.0 / m)) * (m * c) == (r * c) * (m * (1.0 / m));
      Quotient(1.0, m * c, r * (1.0 / m));
    }
  }

  function Favourite(p: real): real {
    if p >= 0.5 then p else 1.0 - p
  }

  function FavouriteOdds(p: real): (r: real)
    requires 0.0 < p < 1.0
    ensures r * (1.0 - Favourite(p)) == Favourite(p)
  {
    Favourite(p) / (1.0 - Favourite(p))
  }

  lemma SpreadAtClosed(m: real, p: real)
    requires m > 0.0 && 0.0 < p < 1.0
    ensures FavouriteOdds(p) >= 1.0
    ensures SpreadAt(m, p) == if m * FavouriteOdds(p) <= 1.0 then 0.0 else Spread(m, FavouriteOdds(p))
  {
    hide Vigged, CentSpread, Spread, SpreadAt, FavouriteOdds;
    SpreadClosed(m, Favourite(p), FavouriteOdds(p));
    SpreadAtFavourite(m, p);
  }

  lemma SpreadAtFavourite(m: real, p: real)
    requires m > 0.0 && 0.0 < p < 1.0
    ensures SpreadAt(m, p) == CentSpread(Vigged(m, Favourite(p)), Vigged(m, 1.0 - Favourite(p)))
  {
    hide Vigged, CentSpread;
    var q := 1.0 - p;
    assert 1.0 - q == p;
    if p > 0.5 { ViggedIncreasing(m, q, p); }
    if p < 0.5 { ViggedIncreasing(m, p, q); }
  }

  // ---------------------------------------------------------------- strictly increasing, one root

  lemma SpreadIncreasing(m: real, n: real, r: real)
    requires 0.0 < m < n && r >= 1.0
    ensures Spread(m, r) < Spread(n, r)
  {
    if n <= r {
      InverseDecreases(m, n);
      assert r * ((n - 1.0 / n) - (m - 1.0 / m)) > 0.0;
    } else if m > r {
      Inverse(r);
      assert (n - m) * (r + 1.0 / r) > 0.0;
    } else {
      Inverse(r);
      assert 100.0 * r * (r - 1.0 / r) == 100.0 * r * (r + 1.0 / r) - 200.0;
      assert (n - r) * (r + 1.0 / r) > 0.0;
      if m < r {
        InverseDecreases(m, r);
        assert r * ((r - 1.0 / r) - (m - 1.0 / m)) > 0.0;
      }
    }
  }

  /** The spread of a book without vig is nothing, and of one with less than none is not positive. */
  lemma SpreadAtOne(m: real, p: real)
    requires 0.0 < m <= 1.0 && 0.0 < p < 1.0
    ensures SpreadAt(m, p) <= 0.0 && (m == 1.0 ==> SpreadAt(m, p) == 0.0)
  {
    SpreadAtClosed(m, p);
    hide SpreadAt, FavouriteOdds, Vigged;
    SpreadBelowOne(m, FavouriteOdds(p));
  }

  lemma SpreadBelowOne(m: real, r: real)
    requires 0.0 < m <= 1.0 && r >= 1.0
    ensures Spread(m, r) <= 0.0 && (m == 1.0 ==> Spread(m, r) == 0.0)
  {
    Inverse(m);
    var gap := 1.0 / m - m;
    if m < 1.0 {
      InverseDecreases(m, 1.0);
      SignOfProduct(r, gap);
    }
    assert Spread(m, r) == -100.0 * (r * gap);
  }

  /** centSpread is strictly increasing in the vig, across its positive-dog and both-negative cases. */
  lemma SpreadStrictlyIncreasing(m: real, n: real, p: real)
    requires 1.0 <= m < n && 0.0 < p < 1.0
    ensures SpreadAt(m, p) < SpreadAt(n, p)
  {
    SpreadAtClosed(m, p);
    SpreadAtClosed(n, p);
    var r := FavouriteOdds(p);
    hide SpreadAt;
    assert n * r > 1.0;
    SpreadIncreasing(m, n, r);
    Grows(m, r);
    if m * r <= 1.0 {
      assert m == 1.0 && m * r == m;
      Compare(r, 1.0, m);
    }
  }

  /** e^5 is enough vig for any pair. */
  lemma SpreadAtSix(m: real, p: real)
    requires m >= 6.0 && 0.0 < p < 1.0
    ensures SpreadAt(m, p) >= 20.0
  {
    SpreadAtClosed(m, p);
    hide SpreadAt, FavouriteOdds, Vigged;
    SpreadAboveSix(m, FavouriteOdds(p));
  }

  lemma SpreadAboveSix(m: real, r: real)
    requires m >= 6.0 && r >= 1.0
    ensures m * r > 1.0 && Spread(m, r) >= 20.0
  {
    Grows(m, r);
    if m <= r {
      InverseDecreases(1.0, m);
      Grows(m - 1.0 / m, r);
    } else {
      Inverse(r);
      Grows(m, r + 1.0 / r);
    }
  }

  // ---------------------------------------------------------------- the search

  lemma ExpFive(exp: real -> real, x: real)
    requires IsExp(exp)
    ensures exp(x) > 0.0
    ensures x == 0.0 ==> exp(x) == 1.0
    ensures x > 0.0 ==> exp(x) > 1.0
    ensures x < 0.0 ==> exp(x) < 1.0
    ensures x == 5.0 ==> exp(x) >= 6.0
  {
    hide IsExp;
    ExpPositive(exp, x);
    ExpAbove(exp, x);
    if x < 0.0 { ExpIncreasing(exp, x, 0.0); }
  }

  /** What the search computes at one shift: the spread of the two vigged sides, favourite first. */
  ghost function SpreadOf(exp: real -> real, delta: real, p: real): real
    requires IsExp(exp) && 0.0 < p < 1.0
  {
    ExpFive(exp, delta);
    SpreadAt(exp(delta), p)
  }

  /** One probe of the search, as the source computes it. */
  method Probe(exp: real -> real, log: real -> real, p0: real, p1: real, mid: real) returns (spread: real)
    requires IsExpLog(exp, log)
    requires 0.0 < p0 < 1.0 && p0 + p1 == 1.0
    ensures IsExp(exp) && spread == SpreadOf(exp, mid, p0)
  {
    hide IsExpLog, IsExp, Vigged, CentSpread;
    ExpLogIsExp(exp, log);
    LogitShift(exp, log, p0, mid);
    LogitShift(exp, log, p1, mid);
    var q0 := Sigmoid(exp, Logit(log, p0) + mid);
    var q1 := Sigmoid(exp, Logit(log, p1) + mid);
    var qFav, qDog := q0, q1;
    if q1 > q0 {
      qFav, qDog := q1, q0;
    }
    spread := CentSpread(qFav, qDog);
    assert p1 == 1.0 - p0;
  }

  /** find20CentDelta: a hundred halvings of [0, 5]. */
  method Find20CentDelta(exp: real -> real, log: real -> real, p0: real, p1: real) returns (delta: real)
    requires IsExpLog(exp, log)
    requires 0.0 < p0 < 1.0 && p0 + p1 == 1.0
    ensures IsExp(exp)
    ensures 0.0 <= delta <= 5.0
    ensures SpreadOf(exp, delta - 5.0 / Pow2(101), p0) < 20.0 <= SpreadOf(exp, delta + 5.0 / Pow2(101), p0)
  {
    hide IsExpLog, IsExp, SpreadOf, Pow2;
    ExpLogIsExp(exp, log);
    var lo, hi := 0.0, 5.0;
    SpreadAtEnds(exp, p0);
    for i := 0 to 100
      invariant 0.0 <= lo < hi <= 5.0
      invariant (hi - lo) * Pow2(i) == 5.0
      invariant SpreadOf(exp, lo, p0) < 20.0 <= SpreadOf(exp, hi, p0)
    {
      var mid := (lo + hi) / 2.0;
      HalveWidth(hi - lo, i);
      assert mid - lo == (hi - lo) / 2.0 && hi - mid == (hi - lo) / 2.0;
      var spread := Probe(exp, log, p0, p1, mid);
      if spread < 20.0 {
        lo := mid;
      } else {
        hi := mid;
      }
    }
    delta := (lo + hi) / 2.0;
    LastWidth(hi - lo);
    assert delta - 5.0 / Pow2(101) == lo && delta + 5.0 / Pow2(101) == hi;
  }

  lemma SpreadAtEnds(exp: real -> real, p: real)
    requires IsExp(exp) && 0.0 < p < 1.0
    ensures SpreadOf(exp, 0.0, p) < 20.0 <= SpreadOf(exp, 5.0, p)
    ensures 5.0 * Pow2(0) == 5.0
  {
    hide IsExp, SpreadAt;
    ExpFive(exp, 0.0);
    ExpFive(exp, 5.0);
    SpreadAtOne(exp(0.0), p);
    SpreadAtSix(exp(5.0), p);
  }

  lemma HalveWidth(w: real, i: nat)
    requires w * Pow2(i) == 5.0
    ensures (w / 2.0) * Pow2(i + 1) == 5.0
  {}

  lemma LastWidth(w: real)
    requires w * Pow2(100) == 5.0
    ensures w / 2.0 == 5.0 / Pow2(101)
  {
    HalveWidth(w, 100);
    Quotient(5.0, Pow2(101), w / 2.0);
  }

  // ---------------------------------------------------------------- the shift the search looks for

  lemma SpreadOfIncreasing(exp: real -> real, x: real, y: real, p: real)
    requires IsExp(exp) && 0.0 < p < 1.0 && x < y && 0.0 <= y
    ensures SpreadOf(exp, x, p) < SpreadOf(exp, y, p) || (x < 0.0 && SpreadOf(exp, x, p) <= 0.0)
  {
    hide IsExp, SpreadAt;
    ExpFive(exp, x);
    ExpFive(exp, y);
    ExpIncreasing(exp, x, y);
    if x >= 0.0 {
      SpreadStrictlyIncreasing(exp(x), exp(y), p);
    } else {
      SpreadAtOne(exp(x), p);
    }
  }

  /** The search ends within 5/2^101 of every shift that gives exactly 20 cents. */
  lemma SearchIsAccurate(exp: real -> real, p: real, delta: real, root: real)
    requires IsExp(exp) && 0.0 < p < 1.0
    requires 0.0 <= delta <= 5.0
    requires SpreadOf(exp, delta - 5.0 / Pow2(101), p) < 20.0 <= SpreadOf(exp, delta + 5.0 / Pow2(101), p)
    requires SpreadOf(exp, root, p) == 20.0
    ensures delta - 5.0 / Pow2(101) < root <= delta + 5.0 / Pow2(101)
  {
    hide IsExp, SpreadOf, Pow2;
    var w := 5.0 / Pow2(101);
    var lo, hi := delta - w, delta + w;
    assert w > 0.0;
    if root <= lo {
      assert root < lo;
      if lo >= 0.0 { SpreadOfIncreasing(exp, root, lo, p); }
      else { SpreadNotPositive(exp, root, p); }
    }
    if root > hi {
      SpreadOfIncreasing(exp, hi, root, p);
    }
  }

  lemma SpreadNotPositive(exp: real -> real, x: real, p: real)
    requires IsExp(exp) && 0.0 < p < 1.0 && x <= 0.0
    ensures SpreadOf(exp, x, p) <= 0.0
  {
    hide IsExp, SpreadAt;
    ExpFive(exp, x);
    SpreadAtOne(exp(x), p);
  }

  /** The vig that gives 20 cents: rational when both lines are negative, else a root of m - 1/m = 1/(5r). */
  lemma TwentyCentVig(exp: real -> real, log: real -> real, r: real) returns (m: real)
    requires IsExpLog(exp, log) && r >= 1.0
    ensures m > 1.0 && Spread(m, r) == 20.0
  {
    hide IsExpLog, IsExp;
    Inverse(r);
    if r * r < 1.2 {
      var t := r + 1.0 / r;
      m := 2.2 / t;
      BothNegativeRoot(r, t, m);
    } else {
      var k := 0.1 / r;
      var s := SquareRoot(exp, log, k * k + 1.0);
      m := k + s;
      PositiveDogRoot(r, k, s, m);
    }
  }

  lemma SquareRoot(exp: real -> real, log: real -> real, x: real) returns (s: real)
    requires IsExpLog(exp, log) && x > 0.0
    ensures s > 0.0 && s * s == x
  {
    assert exp(log(x)) == x;
    hide IsExpLog, IsExp;
    ExpLogIsExp(exp, log);
    var h := log(x) / 2.0;
    s := exp(h);
    ExpPositive(exp, h);
    ExpSum(exp, h, h);
    assert h + h == log(x);
  }

  lemma BothNegativeRoot(r: real, t: real, m: real)
    requires r >= 1.0 && r * r < 1.2 && t == r + 1.0 / r && t > 0.0 && m == 2.2 / t
    ensures m > 1.0 && m > r && Spread(m, r) == 20.0
  {
    var rt := r * t;
    assert rt < 2.2 by { RTimesT(r, t); }
    assert m * t == 2.2;
    Compare(r, m, t);
    BothNegativeSpread(m, r, t);
  }

  lemma RTimesT(r: real, t: real)
    requires r > 0.0 && t == r + 1.0 / r
    ensures t > 0.0 && r * t == r * r + 1.0
  {
    Inverse(r);
  }

  lemma BothNegativeSpread(m: real, r: real, t: real)
    requires m > r >= 1.0 && t == r + 1.0 / r && m * t == 2.2
    ensures Spread(m, r) == 20.0
  {
    assert Spread(m, r) == 100.0 * m * t - 200.0;
    assert 100.0 * m * t == 100.0 * (m * t);
  }

  lemma PositiveDogRoot(r: real, k: real, s: real, m: real)
    requires r >= 1.0 && r * r >= 1.2 && k == 0.1 / r && s > 0.0 && s * s == k * k + 1.0 && m == k + s
    ensures 1.0 < m <= r && Spread(m, r) == 20.0
  {
    assert k * r == 0.1 && k > 0.0;
    assert (s - k) * m == 1.0;
    Quotient(1.0, m, s - k);
    assert 1.0 / m == s - k;
    assert m - 1.0 / m == 2.0 * k;
    SignOfProduct(k, k);
    assert (s - 1.0) * (s + 1.0) == k * k;
    SignOfProduct(s - 1.0, s + 1.0);
    var c := 1.0 / r;
    Inverse(r);
    assert (r - c) * r == r * r - r * c;
    assert (m - 1.0 / m) * r == 2.0 * (k * r);
    Compare(r - c, m - 1.0 / m, r);
    if r < m {
      InverseDecreases(r, m);
    }
    assert 100.0 * r * (m - 1.0 / m) == 200.0 * (k * r);
  }

  /** Exactly one shift makes the line 20 cents wide, and it is positive. */
  lemma TwentyCentDelta(exp: real -> real, log: real -> real, p: real) returns (root: real)
    requires IsExpLog(exp, log) && 0.0 < p < 1.0
    ensures IsExp(exp) && root > 0.0
    ensures forall x :: SpreadOf(exp, x, p) == 20.0 <==> x == root
  {
    ExpLogIsExp(exp, log);
    SpreadAtClosed(1.0, p);
    var m := TwentyCentVig(exp, log, FavouriteOdds(p));
    root := log(m);
    assert exp(root) == m;
    hide IsExpLog, IsExp, Spread;
    ExpFive(exp, root);
    SpreadAtClosed(m, p);
    Grows(m, FavouriteOdds(p));
    assert SpreadOf(exp, root, p) == 20.0;
    hide SpreadOf, SpreadAt, FavouriteOdds;
    forall x | x != root ensures SpreadOf(exp, x, p) != 20.0 {
      if x < root { SpreadOfIncreasing(exp, x, root, p); }
      if x > root { SpreadOfIncreasing(exp, root, x, p); }
    }
  }

  /** At even money the shift is ln 1.1, the standard vig. */
  lemma EvenMoneyDelta(exp: real -> real, log: real -> real)
    requires IsExpLog(exp, log)
    ensures IsExp(exp) && SpreadOf(exp, log(1.1), 0.5) == 20.0
  {
    ExpLogIsExp(exp, log);
    assert exp(log(1.1)) == 1.1;
    hide IsExpLog, IsExp;
    SpreadAtClosed(1.1, 0.5);
  }

  /** At even money the search finds the standard vig, ln 1.1, up to its own width. */
  lemma EvenMoneySearch(exp: real -> real, log: real -> real, delta: real)
    requires IsExpLog(exp, log) && 0.0 <= delta <= 5.0
    requires SpreadOf(exp, delta - 5.0 / Pow2(101), 0.5) < 20.0 <= SpreadOf(exp, delta + 5.0 / Pow2(101), 0.5)
    ensures delta - 5.0 / Pow2(101) < log(1.1) <= delta + 5.0 / Pow2(101)
  {
    EvenMoneyDelta(exp, log);
    hide IsExpLog, IsExp, SpreadOf, Pow2;
    SearchIsAccurate(exp, 0.5, delta, log(1.1));
  }
}
