/** Vigged odds of a two-way market. */
module MarketOdds {
  import opened Platform
  import opened ExpLog
  import opened Reals
  import opened Odds

  datatype Selection = Selection(id: Id, feed: real)

  /** `decimal` and `american` are 0 when the price is zeroed out. */
  datatype Quote = Quote(id: Id, feed: real, vigged: real, decimal: real, american: int)

  const EPS := 0.000001

  function Clamp(v: real, lo: real, hi: real): real {
    if v < lo then lo else if v > hi then hi else v
  }

  /** The fair probability of a side: its share of the feed, clamped away from 0 and 1. */
  function Fair(feed: real, total: real): (p: real)
    requires total > 0.0
    ensures 0.000001 <= p <= 0.999999
  {
    Clamp(feed / total, EPS, 1.0 - EPS)
  }

  /** The fair probability is the share itself, or the nearer end of [10^-6, 1 - 10^-6] when it lies outside. */
  lemma FairExactly(feed: real, total: real)
    requires total > 0.0
    ensures Fair(feed, total) ==
              if feed / total < 0.000001 then 0.000001
              else if feed / total > 0.999999 then 0.999999
              else feed / total
  {}

  function QuoteOf(m: real, fair: real, sel: Selection): Quote
    requires m > 0.0 && 0.0 < fair < 1.0
  {
    var q := Vigged(m, fair);
    if q < sel.feed then Quote(sel.id, sel.feed, q, 0.0, 0)
    else Quote(sel.id, sel.feed, q, 1.0 / q, DecimalToAmerican(1.0 / q))
  }

  /**
   The quotes of a market when the vig multiplies the odds by m; none unless
   there are two sides with a positive total.
   */
  function Quotes(m: real, sels: seq<Selection>): (quotes: seq<Quote>)
    requires m > 0.0
    ensures |quotes| == if Priced(sels) then 2 else 0
  {
    if !Priced(sels) then []
    else seq(2, i requires 0 <= i < 2 => QuoteOf(m, Fair(sels[i].feed, Sum(sels)), sels[i]))
  }

  predicate Priced(sels: seq<Selection>) {
    |sels| == 2 && Sum(sels) > 0.0
  }

  function Sum(sels: seq<Selection>): real
    requires |sels| == 2
  {
    sels[0].feed + sels[1].feed
  }

  /** ComputeMarketOdds, with the logit shift as the source writes it. */
  method ComputeMarketOdds(exp: real -> real, log: real -> real, sels: seq<Selection>, delta: real)
    returns (results: seq<Quote>)
    requires IsExpLog(exp, log)
    ensures exp(delta) > 0.0
    ensures results == Quotes(exp(delta), sels)
    ensures |results| == if |sels| == 2 && sels[0].feed + sels[1].feed > 0.0 then 2 else 0
    ensures forall i | 0 <= i < |results| :: QuoteFits(sels[i], results[i])
  {
    QuotesFit(exp, log, sels, delta);
    hide IsExpLog, QuoteFits;
    assert exp(delta) > 0.0 by { LogitShift(exp, log, 0.5, delta); }
    if |sels| != 2 {
      return [];
    }
    var total := sels[0].feed + sels[1].feed;
    if total <= 0.0 {
      return [];
    }
    var p0 := Clamp(sels[0].feed / total, EPS, 1.0 - EPS);
    var p1 := Clamp(sels[1].feed / total, EPS, 1.0 - EPS);
    var fairProbs := [p0, p1];
    results := [];
    for i := 0 to 2
      invariant |results| == i
      invariant forall k | 0 <= k < i :: results[k] == QuoteOf(exp(delta), Fair(sels[k].feed, total), sels[k])
    {
      LogitShift(exp, log, fairProbs[i], delta);
      var q := Sigmoid(exp, Logit(log, fairProbs[i]) + delta);
      var dec := 1.0 / q;
      var am := DecimalToAmerican(dec);
      if q < sels[i].feed {
        dec := 0.0;
        am := 0;
      }
      results := results + [Quote(sels[i].id, sels[i].feed, q, dec, am)];
    }
  }

  /**
   A quote keeps the selection's id and feed. It is zeroed exactly when its
   vigged probability is below the feed; otherwise decimal is the inverse of
   that probability and american the line nearest to it.
   */
  predicate QuoteFits(sel: Selection, q: Quote) {
    && q.id == sel.id && q.feed == sel.feed && 0.0 < q.vigged < 1.0
    && if q.vigged < sel.feed then q.decimal == 0.0 && q.american == 0
       else
         && q.decimal > 1.0 && q.decimal * q.vigged == 1.0
         && Distance(AmericanToDecimal(q.american), q.decimal) <= 0.005
         && (if q.decimal >= 2.0 then q.american >= 100 else q.american <= -100)
  }

  lemma QuoteOfFits(m: real, fair: real, sel: Selection)
    requires m > 0.0 && 0.0 < fair < 1.0
    ensures QuoteFits(sel, QuoteOf(m, fair, sel))
  {
    var q := Vigged(m, fair);
    Reciprocal(q, sel.feed);
    DecimalRoundTrip(1.0 / q);
    LineOfDecimal(1.0 / q);
    hide Vigged, DecimalToAmerican, AmericanToDecimal;
  }

  lemma QuotesFit(exp: real -> real, log: real -> real, sels: seq<Selection>, delta: real)
    requires IsExpLog(exp, log)
    ensures exp(delta) > 0.0
    ensures forall i | 0 <= i < |Quotes(exp(delta), sels)| :: QuoteFits(sels[i], Quotes(exp(delta), sels)[i])
  {
    LogitShift(exp, log, 0.5, delta);
    hide QuoteFits, QuoteOf, IsExpLog;
    if Priced(sels) {
      forall i | 0 <= i < 2 { QuoteOfFits(exp(delta), Fair(sels[i].feed, Sum(sels)), sels[i]); }
    }
  }

  // ---------------------------------------------------------------- the margin

  lemma Shares(a: real, b: real, t: real)
    requires t > 0.0 && a + b == t
    ensures a / t + b / t == 1.0 && (a / t == 0.5 <==> a == b)
  {
    var x, y := a / t, b / t;
    assert x * t == a && y * t == b;
    assert (x + y - 1.0) * t == x * t + y * t - t;
    SignOfProduct(x + y - 1.0, t);
  }

  /** The fair pair sums to 1 whatever the clamp does, negative feeds included. */
  lemma FairPair(sels: seq<Selection>)
    requires Priced(sels)
    ensures Fair(sels[0].feed, Sum(sels)) + Fair(sels[1].feed, Sum(sels)) == 1.0
    ensures Fair(sels[0].feed, Sum(sels)) == 0.5 <==> sels[0].feed == sels[1].feed
  {
    Shares(sels[0].feed, sels[1].feed, Sum(sels));
  }

  lemma AddFractions(q: real, a: real, u: real, r: real, b: real, v: real)
    requires q * a == u && r * b == v
    ensures (q + r) * (a * b) == u * b + v * a
  {
    assert (q + r) * (a * b) == (q * a) * b + (r * b) * a;
  }

  lemma Polynomials(m: real, p: real)
    ensures var k := 1.0 - p;
            && (m * p + k) * (m * k + p) == m + (m - 1.0) * (m - 1.0) * (p * k)
            && m * p * (m * k + p) + m * k * (m * p + k) == m * (1.0 + 2.0 * (m - 1.0) * (p * k))
            && 0.25 - p * k == (p - 0.5) * (p - 0.5)
  {}

  lemma TwoSidesSum(m: real, p: real, q: real, r: real, w: real, ab: real)
    requires q * (m * p + (1.0 - p)) == m * p && r * (m * (1.0 - p) + p) == m * (1.0 - p)
    requires w == p * (1.0 - p) && ab == (m * p + (1.0 - p)) * (m * (1.0 - p) + p)
    ensures ab == m + (m - 1.0) * (m - 1.0) * w && 0.25 - w == (p - 0.5) * (p - 0.5)
    ensures (q + r) * ab == m * (1.0 + 2.0 * (m - 1.0) * w)
  {
    var k := 1.0 - p;
    var a, b, u, v := m * p + k, m * k + p, m * p, m * k;
    assert ab == a * b && q * a == u && r * b == v;
    AddFractions(q, a, u, r, b, v);
    Polynomials(m, p);
    assert u * b + v * a == m * (1.0 + 2.0 * (m - 1.0) * (p * k));
  }

  /** Two complementary sides vigged by m sum to more than 1, and to at most 2m/(m+1), reached at even money only. */
  lemma TwoSides(m: real, p: real)
    requires m > 1.0 && 0.0 < p < 1.0
    ensures var s := Vigged(m, p) + Vigged(m, 1.0 - p);
            1.0 < s <= 2.0 * m / (m + 1.0) && (s == 2.0 * m / (m + 1.0) <==> p == 0.5)
  {
    var q, r := Vigged(m, p), Vigged(m, 1.0 - p);
    var w, ab := p * (1.0 - p), (m * p + (1.0 - p)) * (m * (1.0 - p) + p);
    hide Vigged;
    TwoSidesSum(m, p, q, r, w, ab);
    HalfIsMiddle(p, w);
    TwoSidesBound(m, w, 0.25 - w, ab, q + r);
  }

  lemma HalfIsMiddle(p: real, w: real)
    requires 0.0 < p < 1.0 && w == p * (1.0 - p) && 0.25 - w == (p - 0.5) * (p - 0.5)
    ensures w > 0.0 && 0.25 - w >= 0.0 && (0.25 - w == 0.0 <==> p == 0.5)
  {
    SignOfProduct(p, 1.0 - p);
    if p > 0.5 { SignOfProduct(p - 0.5, p - 0.5); }
    if p < 0.5 { SignOfProduct(0.5 - p, 0.5 - p); }
  }

  /** s = m(1 + 2(m-1)w) / (m + (m-1)^2 w) for w = p(1-p) <= 1/4, with d = 1/4 - w. */
  lemma TwoSidesBound(m: real, w: real, d: real, ab: real, s: real)
    requires m > 1.0 && w > 0.0 && d == 0.25 - w >= 0.0
    requires ab == m + (m - 1.0) * (m - 1.0) * w && s * ab == m * (1.0 + 2.0 * (m - 1.0) * w)
    ensures 1.0 < s <= 2.0 * m / (m + 1.0)
    ensures s == 2.0 * m / (m + 1.0) <==> d == 0.0
  {
    var n := m - 1.0;
    SignOfProduct(n, n);
    SignOfProduct(n * n, w);
    assert ab > 0.0;
    var nw := n * w;
    assert nw > 0.0;
    assert (s - 1.0) * ab == nw * (m + 1.0) by { Above(m, w, ab, s); }
    SignOfProduct(nw, m + 1.0);
    SignOfProduct(s - 1.0, ab);
    var top := 2.0 * m / (m + 1.0);
    assert top * (m + 1.0) == 2.0 * m;
    var gap := (top - s) * (m + 1.0);
    assert gap == 2.0 * m - s * (m + 1.0);
    assert gap * ab == (4.0 * d) * (m * n) by { Below(m, w, d, ab, s, gap); }
    SignOfProduct(m, n);
    SignOfProduct(4.0 * d, m * n);
    SignOfProduct(gap, ab);
    SignOfProduct(top - s, m + 1.0);
  }

  lemma Above(m: real, w: real, ab: real, s: real)
    requires ab == m + (m - 1.0) * (m - 1.0) * w && s * ab == m * (1.0 + 2.0 * (m - 1.0) * w)
    ensures (s - 1.0) * ab == (m - 1.0) * w * (m + 1.0)
  {
    assert (s - 1.0) * ab == s * ab - ab;
  }

  lemma Below(m: real, w: real, d: real, ab: real, s: real, gap: real)
    requires d == 0.25 - w && gap == 2.0 * m - s * (m + 1.0)
    requires ab == m + (m - 1.0) * (m - 1.0) * w && s * ab == m * (1.0 + 2.0 * (m - 1.0) * w)
    ensures gap * ab == (4.0 * d) * (m * (m - 1.0))
  {
    assert gap * ab == 2.0 * m * ab - (s * ab) * (m + 1.0);
  }

  /** The book's margin, for every pair of feeds with a positive total. */
  lemma MarginBounds(m: real, sels: seq<Selection>)
    requires m > 1.0 && Priced(sels)
    ensures var book := Quotes(m, sels)[0].vigged + Quotes(m, sels)[1].vigged;
            && 1.0 < book <= 2.0 * m / (m + 1.0)
            && (book == 2.0 * m / (m + 1.0) <==> sels[0].feed == sels[1].feed)
  {
    FairPair(sels);
    var p := Fair(sels[0].feed, Sum(sels));
    assert Fair(sels[1].feed, Sum(sels)) == 1.0 - p;
    TwoSides(m, p);
  }

  /** vigDelta and vigDeltaWide multiply the odds by exactly 11/10 and 23/20. */
  lemma VigDeltas(exp: real -> real, log: real -> real)
    requires IsExpLog(exp, log)
    ensures exp(log(1.1)) == 1.1 && exp(log(1.15)) == 1.15
  {}

  const VIG := 1.1
  const VIG_WIDE := 1.15

  lemma MarginsOfBooks(sels: seq<Selection>)
    requires Priced(sels)
    ensures 0.0 < Quotes(VIG, sels)[0].vigged + Quotes(VIG, sels)[1].vigged - 1.0 <= 1.0 / 21.0
    ensures 0.0 < Quotes(VIG_WIDE, sels)[0].vigged + Quotes(VIG_WIDE, sels)[1].vigged - 1.0 <= 3.0 / 43.0
  {
    MarginBounds(VIG, sels);
    MarginBounds(VIG_WIDE, sels);
  }

  /** The margin of a book: how far its vigged probabilities exceed 1. */
  function Margin(quotes: seq<Quote>): real
    requires |quotes| == 2
  {
    quotes[0].vigged + quotes[1].vigged - 1.0
  }

  /** With the shifts as the source computes them the margin is at most 1/21 (standard) and 3/43 (wide). */
  lemma MarginOfSchedules(exp: real -> real, log: real -> real, sels: seq<Selection>)
    requires IsExpLog(exp, log) && Priced(sels)
    ensures exp(log(1.1)) > 0.0 && 0.0 < Margin(Quotes(exp(log(1.1)), sels)) <= 1.0 / 21.0
    ensures exp(log(1.15)) > 0.0 && 0.0 < Margin(Quotes(exp(log(1.15)), sels)) <= 3.0 / 43.0
  {
    VigDeltas(exp, log);
    MarginsOfBooks(sels);
  }

  /**
   With two equal feeds both sides are offered at the calibrated lines, with the
   shifts as the source computes them, up to the feed at which both are zeroed.
   */
  lemma EvenMoneyLine(exp: real -> real, log: real -> real, feed: real, id: Id, id': Id)
    requires IsExpLog(exp, log) && 0.0 < feed
    ensures var sels := [Selection(id, feed), Selection(id', feed)];
            && exp(log(1.1)) > 0.0 && exp(log(1.15)) > 0.0
            && Quotes(exp(log(1.1)), sels)[0].american == Quotes(exp(log(1.1)), sels)[1].american
            && Quotes(exp(log(1.1)), sels)[0].american == (if feed <= 11.0 / 21.0 then -110 else 0)
            && Quotes(exp(log(1.15)), sels)[0].american == Quotes(exp(log(1.15)), sels)[1].american
            && Quotes(exp(log(1.15)), sels)[0].american == (if feed <= 115.0 / 215.0 then -115 else 0)
  {
    VigDeltas(exp, log);
    Shares(feed, feed, feed + feed);
    EvenMoneyAmerican(VIG, 110);
    EvenMoneyAmerican(VIG_WIDE, 115);
  }

  lemma EvenMoneyAmerican(m: real, line: int)
    requires m > 1.0 && 100.0 * m == line as real
    ensures Vigged(m, 0.5) > 0.5 && DecimalToAmerican(1.0 / Vigged(m, 0.5)) == -line
  {
    var q := Vigged(m, 0.5);
    assert q * (m + 1.0) == m;
    var dec := 1.0 / q;
    assert dec * q == 1.0;
    assert dec * m == m + 1.0 by { assert dec * (q * (m + 1.0)) == (dec * q) * (m + 1.0); }
    assert (dec - 1.0) * m == 1.0;
    SignOfProduct(dec - 1.0, m);
    assert dec < 2.0;
    Quotient(-100.0, dec - 1.0, -100.0 * m);
    RoundNearest(100.0 * m);
  }

  // ---------------------------------------------------------------- zeroed prices

  predicate Zeroed(q: Quote) {
    q.decimal == 0.0
  }

  /** A price that is offered is never favourable to the bettor by the feed's own probability. */
  lemma OfferedIsSound(m: real, sels: seq<Selection>, i: nat)
    requires m > 1.0 && Priced(sels) && i < 2
    ensures var q := Quotes(m, sels)[i];
            && q.vigged == Vigged(m, Fair(sels[i].feed, Sum(sels)))
            && (Zeroed(q) <==> q.vigged < sels[i].feed)
            && (Zeroed(q) ==> q.american == 0)
            && (!Zeroed(q) ==> q.decimal > 1.0 && q.decimal * sels[i].feed <= 1.0 && q.decimal * q.vigged == 1.0)
  {
    hide Vigged, DecimalToAmerican, Fair;
    Reciprocal(Vigged(m, Fair(sels[i].feed, Sum(sels))), sels[i].feed);
  }

  lemma Reciprocal(q: real, feed: real)
    requires 0.0 < q < 1.0
    ensures 1.0 / q > 1.0 && (1.0 / q) * q == 1.0 && (q >= feed ==> (1.0 / q) * feed <= 1.0)
  {
    var dec := 1.0 / q;
    assert dec * q == 1.0;
    SignOfProduct(dec, q);
    assert (dec - 1.0) * q == 1.0 - q;
    SignOfProduct(dec - 1.0, q);
    if q >= feed {
      assert dec * (q - feed) == 1.0 - dec * feed;
      if q > feed { SignOfProduct(dec, q - feed); }
    }
  }

  /** Without the clamp, a side is zeroed exactly when total + (m-1) * feed exceeds m. */
  lemma ZeroedExactly(m: real, sels: seq<Selection>, i: nat)
    requires m > 1.0 && Priced(sels) && i < 2
    requires EPS <= sels[i].feed / Sum(sels) <= 1.0 - EPS
    ensures Zeroed(Quotes(m, sels)[i]) <==> Sum(sels) + (m - 1.0) * sels[i].feed > m
  {
    hide Vigged, DecimalToAmerican, Quotes;
    OfferedIsSound(m, sels, i);
    ViggedBelowFeed(m, Sum(sels), sels[i].feed);
  }

  lemma ViggedBelowFeed(m: real, t: real, f: real)
    requires m > 1.0 && t > 0.0 && 0.0 < f / t < 1.0
    ensures Vigged(m, f / t) < f <==> t + (m - 1.0) * f > m
  {
    var p := f / t;
    var q, a := Vigged(m, p), m * p + 1.0 - p;
    assert p * t == f && q * a == m * p;
    hide Vigged;
    SignOfProduct(m, p);
    ZeroedAlgebra(m, t, f, p, q, a);
  }

  lemma ZeroedAlgebra(m: real, t: real, f: real, p: real, q: real, a: real)
    requires f == p * t && p > 0.0 && a == m * p + 1.0 - p && a > 0.0 && q * a == m * p
    ensures q < f <==> t + (m - 1.0) * f > m
  {
    SignOfProduct(f - q, a);
    assert (f - q) * a == f * a - m * p;
    assert f * a - m * p == (t * a - m) * p;
    SignOfProduct(t * a - m, p);
    assert t * a == t + (m - 1.0) * (p * t);
  }

  /** How far a vigged share stays below e * t, scaled by its denominator. */
  lemma ShareGap(m: real, t: real, e: real, q: real, a: real)
    requires q * a == m * e
    ensures (e * t - q) * a == (t * a - m) * e
  {
    assert (e * t - q) * a == (e * t) * a - q * a;
    assert (e * t) * a == (t * a) * e;
  }

  /** A vigged share is below e * t exactly when t times its denominator exceeds m. */
  lemma ShareBelow(m: real, t: real, e: real, q: real, a: real)
    requires q * a == m * e && a > 0.0 && e > 0.0
    ensures q < e * t <==> t * a > m
  {
    ShareGap(m, t, e, q, a);
    SignOfProduct(e * t - q, a);
    SignOfProduct(t * a - m, e);
  }

  /** The denominator of a share grows with the share. */
  lemma DenominatorGrows(m: real, t: real, e: real, d: real)
    requires m > 1.0 && t > 0.0 && 0.0 < e < d
    ensures 0.0 < m * e + 1.0 - e < m * d + 1.0 - d && t * (m * e + 1.0 - e) < t * (m * d + 1.0 - d)
  {
    var a, b := m * e + 1.0 - e, m * d + 1.0 - d;
    assert a - 1.0 == (m - 1.0) * e && b - a == (d - e) * (m - 1.0);
    SignOfProduct(m - 1.0, e);
    SignOfProduct(d - e, m - 1.0);
    Compare(a, b, t);
  }

  /** If the share e is vigged to less than e * t, the larger share d is vigged to less than d * t. */
  lemma LargerShareBelow(m: real, t: real, e: real, d: real, q: real, r: real)
    requires m > 1.0 && t > 0.0 && 0.0 < e < d
    requires q * (m * e + 1.0 - e) == m * e && r * (m * d + 1.0 - d) == m * d
    requires q < e * t
    ensures r < d * t
  {
    var a, b := m * e + 1.0 - e, m * d + 1.0 - d;
    DenominatorGrows(m, t, e, d);
    ShareBelow(m, t, e, q, a);
    ShareBelow(m, t, d, r, b);
  }

  /** Where the clamp lifts the less likely side, zeroing it forces the other side to be zeroed. */
  lemma ClampedZeroing(m: real, t: real, f: real)
    requires m > 1.0 && t > 0.0 && f < EPS * t && Vigged(m, EPS) < f
    ensures Vigged(m, 1.0 - EPS) < t - f
  {
    var q, r := Vigged(m, EPS), Vigged(m, 1.0 - EPS);
    assert q < EPS * t;
    LargerShareBelow(m, t, EPS, 1.0 - EPS, q, r);
  }

  /** If the less likely side is zeroed, so is the more likely one. */
  lemma FavouriteZeroedFirst(m: real, sels: seq<Selection>, i: nat, j: nat)
    requires m > 1.0 && Priced(sels) && i < 2 && j < 2 && i != j
    requires sels[i].feed <= sels[j].feed && Zeroed(Quotes(m, sels)[i])
    ensures Zeroed(Quotes(m, sels)[j])
  {
    hide Vigged, DecimalToAmerican, Quotes;
    var t, f, g := Sum(sels), sels[i].feed, sels[j].feed;
    SharesInOrder(f, g, t);
    if f / t < EPS {
      OfferedIsSound(m, sels, i);
      OfferedIsSound(m, sels, j);
      SmallShare(f, t);
      ClampedZeroing(m, t, f);
    } else {
      BothZeroed(m, sels, i, j);
    }
  }

  lemma BothZeroed(m: real, sels: seq<Selection>, i: nat, j: nat)
    requires m > 1.0 && Priced(sels) && i < 2 && j < 2
    requires EPS <= sels[i].feed / Sum(sels) <= 1.0 - EPS && EPS <= sels[j].feed / Sum(sels) <= 1.0 - EPS
    requires sels[i].feed <= sels[j].feed && Zeroed(Quotes(m, sels)[i])
    ensures Zeroed(Quotes(m, sels)[j])
  {
    hide Vigged, DecimalToAmerican, Quotes;
    ZeroedExactly(m, sels, i);
    ZeroedExactly(m, sels, j);
    Scaled(m, sels[i].feed, sels[j].feed);
  }

  lemma Scaled(m: real, f: real, g: real)
    requires m > 1.0 && f <= g
    ensures (m - 1.0) * f <= (m - 1.0) * g
  {
    var n := m - 1.0;
    assert n * (g - f) == n * g - n * f;
    if f < g { SignOfProduct(n, g - f); }
  }

  lemma SmallShare(f: real, t: real)
    requires t > 0.0 && f / t < EPS
    ensures f < EPS * t
  {
    var x := f / t;
    assert x * t == f;
    SignOfProduct(EPS - x, t);
  }

  lemma SharesInOrder(f: real, g: real, t: real)
    requires t > 0.0 && f + g == t && f <= g
    ensures f / t + g / t == 1.0 && f / t <= g / t
  {
    Shares(f, g, t);
    var x, y := f / t, g / t;
    assert (x - y) * t == f - g by { assert x * t == f && y * t == g; }
    SignOfProduct(x - y, t);
  }

  /** The feed's own guard: probabilities outside [0.02, 0.98] become 0, and a zero skips the market. */
  function ClampProb(p: real): (r: real)
    ensures r != 0.0 <==> 0.02 <= p <= 0.98
    ensures r != 0.0 ==> r == p
  {
    if p > 0.98 || p < 0.02 then 0.0 else p
  }

  /** For feeds that pass both guards the clamp never acts, and nothing is zeroed when they sum to at most 1. */
  lemma GuardedFeeds(m: real, sels: seq<Selection>, p: real, p': real, i: nat)
    requires m > 1.0 && |sels| == 2 && i < 2
    requires sels[0].feed == ClampProb(p) && sels[1].feed == ClampProb(p') && sels[0].feed != 0.0 && sels[1].feed != 0.0
    ensures sels[0].feed == p && sels[1].feed == p' && 0.02 <= p <= 0.98 && 0.02 <= p' <= 0.98
    ensures Priced(sels) && Fair(sels[i].feed, Sum(sels)) == sels[i].feed / Sum(sels)
    ensures Sum(sels) <= 1.0 ==> !Zeroed(Quotes(m, sels)[i])
    ensures Zeroed(Quotes(m, sels)[i]) <==> Sum(sels) + (m - 1.0) * sels[i].feed > m
  {
    hide Vigged, DecimalToAmerican, Quotes;
    var t, f := Sum(sels), sels[i].feed;
    MiddleShare(f, t - f, t);
    ZeroedExactly(m, sels, i);
    if t <= 1.0 {
      Scaled(m, f, 1.0);
    }
  }

  lemma MiddleShare(f: real, g: real, t: real)
    requires t == f + g && 0.02 <= f <= 0.98 && 0.02 <= g <= 0.98
    ensures EPS <= f / t <= 1.0 - EPS
  {
    var x := f / t;
    assert x * t == f;
    assert (x - 0.01) * t == f - 0.01 * t;
    SignOfProduct(x - 0.01, t);
    assert (0.99 - x) * t == 0.99 * t - f;
    SignOfProduct(0.99 - x, t);
  }
}
