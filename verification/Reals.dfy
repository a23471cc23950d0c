/** Rounded amounts and rates against arithmetic over the reals. */
module Reals {
  import opened Decimals
  import opened Trading

  /** The largest relative error of one decimal.js operation: half a unit in the twentieth digit. */
  const U: real := 1.0 / 20_000_000_000_000_000_000.0

  function Ten(n: nat): (p: real)
    ensures p > 0.0
  {
    Pow10(n) as real
  }

  function AsReal(rate: Rate): real {
    rate.coefficient as real / Ten(rate.places)
  }

  /** `|v - exact|` is at most `slack`. */
  predicate Within(v: real, exact: real, slack: real) {
    exact - slack <= v <= exact + slack
  }

  lemma CastProduct(a: int, b: int)
    ensures (a * b) as real == a as real * b as real
  {
  }

  lemma FromTwice(v: int, exact: int)
    requires 2 * Pow10(19) * Abs(v - exact) <= exact
    ensures Within(v as real, exact as real, U * exact as real)
  {
    var e := Abs(v - exact);
    assert Pow10(19) == 10_000_000_000_000_000_000 by { NineteenDigits(); }
    assert 20_000_000_000_000_000_000.0 * e as real <= exact as real;
  }

  lemma NineteenDigits()
    ensures Pow10(19) == 10_000_000_000_000_000_000
  {
    Pow10Values();
    assert LIMIT == 10 * Pow10(19);
  }

  /** Rounding a non-negative quantity to twenty digits moves it by at most a fraction `U`. */
  lemma Sig20Within(n: nat)
    ensures Sig20(n) >= 0 && Within(Sig20(n) as real, n as real, U * n as real)
  {
    Sig20Error(n);
    Sig20Sign(n);
    FromTwice(Sig20(n), n);
  }

  lemma MulPositive(a: int, b: int)
    requires a >= 0 && b >= 0
    ensures a * b >= 0
    ensures a > 0 && b > 0 ==> a * b > 0
  {
  }

  lemma Cancel(a: real, b: real, w: real)
    requires w > 0.0 && a * w <= b * w
    ensures a <= b
  {
    var gap := b - a;
    assert gap * w == b * w - a * w;
    NegativeTimes(gap, w);
  }

  lemma NegativeTimes(x: real, w: real)
    requires w > 0.0
    ensures x < 0.0 ==> x * w < 0.0
  {
  }

  lemma Scaled(a: real, b: real, w: real)
    requires w >= 0.0 && a <= b
    ensures w * a <= w * b && a * w <= b * w
  {
  }

  // ---------------------------------------------------------------- one rounded product

  /** Half-even rounding of a quotient to a multiple of `step` is off by at most half a step. */
  lemma RoundedWithin(n: int, d: int, step: int)
    requires d > 0 && step > 0
    ensures Within((HalfEven(n, d * step) * step) as real, n as real / d as real, step as real / 2.0)
  {
  }

  /** Half a unit of a currency with this many places, in units of 10^-8. */
  function Half(decimals: nat): (h: real)
    requires decimals <= MAX_PLACES
    ensures h > 0.0
  {
    Ten(MAX_PLACES - decimals) / 2.0
  }

  lemma RoundedProduct(n: nat, extra: nat, decimals: nat)
    requires decimals <= MAX_PLACES
    ensures RoundProduct(n, extra, decimals) >= 0
    ensures Within(RoundProduct(n, extra, decimals) as real, n as real / Ten(extra), Half(decimals))
  {
    hide Pow10, HalfEven;
    var p, step := Pow10(extra), Pow10(MAX_PLACES - decimals);
    Pow10Add(extra, MAX_PLACES - decimals);
    RoundedWithin(n, p, step);
    HalfEvenSign(n, p * step);
    MulPositive(HalfEven(n, p * step), step);
  }

  lemma DividedBounds(m: real, n: real, p: real, lo: real, hi: real)
    requires p > 0.0 && m * lo <= n <= m * hi
    ensures (m / p) * lo <= n / p <= (m / p) * hi
  {
    var q := m / p;
    assert m == q * p;
    var r := n / p;
    assert n == r * p;
    assert m * lo == (q * lo) * p;
    assert m * hi == (q * hi) * p;
    Cancel(q * lo, r, p);
    Cancel(r, q * hi, p);
  }

  lemma Converted(m: real, n: real, p: real, half: real, v: real, exact: real, lo: real, hi: real)
    requires p > 0.0 && exact == m / p && m * lo <= n <= m * hi && Within(v, n / p, half)
    ensures exact * lo - half <= v <= exact * hi + half
  {
    DividedBounds(m, n, p, lo, hi);
  }

  lemma Factors(v: real, exact: real)
    requires Within(v, exact, U * exact)
    ensures exact * (1.0 - U) <= v <= exact * (1.0 + U)
  {
  }

  /**
   A product rounded to twenty digits and then half-even to `decimals` places is within half a unit of the exact
   one, up to `U`.
   */
  lemma ProductWithin(a: nat, b: nat, places: nat, decimals: nat)
    requires decimals <= MAX_PLACES
    ensures RoundProduct(Sig20(a * b), places, decimals) >= 0
    ensures Near(RoundProduct(Sig20(a * b), places, decimals), a as real * (b as real / Ten(places)), decimals)
  {
    hide Sig20, Ten, RoundProduct, Half, Within;
    MulPositive(a, b);
    var n, m := Sig20(a * b), (a * b) as real;
    Sig20Within(a * b);
    RoundedProduct(n, places, decimals);
    CastProduct(a, b);
    Quotient(a as real, b as real, Ten(places), m);
    OneRounding(m, n as real, Ten(places), RoundProduct(n, places, decimals), decimals);
    assert a as real * (b as real / Ten(places)) == m / Ten(places);
  }

  lemma OneRounding(m: real, n: real, p: real, v: int, decimals: nat)
    requires p > 0.0 && Within(n, m, U * m) && decimals <= MAX_PLACES && Within(v as real, n / p, Half(decimals))
    ensures Near(v, m / p, decimals)
  {
    hide Half, Within;
    Factors(n, m);
    Converted(m, n, p, Half(decimals), v as real, m / p, 1.0 - U, 1.0 + U);
  }

  lemma Quotient(a: real, b: real, p: real, m: real)
    requires p > 0.0 && m == a * b
    ensures a * (b / p) == m / p
  {
    var q := b / p;
    assert b == q * p;
    assert m == (a * q) * p;
  }

  /** `v` is the exact amount up to half a unit of the currency and one rounding to twenty digits. */
  predicate Near(v: int, exact: real, decimals: nat)
    requires decimals <= MAX_PLACES
  {
    exact * (1.0 - U) - Half(decimals) <= v as real <= exact * (1.0 + U) + Half(decimals)
  }

  /** A price in units of 10^-8 as a real number. */
  function PriceOf(units: int): real { units as real / 100_000_000.0 }

  /** What a fill spends or earns in the quote currency. */
  lemma QuoteAmountNear(quantity: nat, limitPrice: nat, quoteDecimals: nat)
    requires quoteDecimals <= MAX_PLACES
    ensures QuoteAmount(quantity, limitPrice, quoteDecimals) >= 0
    ensures Near(QuoteAmount(quantity, limitPrice, quoteDecimals), quantity as real * PriceOf(limitPrice), quoteDecimals)
  {
    hide RoundProduct, Sig20, Half, Ten;
    ProductWithin(quantity, limitPrice, MAX_PLACES, quoteDecimals);
    EightPlaces();
    var price := limitPrice as real / Ten(MAX_PLACES);
    assert price == PriceOf(limitPrice);
  }

  lemma EightPlaces()
    ensures Ten(MAX_PLACES) == 100_000_000.0
  {
    Pow10Values();
  }

  /** What a market order spends or earns in the quote currency. */
  lemma MarketAmountNear(quantity: nat, rate: Rate, quoteDecimals: nat)
    requires quoteDecimals <= MAX_PLACES
    ensures MarketAmount(quantity, rate, quoteDecimals) >= 0
    ensures Near(MarketAmount(quantity, rate, quoteDecimals), quantity as real * AsReal(rate), quoteDecimals)
  {
    hide RoundProduct, Sig20, Half, Ten;
    assert rate.coefficient as real / Ten(rate.places) == AsReal(rate);
    ProductWithin(quantity, rate.coefficient, rate.places, quoteDecimals);
  }

  /** The price a market order's row shows is the rate to within half a unit of the quote currency. */
  lemma FixedRateNear(rate: Rate, decimals: nat)
    requires decimals <= MAX_PLACES
    ensures Within(FixedRate(rate, decimals) as real, AsReal(rate) * 100_000_000.0, Half(decimals))
  {
    FixedRateIs(rate, decimals);
    hide FixedRate, Pow10, HalfUp, Half;
    MulPositive(rate.coefficient, Pow10(decimals));
    HalfUpNear(rate.coefficient * Pow10(decimals), Pow10(rate.places));
    ScaleUp(rate.coefficient, decimals, Pow10(rate.places), HalfUp(rate.coefficient * Pow10(decimals), Pow10(rate.places)));
  }

  lemma FixedRateIs(rate: Rate, decimals: nat)
    requires decimals <= MAX_PLACES
    ensures rate.coefficient * Pow10(decimals) >= 0
    ensures FixedRate(rate, decimals) ==
            HalfUp(rate.coefficient * Pow10(decimals), Pow10(rate.places)) * Pow10(MAX_PLACES - decimals)
  {
    hide Pow10, HalfUp;
    MulPositive(rate.coefficient, Pow10(decimals));
  }

  lemma HalfUpNear(m: nat, p: int)
    requires p > 0
    ensures Within((p * HalfUp(m, p)) as real, m as real, p as real / 2.0)
  {
    var x := p * HalfUp(m, p);
    assert 2 * Abs(m - x) <= p;
    hide HalfUp;
    IntegersWithin(x, m, p);
  }

  lemma IntegersWithin(x: int, m: int, p: int)
    requires 2 * Abs(m - x) <= p
    ensures Within(x as real, m as real, p as real / 2.0)
  {
  }

  lemma ScaleUp(c: nat, decimals: nat, p: int, h: nat)
    requires decimals <= MAX_PLACES && p > 0 && Within((p * h) as real, (c * Pow10(decimals)) as real, p as real / 2.0)
    ensures Within((h * Pow10(MAX_PLACES - decimals)) as real, c as real / p as real * 100_000_000.0, Half(decimals))
  {
    hide Pow10, Within;
    var d, step := Pow10(decimals), Pow10(MAX_PLACES - decimals);
    Pow10Add(decimals, MAX_PLACES - decimals);
    EightPlaces();
    CastProduct(d, step);
    CastProduct(c, d);
    CastProduct(p, h);
    CastProduct(h, step);
    NearestScaled(c as real, d as real, p as real, h as real, step as real,
                  (p * h) as real, (c * d) as real, (h * step) as real, c as real / p as real);
  }

  lemma NearestScaled(c: real, d: real, p: real, h: real, step: real, x: real, y: real, v: real, q: real)
    requires p > 0.0 && step > 0.0 && d * step == 100_000_000.0 && q == c / p
    requires x == p * h && y == c * d && v == h * step && Within(x, y, p / 2.0)
    ensures Within(v, q * 100_000_000.0, step / 2.0)
  {
    hide Within;
    var e := q * d;
    assert c == q * p;
    Reordered(q, p, d, p * d);
    Reordered(q, d, p, p * d);
    Reordered(q, d, step, 100_000_000.0);
    Unscaled(h, e, p, x, y);
    Rescaled(h, e, step, v, q * 100_000_000.0);
  }

  lemma Reordered(a: real, b: real, c: real, product: real)
    requires product == b * c
    ensures (a * b) * c == a * product
  {
  }

  lemma HalfShift(e: real, p: real)
    ensures (e - 0.5) * p == e * p - p / 2.0 && (e + 0.5) * p == e * p + p / 2.0
  {
  }

  lemma Unscaled(h: real, e: real, p: real, x: real, y: real)
    requires p > 0.0 && x == h * p && y == e * p && Within(x, y, p / 2.0)
    ensures Within(h, e, 0.5)
  {
    var lo, hi := e - 0.5, e + 0.5;
    HalfShift(e, p);
    assert lo * p == y - p / 2.0 && hi * p == y + p / 2.0;
    Cancel(lo, h, p);
    Cancel(h, hi, p);
  }

  lemma Rescaled(h: real, e: real, step: real, v: real, w: real)
    requires step > 0.0 && v == h * step && w == e * step && Within(h, e, 0.5)
    ensures Within(v, w, step / 2.0)
  {
    var lo, hi := e - 0.5, e + 0.5;
    HalfShift(e, step);
    assert lo * step == w - step / 2.0 && hi * step == w + step / 2.0;
    Scaled(lo, h, step);
    Scaled(h, hi, step);
  }

  // ---------------------------------------------------------------- limits

  /** The market is at the limit price or better: for a buyer not above it, for a seller not below. */
  predicate Reached(side: Side, rate: Rate, limitPrice: int) {
    match side
    case Buy => AsReal(rate) <= PriceOf(limitPrice)
    case Sell => AsReal(rate) >= PriceOf(limitPrice)
  }

  /** The worker's comparison decides exactly that. */
  lemma CrossedIff(side: Side, rate: Rate, limitPrice: int)
    ensures Crossed(side, rate, limitPrice) <==> Reached(side, rate, limitPrice)
  {
    hide Pow10;
    EightPlaces();
    CastProduct(rate.coefficient, Pow10(MAX_PLACES));
    CastProduct(limitPrice, Pow10(rate.places));
    CrossMultiplied(rate.coefficient as real, Ten(rate.places), limitPrice as real, 100_000_000.0);
  }

  lemma CrossMultiplied(c: real, p: real, n: real, d: real)
    requires p > 0.0 && d > 0.0
    ensures c * d <= n * p <==> c / p <= n / d
    ensures c * d >= n * p <==> c / p >= n / d
  {
    var x, y, w := c / p, n / d, p * d;
    assert c == x * p && n == y * d && w > 0.0;
    assert c * d == x * w && n * p == y * w;
    if x <= y { Scaled(x, y, w); } else { StrictlyScaled(y, x, w); }
    if y <= x { Scaled(y, x, w); } else { StrictlyScaled(x, y, w); }
  }

  lemma StrictlyScaled(a: real, b: real, w: real)
    requires w > 0.0 && a < b
    ensures a * w < b * w
  {
    NegativeTimes(a - b, w);
    assert (a - b) * w == a * w - b * w;
  }

  /** A limit reached at one rate is reached at every better one. */
  lemma BetterRateReaches(side: Side, rate: Rate, better: Rate, limitPrice: int)
    requires Crossed(side, rate, limitPrice)
    requires if side == Buy then AsReal(better) <= AsReal(rate) else AsReal(better) >= AsReal(rate)
    ensures Crossed(side, better, limitPrice)
  {
    hide Crossed, AsReal, PriceOf;
    CrossedIff(side, rate, limitPrice);
    CrossedIff(side, better, limitPrice);
  }
}
