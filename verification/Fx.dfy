/**
 Exchange rates and conversions: the cached snapshot, the rate as a ratio of two of its prices, and how far
 converted amounts can be from the exact product.  Decimal.js rounds the ratio and both products to twenty
 digits, so every bound carries the factor `1 + U`.
 */
module Fx {
  import opened Wrappers
  import opened Decimals
  import opened Ledger
  import opened Trading
  import opened Reals
  import opened System

  // ---------------------------------------------------------------- a quotient with twenty digits

  /** How many more places make the quotient's integer part twenty digits long. */
  function Upscale(n: nat, d: nat): nat
    requires n > 0 && d > 0
    decreases if n < Pow10(19) * d then Pow10(19) * d - n else 0
  {
    if n >= Pow10(19) * d then 0 else 1 + Upscale(10 * n, d)
  }

  /** How many digits of the quotient's integer part are beyond twenty. */
  function Downscale(n: nat, d: nat): nat
    requires d > 0
    decreases if n < d then 0 else n - d
  {
    Pow10Values();
    if n < LIMIT * d then 0 else 1 + Downscale(n, 10 * d)
  }

  /** One price over another, to twenty digits. */
  function Ratio(from: Rate, to: Rate): Rate
    requires to.coefficient > 0
  {
    var n, d := Over(from, to), Under(from, to);
    if n == 0 then Rate(0, 0)
    else if n < LIMIT * d then
      var e := Upscale(n, d);
      MulPositive(n, Pow10(e));
      Rate(HalfUp(n * Pow10(e), d), e)
    else
      var k := Downscale(n, d);
      MulPositive(d, Pow10(k));
      MulPositive(HalfUp(n, d * Pow10(k)), Pow10(k));
      Rate(HalfUp(n, d * Pow10(k)) * Pow10(k), 0)
  }

  /** The exact quotient of two prices is `Over / Under`. */
  function Over(from: Rate, to: Rate): (n: nat)
    ensures n == from.coefficient * Pow10(to.places)
  {
    MulPositive(from.coefficient, Pow10(to.places));
    from.coefficient * Pow10(to.places)
  }

  function Under(from: Rate, to: Rate): (d: nat)
    ensures to.coefficient > 0 ==> d > 0
  {
    MulPositive(to.coefficient, Pow10(from.places));
    to.coefficient * Pow10(from.places)
  }

  lemma {:induction false} UpscaleReaches(n: nat, d: nat)
    requires n > 0 && d > 0
    ensures n * Pow10(Upscale(n, d)) >= Pow10(19) * d
    decreases if n < Pow10(19) * d then Pow10(19) * d - n else 0
  {
    if n < Pow10(19) * d {
      UpscaleReaches(10 * n, d);
      var p := Pow10(Upscale(10 * n, d));
      assert n * (10 * p) == (10 * n) * p;
    }
  }

  lemma {:induction false} DownscaleReaches(n: nat, d: nat)
    requires d > 0 && n >= Pow10(19) * d
    ensures n >= Pow10(19) * (d * Pow10(Downscale(n, d)))
    decreases if n < d then 0 else n - d
  {
    Pow10Values();
    assert LIMIT == 10 * Pow10(19);
    if n >= LIMIT * d {
      assert LIMIT * d == Pow10(19) * (10 * d);
      DownscaleReaches(n, 10 * d);
      var p := Pow10(Downscale(n, 10 * d));
      assert d * (10 * p) == (10 * d) * p;
    }
  }

  /** The ratio is off by at most one part in 2*10^19. */
  lemma RatioError(from: Rate, to: Rate)
    requires to.coefficient > 0
    ensures var n, d, r := Over(from, to), Under(from, to), Ratio(from, to);
            2 * Pow10(19) * Abs(n * Pow10(r.places) - d * r.coefficient) <= n * Pow10(r.places)
  {
    var n, d, r := Over(from, to), Under(from, to), Ratio(from, to);
    if n == 0 {
      assert n * Pow10(r.places) == 0;
    } else if n < LIMIT * d {
      UpscaleReaches(n, d);
      var m := n * Pow10(r.places);
      ScaledError(Pow10(19), d, Abs(m - d * r.coefficient), m);
    } else {
      BigRatioError(n, d, r);
    }
  }

  lemma BigRatioError(n: nat, d: nat, r: Rate)
    requires d > 0 && n >= LIMIT * d && Pow10(Downscale(n, d)) * d > 0
    requires r == Rate(r.coefficient, 0)
    requires r.coefficient == HalfUp(n, d * Pow10(Downscale(n, d))) * Pow10(Downscale(n, d))
    ensures 2 * Pow10(19) * Abs(n * Pow10(r.places) - d * r.coefficient) <= n * Pow10(r.places)
  {
    MoreThanNineteen(n, d);
    DownscaleReaches(n, d);
    hide Downscale;
    var p := Pow10(Downscale(n, d));
    var h := HalfUp(n, d * p);
    Regroup(d, h, p);
    assert Pow10(r.places) == 1;
    ScaledError(Pow10(19), d * p, Abs(n - (d * p) * h), n);
  }

  lemma MoreThanNineteen(n: nat, d: nat)
    requires d > 0 && n >= LIMIT * d
    ensures n >= Pow10(19) * d
  {
    assert LIMIT == 10 * Pow10(19);
    MulMonotone(d, Pow10(19), LIMIT);
  }

  lemma Regroup(d: int, h: int, p: int)
    ensures d * (h * p) == (d * p) * h
  {
  }

  // ---------------------------------------------------------------- over the reals

  /** The snapshot's rate is the exact quotient of its two prices up to a fraction `U`. */
  lemma RatioWithin(from: Rate, to: Rate)
    requires to.coefficient > 0
    ensures AsReal(to) > 0.0
    ensures var exact := AsReal(from) / AsReal(to); Within(AsReal(Ratio(from, to)), exact, U * exact)
  {
    hide Ratio, Pow10, Within, AsReal, Over, Under;
    RatioError(from, to);
    ScaledRatio(Over(from, to), Under(from, to), Ratio(from, to));
    ExactQuotient(from, to);
  }

  lemma ExactQuotient(from: Rate, to: Rate)
    requires to.coefficient > 0
    ensures AsReal(to) > 0.0
    ensures Over(from, to) as real / Under(from, to) as real == AsReal(from) / AsReal(to)
  {
    hide Pow10;
    CastProduct(from.coefficient, Pow10(to.places));
    CastProduct(to.coefficient, Pow10(from.places));
    QuotientOfQuotients(from.coefficient as real, Ten(from.places), to.coefficient as real, Ten(to.places));
  }

  lemma ScaledRatio(n: nat, d: nat, r: Rate)
    requires d > 0
    requires 2 * Pow10(19) * Abs(n * Pow10(r.places) - d * r.coefficient) <= n * Pow10(r.places)
    ensures Within(AsReal(r), n as real / d as real, U * (n as real / d as real))
  {
    hide Pow10;
    FromTwice(d * r.coefficient, n * Pow10(r.places));
    CastProduct(d, r.coefficient);
    CastProduct(n, Pow10(r.places));
    CrossDivided(r.coefficient as real, Ten(r.places), n as real, d as real);
  }

  lemma CrossDivided(c: real, p: real, n: real, d: real)
    requires p > 0.0 && d > 0.0 && n >= 0.0 && Within(d * c, n * p, U * (n * p))
    ensures Within(c / p, n / d, U * (n / d))
  {
    var q := n / d;
    assert n == q * d;
    var v := c / p;
    assert c == v * p;
    var w := d * p;
    assert w > 0.0 && d * c == v * w && n * p == q * w;
    assert U * (q * w) == (U * q) * w;
    Cancel(q - U * q, v, w);
    Cancel(v, q + U * q, w);
  }

  lemma QuotientOfQuotients(a: real, p: real, b: real, q: real)
    requires p > 0.0 && b > 0.0 && q > 0.0
    ensures b / q > 0.0
    ensures (a / p) / (b / q) == (a * q) / (b * p)
  {
    var x, y := a / p, b / q;
    assert a == x * p && b == y * q;
    assert y > 0.0;
    var z := x / y;
    assert x == z * y;
    assert a * q == z * (b * p) by {
      assert a * q == ((z * y) * p) * q;
      assert b * p == (y * q) * p;
    }
    assert b * p > 0.0;
  }

  // ---------------------------------------------------------------- one conversion

  /** `1 - spreadBps / 10000` */
  function Kept(spreadBps: nat): real {
    (10_000.0 - spreadBps as real) / 10_000.0
  }

  /** The amount as real arithmetic has it. */
  function Exact(units: nat, rate: real, spreadBps: nat): real {
    units as real * rate * Kept(spreadBps)
  }

  /** The quotient of two prices. */
  function ExactRate(from: Rate, to: Rate): (r: real)
    requires from.coefficient > 0 && to.coefficient > 0
    ensures r > 0.0
  {
    assert AsReal(from) > 0.0 && AsReal(to) > 0.0;
    AsReal(from) / AsReal(to)
  }

  /** What two roundings to twenty digits can do to a product. */
  const LOW: real := (1.0 - U) * (1.0 - U)
  const HIGH: real := (1.0 + U) * (1.0 + U)

  lemma TwoErrors(x: real, k: real, c: real, n: real)
    requires x >= 0.0 && k >= 0.0 && Within(c, k, U * k) && Within(n, x * c, U * (x * c))
    ensures (x * k) * LOW <= n <= (x * k) * HIGH
  {
    Factors(c, k);
    Factors(n, x * c);
    TwoFactors(x, k, c, n, 1.0 - U, 1.0 + U);
    assert LOW == (1.0 - U) * (1.0 - U) && HIGH == (1.0 + U) * (1.0 + U);
  }

  lemma TwoFactors(x: real, k: real, c: real, n: real, lo: real, hi: real)
    requires x >= 0.0 && lo >= 0.0 && hi >= 0.0
    requires k * lo <= c <= k * hi && (x * c) * lo <= n <= (x * c) * hi
    ensures (x * k) * (lo * lo) <= n <= (x * k) * (hi * hi)
  {
    Scaled(k * lo, c, x);
    Scaled(x * (k * lo), x * c, lo);
    Scaled(c, k * hi, x);
    Scaled(x * c, x * (k * hi), hi);
    Regrouped(x, k, lo);
    Regrouped(x, k, hi);
  }

  lemma Regrouped(x: real, k: real, f: real)
    ensures (x * (k * f)) * f == (x * k) * (f * f)
  {
  }

  lemma ExactAsQuotient(units: nat, rate: Rate, spreadBps: nat)
    requires spreadBps <= 10_000
    ensures var k := rate.coefficient * (10_000 - spreadBps);
            Exact(units, AsReal(rate), spreadBps) == (units as real * k as real) / Ten(rate.places + 4)
  {
    var k := rate.coefficient * (10_000 - spreadBps);
    Pow10Values();
    Pow10Add(rate.places, 4);
    CastProduct(Pow10(rate.places), Pow10(4));
    CastProduct(rate.coefficient, 10_000 - spreadBps);
    FlattenExact(units as real, rate.coefficient as real, Ten(rate.places), (10_000 - spreadBps) as real);
  }

  lemma FlattenExact(x: real, c: real, p: real, b: real)
    requires p > 0.0
    ensures x * (c / p) * (b / 10_000.0) == (x * (c * b)) / (p * 10_000.0)
  {
    var q := c / p;
    assert c == q * p;
    assert x * (c * b) == (x * q * (b / 10_000.0)) * (p * 10_000.0);
  }

  /** A converted amount is within half a target unit of amount * rate * (1 - s), up to two roundings by `U`. */
  lemma ConversionWithin(units: nat, rate: Rate, spreadBps: nat, decimals: nat)
    requires spreadBps <= 10_000 && decimals <= MAX_PLACES
    ensures ConvertedAmount(units, rate, spreadBps, decimals) >= 0
    ensures var v := ConvertedAmount(units, rate, spreadBps, decimals) as real;
            var exact := Exact(units, AsReal(rate), spreadBps);
            exact * LOW - Half(decimals) <= v <= exact * HIGH + Half(decimals)
  {
    hide Sig20, Ten, RoundProduct, AsReal, Exact, Half, Within, ConvertedAmount;
    var k := rate.coefficient * (10_000 - spreadBps);
    MulPositive(rate.coefficient, 10_000 - spreadBps);
    var n := Sig20(units * Sig20(k));
    ConvertedIs(units, rate, spreadBps, decimals);
    RoundedTwice(units, k);
    ExactAsQuotient(units, rate, spreadBps);
    RoundedProduct(n, rate.places + 4, decimals);
    Converted(units as real * k as real, n as real, Ten(rate.places + 4), Half(decimals),
              ConvertedAmount(units, rate, spreadBps, decimals) as real, Exact(units, AsReal(rate), spreadBps), LOW, HIGH);
  }

  lemma ConvertedIs(units: nat, rate: Rate, spreadBps: nat, decimals: nat)
    requires spreadBps <= 10_000 && decimals <= MAX_PLACES
    ensures ConvertedAmount(units, rate, spreadBps, decimals) ==
            RoundProduct(Sig20(units * Sig20(rate.coefficient * (10_000 - spreadBps))), rate.places + 4, decimals)
  {
    hide Sig20, RoundProduct;
  }

  lemma RoundedTwice(x: nat, k: nat)
    ensures var n := Sig20(x * Sig20(k));
            n >= 0 && (x as real * k as real) * LOW <= n as real <= (x as real * k as real) * HIGH
  {
    hide Sig20;
    var c := Sig20(k);
    Sig20Within(k);
    MulPositive(x, c);
    Sig20Within(x * c);
    CastProduct(x, c);
    TwoErrors(x as real, k as real, c as real, Sig20(x * c) as real);
  }

  // ---------------------------------------------------------------- there and back

  /** Three roundings each way at most: the ratio, the net rate, the product. */
  const HIGH3: real := (1.0 + U) * HIGH

  /**
   Converting `units` of A to B and all of it back, at one snapshot's prices: at most
   `x (1-s)^2` plus half a unit of B at B's rate less the spread, plus half a unit of A, up to rounding by `U`.
   */
  lemma RoundTrip(units: nat, a: Rate, b: Rate, spreadBps: nat, da: nat, db: nat)
    requires spreadBps <= 10_000 && da <= MAX_PLACES && db <= MAX_PLACES && a.coefficient > 0 && b.coefficient > 0
    ensures var y := ConvertedAmount(units, Ratio(a, b), spreadBps, db);
            && RoundTo(y, db) == y >= 0
            && ConvertedAmount(y, Ratio(b, a), spreadBps, da) as real <=
               units as real * Kept(spreadBps) * Kept(spreadBps) * HIGH3 * HIGH3
               + Half(db) * ExactRate(b, a) * Kept(spreadBps) * HIGH3
               + Half(da)
  {
    hide Ratio, ConvertedAmount, Half, Within, Kept, ExactRate, RoundTo, AsReal;
    var y := ConvertedAmount(units, Ratio(a, b), spreadBps, db);
    ExactRatio(a, b);
    ExactRatio(b, a);
    ConversionWithin(units, Ratio(a, b), spreadBps, db);
    ConvertedRounded(units, Ratio(a, b), spreadBps, db);
    ConversionWithin(y, Ratio(b, a), spreadBps, da);
    KeptFraction(spreadBps);
    ThereAndBack(units as real, y as real, ConvertedAmount(y, Ratio(b, a), spreadBps, da) as real,
                 AsReal(Ratio(a, b)), AsReal(Ratio(b, a)), ExactRate(a, b), ExactRate(b, a), Kept(spreadBps),
                 Half(da), Half(db));
  }

  lemma ExactRatio(a: Rate, b: Rate)
    requires a.coefficient > 0 && b.coefficient > 0
    ensures Within(AsReal(Ratio(a, b)), ExactRate(a, b), U * ExactRate(a, b))
    ensures ExactRate(a, b) * ExactRate(b, a) == 1.0
  {
    hide Ratio, Within;
    RatioWithin(a, b);
    RatioWithin(b, a);
    Inverse(AsReal(a), AsReal(b));
  }

  lemma KeptFraction(spreadBps: nat)
    requires spreadBps <= 10_000
    ensures 0.0 <= Kept(spreadBps) <= 1.0
    ensures spreadBps > 0 ==> Kept(spreadBps) * HIGH3 <= 1.0
  {
    if spreadBps > 0 {
      assert Kept(spreadBps) <= 0.9999;
      Scaled(Kept(spreadBps), 0.9999, HIGH3);
    }
  }

  lemma ThereAndBack(x: real, y: real, z: real, there: real, back: real, r: real, q: real, k: real, halfA: real, halfB: real)
    requires x >= 0.0 && y >= 0.0 && k >= 0.0 && r > 0.0 && q > 0.0 && r * q == 1.0
    requires Within(there, r, U * r) && Within(back, q, U * q)
    requires y <= x * there * k * HIGH + halfB && z <= y * back * k * HIGH + halfA
    ensures z <= x * k * k * HIGH3 * HIGH3 + halfB * q * k * HIGH3 + halfA
  {
    hide Within;
    Leg(x, there, r, k);
    Leg(y, back, q, k);
    Chain(x, r, q, k * HIGH3, halfB, y);
    assert x * (k * HIGH3) * (k * HIGH3) == x * k * k * HIGH3 * HIGH3;
    assert halfB * q * (k * HIGH3) == halfB * q * k * HIGH3;
  }

  /** With any spread at all, a round trip gains at most the two half units of rounding. */
  lemma RoundTripGainsAtMostRounding(units: nat, a: Rate, b: Rate, spreadBps: nat, da: nat, db: nat)
    requires 0 < spreadBps <= 10_000 && da <= MAX_PLACES && db <= MAX_PLACES && a.coefficient > 0 && b.coefficient > 0
    ensures var y := ConvertedAmount(units, Ratio(a, b), spreadBps, db);
            && y >= 0
            && ConvertedAmount(y, Ratio(b, a), spreadBps, da) as real <=
               units as real + Half(db) * ExactRate(b, a) + Half(da)
  {
    hide Ratio, ConvertedAmount, Half, Kept, ExactRate, RoundTo;
    RoundTrip(units, a, b, spreadBps, da, db);
    KeptFraction(spreadBps);
    var y := ConvertedAmount(units, Ratio(a, b), spreadBps, db);
    Shrunk(ConvertedAmount(y, Ratio(b, a), spreadBps, da) as real, units as real, Half(db), ExactRate(b, a),
           Kept(spreadBps), Half(da));
  }

  lemma Shrunk(z: real, x: real, half: real, q: real, k: real, halfA: real)
    requires x >= 0.0 && half >= 0.0 && q >= 0.0 && 0.0 <= k && k * HIGH3 <= 1.0
    requires z <= x * k * k * HIGH3 * HIGH3 + half * q * k * HIGH3 + halfA
    ensures z <= x + half * q + halfA
  {
    Scaled(0.0, q, half);
    Lessened(x, k, HIGH3);
    Lessened(x * k * HIGH3, k, HIGH3);
    Lessened(half * q, k, HIGH3);
    assert x * k * HIGH3 * k * HIGH3 == x * k * k * HIGH3 * HIGH3;
    Summed(z, x * k * k * HIGH3 * HIGH3, half * q * k * HIGH3, x, half * q, halfA);
  }

  lemma Lessened(x: real, k: real, h: real)
    requires x >= 0.0 && 0.0 <= k && k * h <= 1.0 && h > 0.0
    ensures 0.0 <= x * k * h <= x
  {
    var f := k * h;
    assert f >= 0.0;
    Scaled(f, 1.0, x);
    Scaled(0.0, f, x);
    assert x * k * h == x * f;
  }

  lemma Summed(z: real, p: real, r: real, x: real, y: real, h: real)
    requires z <= p + r + h && p <= x && r <= y
    ensures z <= x + y + h
  {
  }

  /**
   The rounding allowance is real: with BTC at 50000 and dollars in cents, 11 units of 10^-8 BTC go out and
   20 come back, at a spread of 50 basis points.
   */
  lemma TinyRoundTripGains()
    ensures ConvertedAmount(11, Rate(50_000, 0), 50, 2) == 1_000_000
    ensures ConvertedAmount(1_000_000, Rate(2, 5), 50, 8) == 20
  {
    SmallConversion(11, Rate(50_000, 0), 50, 2);
    SmallConversion(1_000_000, Rate(2, 5), 50, 8);
    Pow10Values();
    Pow10Add(4, 6);
    Pow10Add(8, 1);
    assert Pow10(6) == 100 * Pow10(4);
    assert Pow10(1) == 10;
  }

  lemma SmallConversion(units: nat, rate: Rate, spreadBps: nat, decimals: nat)
    requires spreadBps <= 10_000 && decimals <= MAX_PLACES
    requires var k := rate.coefficient * (10_000 - spreadBps); Abs(k) < LIMIT && Abs(units * k) < LIMIT
    ensures ConvertedAmount(units, rate, spreadBps, decimals) ==
            RoundProduct(units * (rate.coefficient * (10_000 - spreadBps)), rate.places + 4, decimals)
  {
    hide RoundProduct, Sig20;
    SmallIsRepresentable(rate.coefficient * (10_000 - spreadBps));
    SmallIsRepresentable(units * (rate.coefficient * (10_000 - spreadBps)));
  }

  lemma ConvertedRounded(units: nat, rate: Rate, spreadBps: nat, decimals: nat)
    requires decimals <= MAX_PLACES
    ensures var y := ConvertedAmount(units, rate, spreadBps, decimals); RoundTo(y, decimals) == y
  {
    hide Sig20, Pow10, HalfEven;
    var (c, p) := NetRate(rate, spreadBps);
    var n := Sig20(units * c);
    HalfEvenExact(HalfEven(n, Pow10(p + (MAX_PLACES - decimals))), Pow10(MAX_PLACES - decimals));
  }

  /** One way, with the rate rounded. */
  lemma Leg(x: real, rate: real, exact: real, k: real)
    requires x >= 0.0 && k >= 0.0 && exact >= 0.0 && Within(rate, exact, U * exact)
    ensures x * rate * k * HIGH <= x * exact * (k * HIGH3)
  {
    var e := exact * (1.0 + U);
    Scaled(rate, e, x);
    Scaled(x * rate, x * e, k);
    Scaled(x * rate * k, x * e * k, HIGH);
    assert x * e * k * HIGH == x * exact * (k * HIGH3) by {
      assert x * e * k * HIGH == x * exact * k * ((1.0 + U) * HIGH);
    }
  }

  /** The first leg's result put into the second. */
  lemma Chain(x: real, r: real, q: real, f: real, half: real, y: real)
    requires r * q == 1.0 && q > 0.0 && f >= 0.0 && y <= x * r * f + half
    ensures y * q * f <= x * f * f + half * q * f
  {
    Scaled(y, x * r * f + half, q * f);
    assert (x * r * f) * (q * f) == x * f * f * (r * q);
  }

  lemma Inverse(a: real, b: real)
    requires a > 0.0 && b > 0.0
    ensures (a / b) * (b / a) == 1.0 && a / b > 0.0 && b / a > 0.0
  {
    var r, q := a / b, b / a;
    assert a == r * b && b == q * a;
    assert r * b == r * (q * a) == (r * q) * a;
    CancelEqual(1.0, r * q, a);
  }

  lemma CancelEqual(a: real, b: real, w: real)
    requires w > 0.0 && a * w == b * w
    ensures a == b
  {
    Cancel(a, b, w);
    Cancel(b, a, w);
  }

  // ---------------------------------------------------------------- the cached snapshot

  type Price = r: Rate | r.coefficient > 0 witness Rate(1, 0)

  /** USD prices; `live` tells which provider they came from. */
  datatype Snapshot = Snapshot(prices: map<Code, Price>, live: bool, asOf: int)

  predicate Current(cache: Option<Snapshot>, ttlMs: int, now: int) {
    cache.Some? && now - cache.value.asOf < ttlMs
  }

  /** The cached snapshot while it is current, else the live prices, else the static ones. */
  function Served(cache: Option<Snapshot>, ttlMs: int, now: int, later: int,
                  live: Option<map<Code, Price>>, fallback: map<Code, Price>): Snapshot {
    if Current(cache, ttlMs, now) then cache.value
    else if live.Some? then Snapshot(live.value, true, later)
    else Snapshot(fallback, false, later)
  }

  function RateIn(s: Snapshot, from: Code, to: Code): Option<Rate> {
    if from in s.prices && to in s.prices then Some(Ratio(s.prices[from], s.prices[to])) else None
  }

  class RatesService {
    var cache: Option<Snapshot>
    const ttlMs: int

    constructor (ttlMs: int)
      ensures cache == None && this.ttlMs == ttlMs
    {
      cache := None;
      this.ttlMs := ttlMs;
    }

    /** `live` is what the live provider returns, if it answers, at time `later`. */
    method GetSnapshot(now: int, later: int, live: Option<map<Code, Price>>, fallback: map<Code, Price>)
      returns (s: Snapshot)
      modifies this
      ensures s == Served(old(cache), ttlMs, now, later, live, fallback) && cache == Some(s)
      ensures old(cache).Some? && now < old(cache).value.asOf + ttlMs ==> s == old(cache).value
      ensures old(cache).None? || now >= old(cache).value.asOf + ttlMs ==>
                s.asOf == later && (live.Some? ==> s.live && s.prices == live.value) && (live.None? ==> !s.live && s.prices == fallback)
    {
      if cache.Some? && now - cache.value.asOf < ttlMs {
        return cache.value;
      }
      match live {
        case Some(prices) => cache := Some(Snapshot(prices, true, later));
        case None => cache := Some(Snapshot(fallback, false, later));
      }
      return cache.value;
    }

    method GetRate(from: Code, to: Code, now: int, later: int, live: Option<map<Code, Price>>, fallback: map<Code, Price>)
      returns (rate: Option<Rate>)
      modifies this
      ensures var s := Served(old(cache), ttlMs, now, later, live, fallback);
              cache == Some(s) && rate == RateIn(s, from, to)
    {
      var snapshot := GetSnapshot(now, later, live, fallback);
      if from !in snapshot.prices || to !in snapshot.prices {
        return None;
      }
      return Some(Ratio(snapshot.prices[from], snapshot.prices[to]));
    }
  }

  /** Two rates asked for within one window, with nobody refetching between, are rates of one snapshot. */
  lemma RatesOfOneSnapshot(cache: Option<Snapshot>, ttlMs: int, now: int, later: int, now2: int, later2: int,
                           live: Option<map<Code, Price>>, live2: Option<map<Code, Price>>, fallback: map<Code, Price>,
                           a: Code, b: Code)
    requires var s := Served(cache, ttlMs, now, later, live, fallback);
             now2 - s.asOf < ttlMs && a in s.prices && b in s.prices
    ensures var s := Served(cache, ttlMs, now, later, live, fallback);
            var s2 := Served(Some(s), ttlMs, now2, later2, live2, fallback);
            && s2 == s
            && RateIn(s, a, b).Some? && RateIn(s2, b, a).Some?
            && var exact := ExactRate(s.prices[a], s.prices[b]);
               && Within(AsReal(RateIn(s, a, b).value), exact, U * exact)
               && Within(AsReal(RateIn(s2, b, a).value), 1.0 / exact, U * (1.0 / exact))
  {
    hide Ratio, Within, ExactRate, AsReal;
    var s := Served(cache, ttlMs, now, later, live, fallback);
    ExactRatio(s.prices[a], s.prices[b]);
    ExactRatio(s.prices[b], s.prices[a]);
    Reciprocal(ExactRate(s.prices[a], s.prices[b]), ExactRate(s.prices[b], s.prices[a]));
  }

  lemma Reciprocal(r: real, q: real)
    requires r > 0.0 && r * q == 1.0
    ensures q == 1.0 / r
  {
  }
}
