/**
 The part of decimal.js the money code relies on.  A quantity with at most eight decimals is an `int`
 counting units of 10^-8; a product of two such quantities counts units of 10^-16.

 `plus` and `times` of decimal.js round their result to 20 significant digits, halves away from zero
 (its defaults; nothing in the program calls `Decimal.set`).  `Sig20` is that rounding, `HalfEven` the
 banker's rounding the program asks for explicitly.
 */
module Decimals {

  /** A decimal string as decimal.js reads it: `coefficient / 10^places` when it is finite. */
  datatype Numeral = Malformed | NonFinite | Finite(coefficient: int, places: nat)

  const MAX_PLACES: nat := 8
  const PRECISION: nat := 20

  /** The least magnitude that has more than 20 digits. */
  const LIMIT: int := Pow10(PRECISION)

  function Pow10(n: nat): (p: int)
    ensures p > 0
  {
    if n == 0 then 1 else 10 * Pow10(n - 1)
  }

  lemma {:induction false} Pow10Add(m: nat, n: nat)
    ensures Pow10(m + n) == Pow10(m) * Pow10(n)
  {
    if m > 0 {
      Pow10Add(m - 1, n);
      assert Pow10(m + n) == 10 * (Pow10(m - 1) * Pow10(n)) == (10 * Pow10(m - 1)) * Pow10(n);
    }
  }

  lemma Pow10Values()
    ensures Pow10(4) == 10_000
    ensures Pow10(8) == 100_000_000
    ensures Pow10(16) == 10_000_000_000_000_000
    ensures LIMIT == 100_000_000_000_000_000_000
  {
    assert Pow10(4) == 10 * (10 * (10 * (10 * Pow10(0))));
    Pow10Add(4, 4);
    Pow10Add(8, 8);
    Pow10Add(16, 4);
  }

  function Abs(n: int): (a: nat) {
    if n < 0 then -n else n
  }

  // ---------------------------------------------------------------- rounding to an integer quotient

  /** The whole number nearest to `n / d`, ties to the even one. */
  function HalfEven(n: int, d: int): (r: int)
    requires d > 0
  {
    var q := n / d;
    var rest := n % d;
    if 2 * rest < d || (2 * rest == d && q % 2 == 0) then q else q + 1
  }

  /** What "nearest, ties to even" means, without saying how it is found. */
  ghost predicate IsHalfEven(n: int, d: int, r: int) {
    && 2 * Abs(n - d * r) <= d
    && (2 * Abs(n - d * r) == d ==> r % 2 == 0)
  }

  lemma DivMod(n: int, d: int)
    requires d > 0
    ensures n == d * (n / d) + n % d && 0 <= n % d < d
  {
  }

  /** `HalfEven` returns a nearest value with the right tie, and no other value is one. */
  lemma HalfEvenIff(n: int, d: int, r: int)
    requires d > 0
    ensures r == HalfEven(n, d) <==> IsHalfEven(n, d, r)
  {
    DivMod(n, d);
    var q, rest := n / d, n % d;
    assert n - d * r == rest - d * (r - q) by {
      assert d * (r - q) == d * r - d * q;
    }
    if r - q >= 2 {
      MulMonotone(d, 2, r - q);
    } else if r - q <= -1 {
      MulMonotone(d, r - q, -1);
    } else if r == q {
      assert d * (r - q) == 0;
    } else {
      assert r == q + 1 && d * (r - q) == d;
    }
  }

  lemma MulMonotone(d: int, a: int, b: int)
    requires d >= 0 && a <= b
    ensures d * a <= d * b
  {
    assert d * (b - a) >= 0;
    assert d * (b - a) == d * b - d * a;
  }

  lemma HalfEvenExact(n: int, d: int)
    requires d > 0
    ensures HalfEven(n * d, d) == n
  {
    HalfEvenIff(n * d, d, n);
    assert n * d - d * n == 0;
  }

  lemma HalfEvenSign(n: int, d: int)
    requires d > 0 && n >= 0
    ensures HalfEven(n, d) >= 0
  {
    DivMod(n, d);
    if n / d < 0 {
      MulMonotone(d, n / d, -1);
    }
  }

  /** A non-negative quotient rounds half-even to zero exactly when it is at most one half. */
  lemma HalfEvenZeroIff(n: int, d: int)
    requires d > 0 && n >= 0
    ensures HalfEven(n, d) == 0 <==> 2 * n <= d
  {
    HalfEvenIff(n, d, 0);
  }

  // ---------------------------------------------------------------- twenty significant digits

  /** How many digits of `m` exceed the first twenty. */
  function Excess(m: nat): (k: nat) {
    if m < LIMIT then 0 else LimitPositive(); 1 + Excess(m / 10)
  }

  lemma LimitPositive()
    ensures LIMIT == 100_000_000_000_000_000_000
  {
    Pow10Values();
  }

  /** Nearest multiple count, halves upwards; used on magnitudes, so halves go away from zero. */
  function HalfUp(m: nat, d: int): (r: nat)
    requires d > 0
    ensures 2 * Abs(m - d * r) <= d
  {
    DivMod(m, d);
    var q, rest := m / d, m % d;
    assert q >= 0 by { if q < 0 { MulMonotone(d, q, -1); } }
    assert d * (q + 1) == d * q + d;
    if 2 * rest < d then q else q + 1
  }

  /** The result of a decimal.js operation whose exact result is `n` units. */
  function Sig20(n: int): (r: int) {
    var unit := Pow10(Excess(Abs(n)));
    if n < 0 then -(HalfUp(-n, unit) * unit) else HalfUp(n, unit) * unit
  }

  /** `n` can be written with twenty significant digits. */
  predicate Representable(n: int) {
    n % Pow10(Excess(Abs(n))) == 0
  }

  lemma SmallIsRepresentable(n: int)
    requires Abs(n) < LIMIT
    ensures Representable(n) && Sig20(n) == n
  {
    assert Pow10(Excess(Abs(n))) == 1;
  }

  /** Rounding to twenty digits loses nothing exactly on the representable numbers. */
  lemma Sig20ExactIff(n: int)
    ensures Sig20(n) == n <==> Representable(n)
  {
    var unit := Pow10(Excess(Abs(n)));
    var m := Abs(n);
    DivMod(m, unit);
    DivMod(n, unit);
    if m % unit == 0 {
      assert unit * (m / unit) == m;
      var r := HalfUp(m, unit);
      var q := m / unit;
      assert r == q;
      assert r * unit == m;
    } else {
      var r := HalfUp(m, unit);
      if r * unit == m { MultipleHasNoRest(r, unit); assert false; }
    }
    NegatedRest(n, unit);
  }

  lemma MultipleHasNoRest(r: int, d: int)
    requires d > 0
    ensures (r * d) % d == 0 && (r * d) / d == r
  {
    var n := r * d;
    DivMod(n, d);
    var q := n / d;
    assert d * (r - q) == n % d by { assert d * (r - q) == d * r - d * q; }
    if r - q >= 1 { MulMonotone(d, 1, r - q); }
    if r - q <= -1 { MulMonotone(d, r - q, -1); }
  }

  lemma NegatedMultiple(n: int, d: int)
    requires d > 0 && n % d == 0
    ensures (-n) % d == 0
  {
    DivMod(n, d);
    var q := n / d;
    assert -n == (-q) * d by {
      assert (-q) * d == -(d * q);
    }
    MultipleHasNoRest(-q, d);
  }

  lemma NegatedRest(n: int, d: int)
    requires d > 0
    ensures n % d == 0 <==> Abs(n) % d == 0
  {
    if n < 0 {
      if n % d == 0 { NegatedMultiple(n, d); }
      if (-n) % d == 0 { NegatedMultiple(-n, d); }
    }
  }

  lemma {:induction false} ExcessBounds(m: nat)
    requires m >= LIMIT
    ensures Excess(m) >= 1
    ensures m >= Pow10(19 + Excess(m))
  {
    LimitPositive();
    assert LIMIT == 10 * Pow10(19);
    if m / 10 >= LIMIT {
      ExcessBounds(m / 10);
      assert m >= 10 * (m / 10);
      assert Pow10(19 + Excess(m)) == 10 * Pow10(19 + Excess(m / 10));
    } else {
      assert Excess(m) == 1 + Excess(m / 10) == 1;
      assert Pow10(20) == LIMIT;
    }
  }

  lemma HalfUpError(m: nat, unit: int, scale: int)
    requires unit > 0 && scale > 0 && m >= scale * unit
    ensures 2 * scale * Abs(HalfUp(m, unit) * unit - m) <= m
  {
    var r := HalfUp(m, unit);
    hide HalfUp;
    assert r * unit == unit * r;
    ScaledError(scale, unit, Abs(m - unit * r), m);
  }

  lemma NoExcess(m: nat)
    requires m < LIMIT
    ensures HalfUp(m, Pow10(Excess(m))) * Pow10(Excess(m)) == m
  {
    SmallIsRepresentable(m);
    assert Sig20(m) == m;
  }

  /** Rounding a magnitude to twenty digits moves it by at most one part in 2*10^19. */
  lemma RoundedMagnitudeError(m: nat)
    ensures 2 * Pow10(19) * Abs(HalfUp(m, Pow10(Excess(m))) * Pow10(Excess(m)) - m) <= m
  {
    hide HalfUp, Excess, Pow10;
    if m < LIMIT {
      NoExcess(m);
    } else {
      ExcessBounds(m);
      Pow10Add(19, Excess(m));
      HalfUpError(m, Pow10(Excess(m)), Pow10(19));
    }
  }

  lemma ScaledError(scale: int, unit: int, err: int, m: int)
    requires scale > 0 && 2 * err <= unit && scale * unit <= m
    ensures 2 * scale * err <= m
  {
    MulMonotone(scale, 2 * err, unit);
    assert 2 * scale * err == scale * (2 * err);
  }

  /** One operation is off by at most one part in 2*10^19 of its exact result. */
  lemma Sig20Error(n: int)
    ensures 2 * Pow10(19) * Abs(Sig20(n) - n) <= Abs(n)
  {
    hide HalfUp, Pow10, Excess;
    RoundedMagnitudeError(Abs(n));
  }

  lemma Sig20Sign(n: int)
    ensures n >= 0 ==> Sig20(n) >= 0
    ensures n > 0 ==> Sig20(n) > 0
    ensures n <= 0 ==> Sig20(n) <= 0
  {
    Sig20Error(n);
    LimitPositive();
    assert LIMIT == 10 * Pow10(19);
    var e := Abs(Sig20(n) - n);
    assert Pow10(19) == 10_000_000_000_000_000_000;
    assert 2 * e <= Abs(n);
  }

  lemma PowAtMost(k: nat, m: nat)
    requires k <= m
    ensures Pow10(k) <= Pow10(m)
  {
    hide Pow10;
    Pow10Add(k, m - k);
    MulMonotone(Pow10(k), 1, Pow10(m - k));
  }

  lemma LargeStaysLarge(n: nat)
    requires n >= LIMIT
    ensures Sig20(n) > Pow10(19)
  {
    Sig20Error(n);
    LimitPositive();
    hide Sig20;
    var e := Abs(Sig20(n) - n);
    assert Pow10(19) == 10_000_000_000_000_000_000;
    assert 2 * e <= n;
  }

  /** Rounding to twenty digits does not carry a quantity across a small power of ten. */
  lemma Sig20Threshold(n: nat, k: nat)
    requires k <= 19
    ensures 2 * Sig20(n) <= Pow10(k) <==> 2 * n <= Pow10(k)
  {
    hide Sig20, Pow10;
    PowAtMost(k, 19);
    if n < LIMIT {
      SmallIsRepresentable(n);
    } else {
      LargeStaysLarge(n);
      PowAtMost(19, PRECISION);
    }
  }

  /** `t` is the value with twenty significant digits nearest to `x`, halves away from zero. */
  predicate Nearest20(x: int, t: int) {
    var unit := Pow10(Excess(Abs(x)));
    && t % unit == 0
    && (2 * Abs(t - x) < unit || (2 * Abs(t - x) == unit && if x < 0 then t < x else t > x))
  }

  lemma HalfUpIs(m: nat, d: int, t: int)
    requires d > 0
    ensures HalfUp(m, d) * d == t <==> t % d == 0 && (2 * Abs(t - m) < d || (2 * Abs(t - m) == d && t > m))
  {
    DivMod(m, d);
    DivMod(t, d);
    var r := HalfUp(m, d);
    MultipleHasNoRest(r, d);
    var q := m / d;
    assert d * (q + 1) == d * q + d;
    assert r * d == d * r;
    if t % d == 0 {
      var n := t / d;
      assert t == d * n;
      if n >= q + 2 { MulMonotone(d, q + 2, n); assert d * (q + 2) == d * q + 2 * d; }
      if n <= q - 1 { MulMonotone(d, n, q - 1); assert d * (q - 1) == d * q - d; }
    }
  }

  /** Rounding gives the nearest value and nothing else. */
  lemma Sig20Nearest(x: int, t: int)
    ensures Sig20(x) == t <==> Nearest20(x, t)
  {
    var unit := Pow10(Excess(Abs(x)));
    HalfUpIs(Abs(x), unit, if x < 0 then -t else t);
    NegatedRest(t, unit);
    NegatedRest(-t, unit);
  }

  lemma {:induction false} ExcessAtMost(m: nat, k: nat)
    requires m < Pow10(20 + k)
    ensures Excess(m) <= k
  {
    LimitPositive();
    if m >= LIMIT {
      assert k > 0;
      assert Pow10(20 + k) == 10 * Pow10(20 + (k - 1));
      ExcessAtMost(m / 10, k - 1);
    }
  }

  lemma {:induction false} ExcessEnough(m: nat)
    ensures m < Pow10(20 + Excess(m))
  {
    LimitPositive();
    if m >= LIMIT {
      ExcessEnough(m / 10);
      assert Pow10(20 + Excess(m)) == 10 * Pow10(20 + Excess(m / 10));
      DivMod(m, 10);
    }
  }

  lemma FactorDivides(n: int, a: int, b: int)
    requires a > 0 && b > 0 && a * b > 0 && n % (a * b) == 0
    ensures n % b == 0
  {
    DivMod(n, a * b);
    var q := n / (a * b);
    assert n == (a * b) * q == (q * a) * b;
    MultipleHasNoRest(q * a, b);
  }

  lemma PowDivides(n: int, k: nat, j: nat)
    requires j <= k && n % Pow10(k) == 0
    ensures n % Pow10(j) == 0
  {
    Pow10Add(k - j, j);
    FactorDivides(n, Pow10(k - j), Pow10(j));
  }

  lemma HalfUpAtMost(m: nat, d: int, bound: nat)
    requires d > 0 && m < bound * d
    ensures HalfUp(m, d) <= bound && HalfUp(m, d) * d <= bound * d
  {
    var r := HalfUp(m, d);
    assert d * (bound + 1) == bound * d + d;
    if r > bound {
      MulMonotone(d, bound + 1, r);
    }
    MulMonotone(d, r, bound);
  }

  /** A multiple of a power of ten, up to one more digit, has all its digits beyond twenty zero. */
  lemma RoundIsRepresentable(v: nat, k: nat)
    requires v % Pow10(k) == 0 && v <= Pow10(20 + k)
    ensures v % Pow10(Excess(v)) == 0
  {
    hide Excess;
    assert Pow10(20 + (k + 1)) == 10 * Pow10(20 + k);
    if v == Pow10(20 + k) {
      ExcessAtMost(v, k + 1);
      MultipleHasNoRest(1, v);
      PowDivides(v, 20 + k, Excess(v));
    } else {
      ExcessAtMost(v, k);
      PowDivides(v, k, Excess(v));
    }
  }

  lemma RoundedMagnitude(m: nat)
    ensures var v := HalfUp(m, Pow10(Excess(m))) * Pow10(Excess(m)); v >= 0 && v % Pow10(Excess(v)) == 0
  {
    hide Excess, HalfUp;
    var k := Excess(m);
    ExcessEnough(m);
    Pow10Add(20, k);
    HalfUpAtMost(m, Pow10(k), LIMIT);
    MulMonotone(Pow10(k), 0, HalfUp(m, Pow10(k)));
    MultipleHasNoRest(HalfUp(m, Pow10(k)), Pow10(k));
    RoundIsRepresentable(HalfUp(m, Pow10(k)) * Pow10(k), k);
  }

  /** What has been rounded to twenty digits stays as it is. */
  lemma Sig20Idempotent(n: int)
    ensures Sig20(Sig20(n)) == Sig20(n)
  {
    RoundedMagnitude(Abs(n));
    var v := HalfUp(Abs(n), Pow10(Excess(Abs(n)))) * Pow10(Excess(Abs(n)));
    Sig20Sign(n);
    assert Abs(Sig20(n)) == v;
    NegatedRest(Sig20(n), Pow10(Excess(v)));
    Sig20ExactIff(Sig20(n));
  }

  /** A decimal.js addition. */
  function Plus(a: int, b: int): (r: int) {
    Sig20(a + b)
  }

  lemma PlusExact(a: int, b: int)
    requires Abs(a + b) < LIMIT
    ensures Plus(a, b) == a + b
  {
    SmallIsRepresentable(a + b);
  }

  // ---------------------------------------------------------------- decimal places

  /** The places left when trailing zeros of the fraction are dropped, which is what decimal.js counts. */
  function DecimalPlaces(coefficient: int, places: nat): (p: nat)
    ensures p <= places
    decreases places
  {
    if places > 0 && coefficient % 10 == 0 then DecimalPlaces(coefficient / 10, places - 1) else places
  }

  /** The amount in units of 10^-8 (exact for numerals of at most eight places). */
  function Units(n: Numeral): int
    requires n.Finite?
  {
    if n.places <= MAX_PLACES
    then n.coefficient * Pow10(MAX_PLACES - n.places)
    else n.coefficient / Pow10(n.places - MAX_PLACES)
  }

  function Fixed8(units: int): (n: Numeral)
    ensures n.Finite? && Units(n) == units
  {
    Finite(units, 8)
  }

  /** At most `p` places are needed exactly when the excess digits divide out of the coefficient. */
  lemma {:induction false} DecimalPlacesAtMost(c: int, places: nat, p: nat)
    requires p <= places
    ensures DecimalPlaces(c, places) <= p <==> c % Pow10(places - p) == 0
    decreases places - p
  {
    if p == places {
    } else {
      var d := Pow10(places - p - 1);
      assert Pow10(places - p) == 10 * d;
      DivMod(c, 10 * d);
      if c % 10 == 0 {
        var t := c / 10;
        assert c == 10 * t;
        DecimalPlacesAtMost(t, places - 1, p);
        ScaledRest(t, d);
      } else {
        if c % (10 * d) == 0 {
          RestOfMultiple(c, d);
          assert false;
        }
      }
    }
  }

  lemma RestOfMultiple(c: int, d: int)
    requires d > 0 && c % (10 * d) == 0
    ensures c % 10 == 0
  {
    DivMod(c, 10 * d);
    var q := c / (10 * d);
    assert c == 10 * (d * q) by {
      assert (10 * d) * q == 10 * (d * q);
    }
  }

  lemma ScaledRest(t: int, d: int)
    requires d > 0
    ensures (10 * t) % (10 * d) == 0 <==> t % d == 0
  {
    DivMod(t, d);
    DivMod(10 * t, 10 * d);
    if t % d == 0 {
      var q := t / d;
      assert 10 * t == q * (10 * d) by { assert q * (10 * d) == 10 * (d * q); }
      MultipleHasNoRest(q, 10 * d);
    }
    if (10 * t) % (10 * d) == 0 {
      var q := (10 * t) / (10 * d);
      assert 10 * t == 10 * (d * q) by { assert (10 * d) * q == 10 * (d * q); }
      assert t == q * d by { assert d * q == q * d; }
      MultipleHasNoRest(q, d);
    }
  }

  // ---------------------------------------------------------------- rounding to a currency's places

  /** An amount in units of 10^-8 rounded half-even to a currency's places. */
  function RoundTo(units: int, decimals: nat): (r: int)
    requires decimals <= MAX_PLACES
  {
    var step := Pow10(MAX_PLACES - decimals);
    HalfEven(units, step) * step
  }

  /** `r` is the nearest multiple of the last of `decimals` places, ties to the even one. */
  ghost predicate HalfEvenTo(units: int, decimals: nat, r: int)
    requires decimals <= MAX_PLACES
  {
    var step := Pow10(MAX_PLACES - decimals);
    r % step == 0 && IsHalfEven(units, step, r / step)
  }

  /** `RoundTo` is that and nothing else is. */
  lemma RoundToIff(units: int, decimals: nat, r: int)
    requires decimals <= MAX_PLACES
    ensures r == RoundTo(units, decimals) <==> HalfEvenTo(units, decimals, r)
  {
    hide HalfEven, Pow10, IsHalfEven;
    var step := Pow10(MAX_PLACES - decimals);
    MultipleHasNoRest(HalfEven(units, step), step);
    HalfEvenIff(units, step, HalfEven(units, step));
    HalfEvenIff(units, step, r / step);
    DivMod(r, step);
  }

  lemma RoundToSign(units: nat, decimals: nat)
    requires decimals <= MAX_PLACES
    ensures RoundTo(units, decimals) >= 0
  {
    hide HalfEven, Pow10;
    HalfEvenSign(units, Pow10(MAX_PLACES - decimals));
    MulMonotone(Pow10(MAX_PLACES - decimals), 0, HalfEven(units, Pow10(MAX_PLACES - decimals)));
  }

  /** The same on a value in units of 10^-(8+extra), giving units of 10^-8. */
  function RoundProduct(value: int, extra: nat, decimals: nat): (r: int)
    requires decimals <= MAX_PLACES
  {
    HalfEven(value, Pow10(extra + (MAX_PLACES - decimals))) * Pow10(MAX_PLACES - decimals)
  }

  /** Rounding twice to the same places is rounding once. */
  lemma RoundToIdempotent(units: int, decimals: nat)
    requires decimals <= MAX_PLACES
    ensures RoundTo(RoundTo(units, decimals), decimals) == RoundTo(units, decimals)
  {
    var step := Pow10(MAX_PLACES - decimals);
    HalfEvenExact(HalfEven(units, step), step);
  }
}
