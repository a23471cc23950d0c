/** Pair strings and order arithmetic: `pair.util.ts` and `order-math.util.ts`. */
module Trading {
  import opened Wrappers
  import opened Decimals
  import opened Ledger

  datatype Side = Buy | Sell

  /** A rate as the rates service returns it, `coefficient / 10^places`. */
  datatype Rate = Rate(coefficient: nat, places: nat)

  // ---------------------------------------------------------------- pairs

  function UpperChar(c: char): (u: char)
    ensures u == '/' <==> c == '/'
  {
    if 'a' <= c <= 'z' then 'A' + (c - 'a') else c
  }

  /** `toUpperCase` on the ASCII letters a currency code is made of. */
  function Upper(s: string): (u: string)
    ensures |u| == |s|
    ensures forall i :: 0 <= i < |s| ==> u[i] == UpperChar(s[i])
  {
    if s == [] then [] else [UpperChar(s[0])] + Upper(s[1..])
  }

  /** The parts of a string between its slashes. */
  function Split(s: string): (parts: seq<string>)
    ensures parts != []
  {
    if s == [] then [""]
    else
      var rest := Split(s[1..]);
      if s[0] == '/' then [""] + rest else [[s[0]] + rest[0]] + rest[1..]
  }

  /** `splitPair`: base and quote codes, or `None` for the exception. */
  function SplitPair(pair: string): Option<(Code, Code)> {
    var parts := Split(pair);
    if |parts| != 2 then None else Some((Upper(parts[0]), Upper(parts[1])))
  }

  function JoinPair(base: Code, quote: Code): string {
    base + "/" + quote
  }

  lemma {:induction false} SplitPlain(s: string)
    requires '/' !in s
    ensures Split(s) == [s]
  {
    if s != [] {
      assert s[0] in s;
      assert forall c :: c in s[1..] ==> c in s;
      SplitPlain(s[1..]);
      assert s == [s[0]] + s[1..];
    }
  }

  lemma {:induction false} SplitJoined(base: string, quote: string)
    requires '/' !in base && '/' !in quote
    ensures Split(JoinPair(base, quote)) == [base, quote]
  {
    var s := JoinPair(base, quote);
    if base == [] {
      assert s[1..] == quote;
      SplitPlain(quote);
    } else {
      assert base[0] in base;
      assert forall c :: c in base[1..] ==> c in base;
      SplitJoined(base[1..], quote);
      assert s[1..] == JoinPair(base[1..], quote);
      assert [base[0]] + base[1..] == base;
    }
  }

  lemma {:induction false} SplitPartsPlain(s: string)
    ensures forall i :: 0 <= i < |Split(s)| ==> '/' !in Split(s)[i]
  {
    if s != [] {
      SplitPartsPlain(s[1..]);
      var rest := Split(s[1..]);
      if s[0] == '/' {
        assert forall i :: 1 <= i < |Split(s)| ==> Split(s)[i] == rest[i - 1];
      } else {
        assert Split(s)[0] == [s[0]] + rest[0];
        assert forall i :: 1 <= i < |Split(s)| ==> Split(s)[i] == rest[i];
      }
    }
  }

  lemma JoinLonger(c: char, base: Code, quote: Code)
    ensures JoinPair([c] + base, quote) == [c] + JoinPair(base, quote)
    ensures JoinPair("", quote) == ['/'] + quote
  {
  }

  lemma {:induction false} SplitRejoins(s: string)
    ensures |Split(s)| == 1 ==> Split(s)[0] == s
    ensures |Split(s)| == 2 ==> s == JoinPair(Split(s)[0], Split(s)[1])
  {
    hide JoinPair;
    if s != [] {
      SplitRejoins(s[1..]);
      assert s == [s[0]] + s[1..];
      var rest := Split(s[1..]);
      if |Split(s)| == 2 && s[0] == '/' {
        assert rest == [s[1..]];
        JoinLonger(s[0], "", s[1..]);
      } else if |Split(s)| == 2 {
        assert Split(s)[0] == [s[0]] + rest[0] && Split(s)[1] == rest[1];
        JoinLonger(s[0], rest[0], rest[1]);
      }
    }
  }

  lemma UpperIdempotent(s: string)
    ensures Upper(Upper(s)) == Upper(s)
  {
  }

  lemma UpperKeepsSlash(s: string)
    ensures '/' in Upper(s) <==> '/' in s
  {
    if '/' in s {
      var i :| 0 <= i < |s| && s[i] == '/';
      assert Upper(s)[i] == '/';
    }
  }

  /** A currency code as `getCurrency` returns it: upper case, no separator. */
  predicate IsCode(c: Code) {
    Upper(c) == c && '/' !in c
  }

  /** A pair splits exactly when it has one separator, and then into codes. */
  lemma SplitPairIff(pair: string)
    ensures SplitPair(pair).Some? <==> exists b, q :: '/' !in b && '/' !in q && pair == JoinPair(b, q)
    ensures SplitPair(pair).Some? ==> IsCode(SplitPair(pair).value.0) && IsCode(SplitPair(pair).value.1)
  {
    SplitPartsPlain(pair);
    SplitRejoins(pair);
    if exists b, q :: '/' !in b && '/' !in q && pair == JoinPair(b, q) {
      var b, q :| '/' !in b && '/' !in q && pair == JoinPair(b, q);
      SplitJoined(b, q);
    }
    if SplitPair(pair).Some? {
      var parts := Split(pair);
      UpperIdempotent(parts[0]);
      UpperIdempotent(parts[1]);
      UpperKeepsSlash(parts[0]);
      UpperKeepsSlash(parts[1]);
      assert pair == JoinPair(parts[0], parts[1]);
    }
  }

  /** The stored pair string gives back the codes it was made from. */
  lemma SplitUndoesJoin(base: Code, quote: Code)
    requires IsCode(base) && IsCode(quote)
    ensures SplitPair(JoinPair(base, quote)) == Some((base, quote))
  {
    SplitJoined(base, quote);
  }

  // ---------------------------------------------------------------- order arithmetic

  function HoldCurrency(side: Side, base: Code, quote: Code): Code {
    if side == Buy then quote else base
  }

  /** `quantity * limitPrice`, rounded half-even to the quote currency's places. */
  function QuoteAmount(quantity: int, limitPrice: int, quoteDecimals: nat): int
    requires quoteDecimals <= MAX_PLACES
  {
    RoundProduct(Sig20(quantity * limitPrice), MAX_PLACES, quoteDecimals)
  }

  function HoldAmount(side: Side, quantity: int, limitPrice: int, baseDecimals: nat, quoteDecimals: nat): int
    requires baseDecimals <= MAX_PLACES && quoteDecimals <= MAX_PLACES
  {
    if side == Buy then QuoteAmount(quantity, limitPrice, quoteDecimals) else RoundTo(quantity, baseDecimals)
  }

  /** `quantity * rate`, as a market order prices it. */
  function MarketAmount(quantity: int, rate: Rate, quoteDecimals: nat): int
    requires quoteDecimals <= MAX_PLACES
  {
    RoundProduct(Sig20(quantity * rate.coefficient), rate.places, quoteDecimals)
  }

  /** The rate as an order row stores it: to the quote currency's places, halves up. */
  function FixedRate(rate: Rate, decimals: nat): int
    requires decimals <= MAX_PLACES
  {
    MulMonotone(rate.coefficient, 0, Pow10(decimals));
    HalfUp(rate.coefficient * Pow10(decimals), Pow10(rate.places)) * Pow10(MAX_PLACES - decimals)
  }

  /** The limit is crossed: the market is at or better than the limit for the order's side. */
  predicate Crossed(side: Side, rate: Rate, limitPrice: int) {
    if side == Buy
    then rate.coefficient * Pow10(MAX_PLACES) <= limitPrice * Pow10(rate.places)
    else rate.coefficient * Pow10(MAX_PLACES) >= limitPrice * Pow10(rate.places)
  }

  /** An amount that has already been rounded to a currency's places. */
  predicate Rounded(units: int, decimals: nat)
    requires decimals <= MAX_PLACES
  {
    RoundTo(units, decimals) == units
  }

  /** The hold of a SELL is its quantity; of a BUY, what the fill will spend -- for stored rows. */
  lemma HoldIsFillAmount(side: Side, quantity: int, limitPrice: int, bd: nat, qd: nat)
    requires bd <= MAX_PLACES && qd <= MAX_PLACES && Rounded(quantity, bd)
    ensures HoldAmount(side, quantity, limitPrice, bd, qd) ==
            if side == Buy then QuoteAmount(quantity, limitPrice, qd) else quantity
  {
  }

  /** A quantity at a price is worth zero exactly when their exact product is at most half a unit of the quote currency. */
  lemma QuoteAmountSign(quantity: int, limitPrice: int, qd: nat)
    requires qd <= MAX_PLACES && quantity >= 0 && limitPrice >= 0
    ensures QuoteAmount(quantity, limitPrice, qd) >= 0
    ensures QuoteAmount(quantity, limitPrice, qd) == 0 <==>
            2 * (quantity * limitPrice) <= Pow10(MAX_PLACES + (MAX_PLACES - qd))
  {
    MulMonotone(quantity, 0, limitPrice);
    var n := Sig20(quantity * limitPrice);
    Sig20Sign(quantity * limitPrice);
    Sig20Threshold(quantity * limitPrice, MAX_PLACES + (MAX_PLACES - qd));
    var d := Pow10(MAX_PLACES + (MAX_PLACES - qd));
    HalfEvenSign(n, d);
    HalfEvenZeroIff(n, d);
    var step := Pow10(MAX_PLACES - qd);
    MulMonotone(HalfEven(n, d), 0, step);
    if HalfEven(n, d) > 0 {
      MulMonotone(HalfEven(n, d), 1, step);
    }
  }
}
