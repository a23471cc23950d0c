/**
 When the entries that operations plan are posted, and the balances they leave, at any magnitude: every sum,
 delta and balance is the rounded one the program computes.
 */
module PostingLaws {
  import opened Wrappers
  import opened Decimals
  import opened Ledger
  import opened LedgerLaws
  import opened Trading
  import opened System
  import opened Invariant
  import opened Effects
  import opened Preservation
  import opened Runs

  // ---------------------------------------------------------------- what the validator says of legs

  /** A currency's debits or credits, added up leg by leg with rounding. */
  function LegTotal20(legs: seq<Leg>, c: Code, d: Direction): int {
    if legs == [] then 0
    else
      var l, before := Last(legs), LegTotal20(Init(legs), c, d);
      if l.key.currency == c && l.direction == d then Plus(before, l.units) else before
  }

  lemma {:induction false} Bucket20OfLegs(index: map<AccountKey, int>, legs: seq<Leg>, c: Code, d: Direction)
    requires LegsKnown(index, legs)
    ensures Bucket20(LinesOf(index, legs), c, d) == LegTotal20(legs, c, d)
  {
    hide Plus;
    if legs != [] {
      var lines := LinesOf(index, legs);
      assert forall leg :: leg in Init(legs) ==> leg in legs;
      Bucket20OfLegs(index, Init(legs), c, d);
      assert Init(lines) == LinesOf(index, Init(legs));
    }
  }

  lemma LegTotal20Snoc(legs: seq<Leg>, leg: Leg, c: Code, d: Direction)
    ensures LegTotal20(legs + [leg], c, d) ==
            if leg.key.currency == c && leg.direction == d then Plus(LegTotal20(legs, c, d), leg.units)
            else LegTotal20(legs, c, d)
  {
    assert Init(legs + [leg]) == legs;
  }

  /** The program's totals agree in every currency. */
  ghost predicate Even20(legs: seq<Leg>) {
    forall c :: LegTotal20(legs, c, Debit) == LegTotal20(legs, c, Credit)
  }

  ghost predicate PositiveLegsOnly(legs: seq<Leg>) {
    forall i :: 0 <= i < |legs| ==> legs[i].units > 0
  }

  lemma GoodLegs(index: map<AccountKey, int>, legs: seq<Leg>)
    requires LegsKnown(index, legs)
    ensures AllGood(LinesOf(index, legs)) <==> PositiveLegsOnly(legs)
  {
    var lines := LinesOf(index, legs);
    forall i | 0 <= i < |legs| ensures GoodAmount(lines[i].amount) <==> legs[i].units > 0 {
      GoodAmountIff(lines[i].amount);
    }
  }

  lemma {:induction false} ForeignLegs(legs: seq<Leg>, c: Code, d: Direction)
    requires forall leg :: leg in legs ==> leg.key.currency != c
    ensures LegTotal20(legs, c, d) == 0
  {
    if legs != [] {
      assert Last(legs) in legs && forall leg :: leg in Init(legs) ==> leg in legs;
      ForeignLegs(Init(legs), c, d);
    }
  }

  /** The validator accepts exactly two or more positive legs whose rounded totals agree. */
  lemma ValidLegsIff(index: map<AccountKey, int>, legs: seq<Leg>)
    requires LegsKnown(index, legs)
    ensures Validate(LinesOf(index, legs)).None? <==> |legs| >= 2 && PositiveLegsOnly(legs) && Even20(legs)
  {
    hide Bucket20, LegTotal20, GoodAmount, Fixed8, LinesOf, PositiveLegsOnly, Currencies, FirstUnbalanced, FirstBadAmount;
    var lines := LinesOf(index, legs);
    var cs := Currencies(lines);
    GoodLegs(index, legs);
    assert AllGood(lines) <==> FirstBadAmount(lines).None?;
    forall c, d ensures Bucket20(lines, c, d) == LegTotal20(legs, c, d) {
      Bucket20OfLegs(index, legs, c, d);
    }
    forall c | c !in cs ensures LegTotal20(legs, c, Debit) == LegTotal20(legs, c, Credit) {
      NotAmong(index, legs, c);
      ForeignLegs(legs, c, Debit);
      ForeignLegs(legs, c, Credit);
    }
    assert FirstUnbalanced(lines, cs).None? <==> Even20(legs);
  }

  lemma NotAmong(index: map<AccountKey, int>, legs: seq<Leg>, c: Code)
    requires LegsKnown(index, legs) && c !in Currencies(LinesOf(index, legs))
    ensures forall leg :: leg in legs ==> leg.key.currency != c
  {
    forall leg | leg in legs ensures leg.key.currency != c {
      var i :| 0 <= i < |legs| && legs[i] == leg;
      assert LinesOf(index, legs)[i].currency == leg.key.currency;
    }
  }

  lemma MoveTotals20(from: AccountKey, to: AccountKey, units: int, c: Code, d: Direction)
    requires from.currency == to.currency
    ensures LegTotal20(Move(from, to, units), c, d) == If(from.currency == c, Plus(0, units))
  {
    hide Plus;
    var l1, l2 := Leg(from, Debit, units), Leg(to, Credit, units);
    LegTotal20Snoc([], l1, c, d);
    LegTotal20Snoc([l1], l2, c, d);
    assert [] + [l1] == [l1] && Move(from, to, units) == [l1] + [l2];
  }

  lemma MoveEven20(from: AccountKey, to: AccountKey, units: int)
    requires from.currency == to.currency
    ensures Even20(Move(from, to, units))
  {
    hide Plus, LegTotal20, Move;
    forall c, d ensures LegTotal20(Move(from, to, units), c, d) == If(from.currency == c, Plus(0, units)) {
      MoveTotals20(from, to, units, c, d);
    }
  }

  /** Either side of a swap comes to this, also where both currencies are the same. */
  function SwapTotal20(source: AccountKey, fromUnits: int, to: Code, toUnits: int, c: Code): int {
    var before := If(source.currency == c, Plus(0, fromUnits));
    if to == c then Plus(before, toUnits) else before
  }

  lemma SwapTotals20(source: AccountKey, fromUnits: int, user: UserId, to: Code, toUnits: int, c: Code, d: Direction)
    ensures LegTotal20(Swap(source, fromUnits, user, to, toUnits), c, d) == SwapTotal20(source, fromUnits, to, toUnits, c)
  {
    hide Plus;
    var l1, l2 := Leg(source, Debit, fromUnits), Leg(Pool(source.currency, Treasury), Credit, fromUnits);
    var l3, l4 := Leg(Pool(to, Treasury), Debit, toUnits), Leg(Wallet(user, to), Credit, toUnits);
    LegTotal20Snoc([], l1, c, d);
    LegTotal20Snoc([l1], l2, c, d);
    LegTotal20Snoc([l1] + [l2], l3, c, d);
    LegTotal20Snoc([l1] + [l2] + [l3], l4, c, d);
    assert [] + [l1] == [l1] && Swap(source, fromUnits, user, to, toUnits) == [l1] + [l2] + [l3] + [l4];
  }

  lemma SwapEven20(source: AccountKey, fromUnits: int, user: UserId, to: Code, toUnits: int)
    ensures Even20(Swap(source, fromUnits, user, to, toUnits))
  {
    hide SwapTotal20, LegTotal20, Swap;
    forall c, d
      ensures LegTotal20(Swap(source, fromUnits, user, to, toUnits), c, d) ==
              SwapTotal20(source, fromUnits, to, toUnits, c)
    {
      SwapTotals20(source, fromUnits, user, to, toUnits, c, d);
    }
  }

  /** Amount and fee come to the same whether the amount is rounded on its own first or not. */
  predicate AddsUp(amount: nat, fee: nat) {
    Plus(Sig20(amount), fee) == Plus(amount, fee)
  }

  lemma TransferTotals20(cfg: Config, sender: UserId, recipient: UserId, c: Code, amount: nat, code: Code, d: Direction)
    ensures LegTotal20(TransferLegs(cfg, sender, recipient, c, amount), code, d) ==
            If(code == c, if d == Debit then Plus(amount, cfg.feeFlat)
                          else if cfg.feeFlat > 0 then Plus(Sig20(amount), cfg.feeFlat) else Sig20(amount))
  {
    hide Sig20;
    var l1, l2 := Leg(Wallet(sender, c), Debit, Plus(amount, cfg.feeFlat)), Leg(Wallet(recipient, c), Credit, amount);
    var l3 := Leg(Pool(c, Fees), Credit, cfg.feeFlat);
    LegTotal20Snoc([], l1, code, d);
    LegTotal20Snoc([l1], l2, code, d);
    LegTotal20Snoc([l1] + [l2], l3, code, d);
    Sig20Idempotent(amount + cfg.feeFlat);
    assert [] + [l1] == [l1];
    assert [l1] + [l2] + [] == [l1] + [l2] == [l1, l2];
    assert TransferLegs(cfg, sender, recipient, c, amount) == [l1] + [l2] + if cfg.feeFlat > 0 then [l3] else [];
  }

  lemma TransferEven20Iff(cfg: Config, sender: UserId, recipient: UserId, c: Code, amount: nat)
    ensures Even20(TransferLegs(cfg, sender, recipient, c, amount)) <==> AddsUp(amount, cfg.feeFlat)
  {
    hide Sig20, TransferLegs;
    var legs := TransferLegs(cfg, sender, recipient, c, amount);
    forall code, d
      ensures LegTotal20(legs, code, d) ==
              If(code == c, if d == Debit then Plus(amount, cfg.feeFlat)
                            else if cfg.feeFlat > 0 then Plus(Sig20(amount), cfg.feeFlat) else Sig20(amount))
    {
      TransferTotals20(cfg, sender, recipient, c, amount, code, d);
    }
    Sig20Idempotent(amount);
    assert LegTotal20(legs, c, Debit) == Plus(amount, cfg.feeFlat);
  }

  // ---------------------------------------------------------------- legs on accounts of their own

  predicate Apart(legs: seq<Leg>) {
    forall i, j :: 0 <= i < j < |legs| ==> legs[i].key != legs[j].key
  }

  lemma SwapApart(source: AccountKey, fromUnits: int, user: UserId, to: Code, toUnits: int)
    requires source.currency != to && source.kind != Treasury
    ensures Apart(Swap(source, fromUnits, user, to, toUnits))
  {
  }

  lemma TransferApart(cfg: Config, sender: UserId, recipient: UserId, c: Code, amount: nat)
    requires sender != recipient
    ensures Apart(TransferLegs(cfg, sender, recipient, c, amount))
  {
    hide Plus;
  }

  /** No operation has two legs on one account. */
  lemma PlannedLegsApart(cfg: Config, db: Db, op: Op)
    requires ConfigOk(cfg) && (forall i :: 0 <= i < |db.orders| ==> PairOk(cfg, db.orders[i]))
    requires Plan(cfg, op, RowOf(db, op)).Go?
    ensures Apart(Plan(cfg, op, RowOf(db, op)).draft.legs)
  {
    match op
    case Transfer(sender, recipient, code, amount) =>
      PlannedTransfer(cfg, op, RowOf(db, op));
      TransferApart(cfg, sender, recipient.value, GetCurrency(cfg, code).value, amount);
    case Convert(user, from, to, amount, rate) => ConvertApart(cfg, user, from, to, amount, rate);
    case MarketOrder(user, pair, side, quantity, rate, at) => MarketApart(cfg, user, pair, side, quantity, rate, at);
    case TryFill(id, rate, at) => FillApart(cfg, db, id, rate, at);
    case _ =>
  }

  lemma ConvertApart(cfg: Config, user: UserId, from: Code, to: Code, amount: nat, rate: Option<Rate>)
    requires ConfigOk(cfg) && PlanConvert(cfg, user, from, to, amount, rate).Go?
    ensures Apart(PlanConvert(cfg, user, from, to, amount, rate).draft.legs)
  {
    hide RoundTo, ConvertedAmount;
  }

  lemma MarketApart(cfg: Config, user: UserId, pair: string, side: Side, quantity: nat, rate: Option<Rate>, at: int)
    requires ConfigOk(cfg) && PlanMarket(cfg, user, pair, side, quantity, rate, at).Go?
    ensures Apart(PlanMarket(cfg, user, pair, side, quantity, rate, at).draft.legs)
  {
    hide RoundTo, MarketAmount, FixedRate;
  }

  lemma FillApart(cfg: Config, db: Db, id: nat, rate: Option<Rate>, at: int)
    requires ConfigOk(cfg) && (id < |db.orders| ==> PairOk(cfg, db.orders[id]))
    requires Plan(cfg, TryFill(id, rate, at), RowOf(db, TryFill(id, rate, at))).Go?
    ensures Apart(Plan(cfg, TryFill(id, rate, at), RowOf(db, TryFill(id, rate, at))).draft.legs)
  {
    hide PlanFill, PairOk;
    FillPlanned(cfg, id, rate, at, RowOf(db, TryFill(id, rate, at)));
    FillFits(cfg, db, id, rate, at);
    FillLegsApart(cfg, db.orders[id]);
  }

  lemma FillPlanned(cfg: Config, id: nat, rate: Option<Rate>, at: int, row: Row)
    requires ConfigOk(cfg) && PlanFill(cfg, id, rate, at, row).Go?
    ensures row.OrderRow? && row.order.limitPrice.Some?
    ensures PlanFill(cfg, id, rate, at, row).draft.change.MarkFilled? && PlanFill(cfg, id, rate, at, row).draft.change.id == id
  {
    hide SplitPair, HoldAmount, QuoteAmount, Crossed, GetCurrency;
  }

  lemma FillLegsApart(cfg: Config, o: Order)
    requires ConfigOk(cfg) && PairOk(cfg, o) && o.limitPrice.Some?
    ensures Apart(FillLegs(cfg, o))
  {
    hide QuoteAmount, Apart, Swap;
    var (b, q) := SplitPair(o.pair).value;
    var cost := QuoteAmount(o.quantity, o.limitPrice.value, cfg.decimals[q]);
    SwapApart(Pool(q, TradeHold), cost, o.user, b, o.quantity);
    SwapApart(Pool(b, TradeHold), o.quantity, o.user, q, cost);
  }

  lemma PlannedTransfer(cfg: Config, op: Op, row: Row)
    requires ConfigOk(cfg) && op.Transfer? && Plan(cfg, op, row).Go?
    ensures op.recipient.Some? && op.recipient.value != op.sender && GetCurrency(cfg, op.code).Some?
    ensures Plan(cfg, op, row).draft.legs ==
            TransferLegs(cfg, op.sender, op.recipient.value, GetCurrency(cfg, op.code).value, op.amount)
  {
  }

  lemma MoveApart(from: AccountKey, to: AccountKey, units: int)
    requires from != to
    ensures Apart(Move(from, to, units))
  {
  }

  lemma LegsFit(b: Books, legs: seq<Leg>)
    requires IndexOk(b) && LegsKnown(b.index, legs)
    ensures LinesFit(b.accounts, LinesOf(b.index, legs))
  {
    var lines := LinesOf(b.index, legs);
    forall i | 0 <= i < |lines|
      ensures lines[i].account in b.accounts && b.accounts[lines[i].account].currency == lines[i].currency
    {
      assert legs[i] in legs;
      assert b.accounts[b.index[legs[i].key]] == legs[i].key;
    }
  }

  lemma LineOfLeg(index: map<AccountKey, int>, legs: seq<Leg>, k: nat)
    requires LegsKnown(index, legs) && k < |legs|
    ensures legs[k].key in index
    ensures LinesOf(index, legs)[k].account == index[legs[k].key]
    ensures Signed(LinesOf(index, legs)[k]) == SignedLeg(legs[k])
  {
    assert legs[k] in legs;
  }

  lemma LinesApart(b: Books, legs: seq<Leg>, k: nat)
    requires IndexOk(b) && LegsKnown(b.index, legs) && Apart(legs) && k < |legs|
    ensures OnlyLine(LinesOf(b.index, legs), k)
  {
    var lines := LinesOf(b.index, legs);
    forall j | 0 <= j < |lines| && j != k ensures lines[j].account != lines[k].account {
      assert legs[j] in legs && legs[k] in legs;
      assert b.accounts[b.index[legs[j].key]] == legs[j].key && b.accounts[b.index[legs[k].key]] == legs[k].key;
    }
  }

  // ---------------------------------------------------------------- posting them

  /** The balance written for leg `k`, its account being touched by no other. */
  lemma LegBalance(b: Books, legs: seq<Leg>, k: nat, read: int)
    requires IndexOk(b) && LegsKnown(b.index, legs) && Apart(legs) && k < |legs|
    ensures NewBalance(read, LinesOf(b.index, legs), b.index[legs[k].key]) == Sig20(read + Sig20(SignedLeg(legs[k])))
  {
    hide Sig20, IndexOk, Apart, Signed, SignedLeg, LinesOf, Net;
    LineOfLeg(b.index, legs, k);
    LinesApart(b, legs, k);
    TouchedOnce(LinesOf(b.index, legs), k);
  }

  /** The balance a leg leaves on its account. */
  function LegLeaves(b: Books, leg: Leg): int {
    Sig20(BalanceAt(b, leg.key) + Sig20(SignedLeg(leg)))
  }

  /** Everything about leg `k` that posting looks at. */
  lemma LegPosted(b: Books, legs: seq<Leg>, k: nat)
    requires IndexOk(b) && LegsKnown(b.index, legs) && Apart(legs) && k < |legs|
    ensures var lines := LinesOf(b.index, legs);
            var id := lines[k].account;
            && legs[k].key in b.index && id == b.index[legs[k].key] && id in b.balances && id in b.accounts
            && b.accounts[id] == legs[k].key && id in AccountIds(lines)
            && NewBalance(b.balances[id], lines, id) == LegLeaves(b, legs[k])
  {
    hide Sig20, NewBalance, Apart, SignedLeg, LinesOf, IndexOk, BalanceAt, AccountIds, Signed;
    LineOfLeg(b.index, legs, k);
    Indexed(b, legs[k].key);
    TouchesItsAccount(LinesOf(b.index, legs), k);
    LegBalance(b, legs, k, b.balances[b.index[legs[k].key]]);
  }

  lemma Indexed(b: Books, key: AccountKey)
    requires IndexOk(b) && key in b.index
    ensures b.index[key] in b.balances && b.index[key] in b.accounts && b.accounts[b.index[key]] == key
    ensures BalanceAt(b, key) == b.balances[b.index[key]]
  {
  }

  lemma TouchesItsAccount(lines: seq<Line>, k: nat)
    requires k < |lines|
    ensures lines[k].account in AccountIds(lines)
  {
  }

  /** Settling such legs checks the balance each leaves on an owned account. */
  lemma LegsSettleIff(b: Books, legs: seq<Leg>)
    requires IndexOk(b) && LegsKnown(b.index, legs) && Apart(legs)
    ensures Settle(b.balances, b.accounts, LinesOf(b.index, legs)).Ok? <==>
            forall k :: 0 <= k < |legs| && legs[k].key.owner.Some? ==> LegLeaves(b, legs[k]) >= 0
  {
    hide IndexOk, Apart, LegLeaves, NewBalance, Settle, LinesFit, LinesOf, AccountIds;
    var lines := LinesOf(b.index, legs);
    LegsFit(b, legs);
    SameKeys(b);
    SettleOkIff(b.balances, b.accounts, lines);
    forall k | 0 <= k < |legs|
      ensures lines[k].account in AccountIds(lines) && lines[k].account in b.accounts && lines[k].account in b.balances
      ensures Overdrawn(b.balances, b.accounts, lines, lines[k].account) <==>
              legs[k].key.owner.Some? && LegLeaves(b, legs[k]) < 0
    {
      LegPosted(b, legs, k);
    }
    forall id | id in AccountIds(lines) ensures exists k :: 0 <= k < |legs| && lines[k].account == id {
      var k :| 0 <= k < |lines| && lines[k].account == id;
    }
  }

  lemma SameKeys(b: Books)
    requires IndexOk(b)
    ensures b.balances.Keys == b.accounts.Keys
  {
  }

  lemma Sig20Negated(n: int)
    ensures Sig20(-n) == -Sig20(n)
  {
  }

  /** A positive leg leaves an owned account solvent exactly when it is a credit or the account can pay. */
  lemma LegSolventIff(b: Books, leg: Leg)
    requires leg.units > 0 && BalanceAt(b, leg.key) >= 0
    ensures LegLeaves(b, leg) >= 0 <==> (leg.direction == Debit ==> BalanceAt(b, leg.key) >= Sig20(leg.units))
  {
    hide Sig20, BalanceAt;
    Sig20Negated(leg.units);
    Sig20Sign(leg.units);
    var sum := BalanceAt(b, leg.key) + Sig20(SignedLeg(leg));
    Sig20Sign(sum);
    Sig20Sign(-sum);
    Sig20Negated(sum);
  }

  /** Every owned account that is debited has the rounded amount. */
  ghost predicate CanPay(b: Books, legs: seq<Leg>) {
    forall k :: 0 <= k < |legs| && legs[k].direction == Debit && legs[k].key.owner.Some? ==>
      BalanceAt(b, legs[k].key) >= Sig20(legs[k].units)
  }

  lemma OwnedNonNegative(b: Books, key: AccountKey)
    requires IndexOk(b) && NoDebt(b) && key.owner.Some?
    ensures BalanceAt(b, key) >= 0
  {
    if key in b.index {
      var id := b.index[key];
      assert id in b.accounts && b.accounts[id] == key && id in b.balances;
    }
  }

  /** Legs on accounts of their own post exactly when they are positive, agree as the program adds them up, and can be paid. */
  lemma LegsPostIff(b: Books, kind: EntryType, ref: Ref, legs: seq<Leg>)
    requires IndexOk(b) && NoDebt(b) && LegsKnown(b.index, legs) && Apart(legs)
    ensures Post(b, kind, ref, LinesOf(b.index, legs)).Ok? <==>
            |legs| >= 2 && PositiveLegsOnly(legs) && Even20(legs) && CanPay(b, legs)
  {
    hide IndexOk, NoDebt, Apart, Even20, LegLeaves, Validate, Settle, LinesOf, Sig20, BalanceAt, LegsKnown;
    ValidLegsIff(b.index, legs);
    LegsSettleIff(b, legs);
    if PositiveLegsOnly(legs) {
      forall k | 0 <= k < |legs| && legs[k].key.owner.Some?
        ensures LegLeaves(b, legs[k]) >= 0 <==>
                (legs[k].direction == Debit ==> BalanceAt(b, legs[k].key) >= Sig20(legs[k].units))
      {
        OwnedNonNegative(b, legs[k].key);
        LegSolventIff(b, legs[k]);
      }
    }
  }

  /** ... and then each leaves its rounded balance, no other account moves, and the entry is in the journal. */
  lemma LegsPosted(b: Books, kind: EntryType, ref: Ref, legs: seq<Leg>)
    requires IndexOk(b) && LegsKnown(b.index, legs) && Apart(legs)
    requires Post(b, kind, ref, LinesOf(b.index, legs)).Ok?
    ensures var after := Post(b, kind, ref, LinesOf(b.index, legs)).value;
            && after.index == b.index
            && after.journal == b.journal + [Entry(kind, ref, LinesOf(b.index, legs))]
            && (forall k :: 0 <= k < |legs| ==> BalanceAt(after, legs[k].key) == LegLeaves(b, legs[k]))
            && (forall key :: key in b.index && (forall leg :: leg in legs ==> leg.key != key) ==>
                  BalanceAt(after, key) == BalanceAt(b, key))
  {
    hide Validate, IndexOk, Apart, LegLeaves, NewBalance, AccountIds, Record, LinesOf, Settle;
    var lines := LinesOf(b.index, legs);
    var after := Post(b, kind, ref, lines).value;
    RecordOfLegs(b.index, legs);
    forall k | 0 <= k < |legs| ensures BalanceAt(after, legs[k].key) == LegLeaves(b, legs[k]) {
      LegPosted(b, legs, k);
      SettleWrites(b, lines, b.index[legs[k].key]);
    }
    forall key | key in b.index && (forall leg :: leg in legs ==> leg.key != key)
      ensures BalanceAt(after, key) == BalanceAt(b, key)
    {
      Untouched(b, legs, key);
    }
  }

  lemma SettleWrites(b: Books, lines: seq<Line>, id: int)
    requires Settle(b.balances, b.accounts, lines).Ok? && id in AccountIds(lines) && id in b.balances
    ensures id in Settle(b.balances, b.accounts, lines).value
    ensures Settle(b.balances, b.accounts, lines).value[id] == NewBalance(b.balances[id], lines, id)
  {
    hide AccountIds, NewBalance;
  }

  lemma Untouched(b: Books, legs: seq<Leg>, key: AccountKey)
    requires IndexOk(b) && LegsKnown(b.index, legs) && key in b.index && forall leg :: leg in legs ==> leg.key != key
    requires Settle(b.balances, b.accounts, LinesOf(b.index, legs)).Ok?
    ensures b.index[key] !in Settle(b.balances, b.accounts, LinesOf(b.index, legs)).value
  {
    hide NewBalance;
    var lines := LinesOf(b.index, legs);
    forall k | 0 <= k < |lines| ensures lines[k].account != b.index[key] {
      assert legs[k] in legs;
      assert b.accounts[b.index[legs[k].key]] == legs[k].key && b.accounts[b.index[key]] == key;
    }
  }

  /** A move posts exactly when it is positive and its source, if owned, can pay the rounded amount. */
  lemma MovePostsIff(b: Books, kind: EntryType, ref: Ref, from: AccountKey, to: AccountKey, units: int)
    requires IndexOk(b) && NoDebt(b) && from in b.index && to in b.index && from.currency == to.currency && from != to
    ensures LegsKnown(b.index, Move(from, to, units))
    ensures Post(b, kind, ref, LinesOf(b.index, Move(from, to, units))).Ok? <==>
            units > 0 && (from.owner.Some? ==> BalanceAt(b, from) >= Sig20(units))
  {
    hide IndexOk, NoDebt, Even20, Post, LinesOf, Sig20, BalanceAt;
    var legs := Move(from, to, units);
    MoveApart(from, to, units);
    MoveEven20(from, to, units);
    LegsPostIff(b, kind, ref, legs);
    MoveShape(b, from, to, units);
  }

  lemma MoveShape(b: Books, from: AccountKey, to: AccountKey, units: int)
    ensures PositiveLegsOnly(Move(from, to, units)) <==> units > 0
    ensures CanPay(b, Move(from, to, units)) <==> (from.owner.Some? ==> BalanceAt(b, from) >= Sig20(units))
  {
    hide Sig20, BalanceAt;
    var legs := Move(from, to, units);
    assert legs[0] == Leg(from, Debit, units) && legs[1] == Leg(to, Credit, units);
  }

  /** A swap posts exactly when both sides are positive and its source, if owned, can pay the rounded amount. */
  lemma SwapPostsIff(b: Books, kind: EntryType, ref: Ref, source: AccountKey, fromUnits: int, user: UserId, to: Code, toUnits: int)
    requires IndexOk(b) && NoDebt(b) && LegsKnown(b.index, Swap(source, fromUnits, user, to, toUnits))
    requires source.currency != to && source.kind != Treasury
    ensures Post(b, kind, ref, LinesOf(b.index, Swap(source, fromUnits, user, to, toUnits))).Ok? <==>
            fromUnits > 0 && toUnits > 0 && (source.owner.Some? ==> BalanceAt(b, source) >= Sig20(fromUnits))
  {
    hide IndexOk, NoDebt, Even20, Post, LinesOf, Sig20, BalanceAt;
    SwapApart(source, fromUnits, user, to, toUnits);
    SwapEven20(source, fromUnits, user, to, toUnits);
    LegsPostIff(b, kind, ref, Swap(source, fromUnits, user, to, toUnits));
    SwapShape(b, source, fromUnits, user, to, toUnits);
  }

  lemma SwapShape(b: Books, source: AccountKey, fromUnits: int, user: UserId, to: Code, toUnits: int)
    ensures |Swap(source, fromUnits, user, to, toUnits)| == 4
    ensures PositiveLegsOnly(Swap(source, fromUnits, user, to, toUnits)) <==> fromUnits > 0 && toUnits > 0
    ensures CanPay(b, Swap(source, fromUnits, user, to, toUnits)) <==>
            (source.owner.Some? ==> BalanceAt(b, source) >= Sig20(fromUnits))
  {
    hide Sig20, BalanceAt;
    var legs := Swap(source, fromUnits, user, to, toUnits);
    assert legs[0] == Leg(source, Debit, fromUnits) && legs[1].direction == Credit && legs[1].units == fromUnits;
    assert legs[2].units == legs[3].units == toUnits && legs[2].key.owner.None? && legs[3].direction == Credit;
  }

  // ---------------------------------------------------------------- any operation

  /** Every plan is a move, a swap or a transfer, so its totals agree unless a transfer's do not add up. */
  lemma PlannedEven20Iff(cfg: Config, op: Op, row: Row)
    requires ConfigOk(cfg) && Plan(cfg, op, row).Go?
    ensures |Plan(cfg, op, row).draft.legs| >= 2
    ensures Even20(Plan(cfg, op, row).draft.legs) <==> (op.Transfer? ==> AddsUp(op.amount, cfg.feeFlat))
  {
    hide Even20, Plan, TransferLegs, Plus, Sig20;
    if op.Transfer? {
      PlannedTransfer(cfg, op, row);
      TransferEven20Iff(cfg, op.sender, op.recipient.value, GetCurrency(cfg, op.code).value, op.amount);
      TransferLength(cfg, op.sender, op.recipient.value, GetCurrency(cfg, op.code).value, op.amount);
    } else {
      PlannedEven20(cfg, op, row);
    }
  }

  lemma TransferLength(cfg: Config, sender: UserId, recipient: UserId, c: Code, amount: nat)
    ensures |TransferLegs(cfg, sender, recipient, c, amount)| >= 2
  {
    hide Plus;
  }

  lemma PlannedEven20(cfg: Config, op: Op, row: Row)
    requires ConfigOk(cfg) && !op.Transfer? && Plan(cfg, op, row).Go?
    ensures |Plan(cfg, op, row).draft.legs| >= 2 && Even20(Plan(cfg, op, row).draft.legs)
  {
    hide Even20, Move, Swap, SplitPair, HoldAmount, QuoteAmount, MarketAmount, RoundTo, ConvertedAmount, Crossed,
      FixedRate, ResolvePair;
    forall from: AccountKey, to: AccountKey, units | from.currency == to.currency
      ensures |Move(from, to, units)| == 2 && Even20(Move(from, to, units))
    {
      MoveTwo(from, to, units);
      MoveEven20(from, to, units);
    }
    forall source, fromUnits, user, to, toUnits
      ensures |Swap(source, fromUnits, user, to, toUnits)| == 4 && Even20(Swap(source, fromUnits, user, to, toUnits))
    {
      SwapFour(source, fromUnits, user, to, toUnits);
      SwapEven20(source, fromUnits, user, to, toUnits);
    }
  }

  lemma MoveTwo(from: AccountKey, to: AccountKey, units: int)
    ensures |Move(from, to, units)| == 2
  {
  }

  lemma SwapFour(source: AccountKey, fromUnits: int, user: UserId, to: Code, toUnits: int)
    ensures |Swap(source, fromUnits, user, to, toUnits)| == 4
  {
  }

  /**
   Exactly when an operation is carried out, in any sound state and at any magnitude: when it plans an entry,
   every amount of it is positive, each wallet it debits has the rounded amount, the row beside it passes its
   check constraints, and, for a transfer, amount and fee add up.
   */
  lemma SucceedsIff(cfg: Config, db: Db, op: Op)
    requires Sound(cfg, db) && Covered(db, Plan(cfg, op, RowOf(db, op)))
    ensures Apply(cfg, db, op).1.Done? <==>
            var step := Plan(cfg, op, RowOf(db, op));
            && step.Go?
            && PositiveLegsOnly(step.draft.legs) && CanPay(db.books, step.draft.legs) && ChecksOk(step.draft.change)
            && (op.Transfer? ==> AddsUp(op.amount, cfg.feeFlat))
  {
    hide Sound, Plan, IndexOk, NoDebt, Post, Even20, CanPay, PositiveLegsOnly, AddsUp, Apart, LinesOf, ChecksOk;
    SoundParts(cfg, db);
    PlanNeverDone(cfg, op, RowOf(db, op));
    var step := Plan(cfg, op, RowOf(db, op));
    if step.Go? {
      PairsOk(cfg, db);
      PlannedLegsApart(cfg, db, op);
      PlannedEven20Iff(cfg, op, RowOf(db, op));
      LegsPostIff(db.books, step.draft.kind, step.draft.ref, step.draft.legs);
    }
  }

  /**
   What a committed entry leaves: on the account of each leg the stored balance plus the leg, each rounded to
   twenty digits, every other account untouched, the entry in the journal and the rows beside it.
   */
  ghost predicate Leaves(before: Db, draft: Draft, after: Db) {
    && LegsKnown(before.books.index, draft.legs)
    && after == Write(before, draft, after.books)
    && after.books.index == before.books.index
    && after.books.journal == before.books.journal + [Entry(draft.kind, draft.ref, LinesOf(before.books.index, draft.legs))]
    && (forall k :: 0 <= k < |draft.legs| ==> BalanceAt(after.books, draft.legs[k].key) == LegLeaves(before.books, draft.legs[k]))
    && (forall key :: key in before.books.index && (forall leg :: leg in draft.legs ==> leg.key != key) ==>
          BalanceAt(after.books, key) == BalanceAt(before.books, key))
  }

  lemma ExecuteLeaves(db: Db, draft: Draft)
    requires IndexOk(db.books) && LegsKnown(db.books.index, draft.legs) && Apart(draft.legs)
    requires Execute(db, draft).1.Done?
    ensures Execute(db, draft).1 == Done(|db.books.journal|) && Leaves(db, draft, Execute(db, draft).0)
  {
    hide IndexOk, Post, Apart, LinesOf, ChecksOk, LegLeaves, BalanceAt;
    LegsPosted(db.books, draft.kind, draft.ref, draft.legs);
  }

  /** What any operation that is carried out leaves, in any sound state and at any magnitude. */
  lemma SuccessLeaves(cfg: Config, db: Db, op: Op)
    requires Sound(cfg, db) && Covered(db, Plan(cfg, op, RowOf(db, op))) && Apply(cfg, db, op).1.Done?
    ensures Plan(cfg, op, RowOf(db, op)).Go? && Apply(cfg, db, op).1 == Done(|db.books.journal|)
    ensures Leaves(db, Plan(cfg, op, RowOf(db, op)).draft, Apply(cfg, db, op).0)
  {
    hide Sound, Plan, IndexOk, NoDebt, Execute, Apart, Leaves;
    SoundParts(cfg, db);
    PlanNeverDone(cfg, op, RowOf(db, op));
    PairsOk(cfg, db);
    PlannedLegsApart(cfg, db, op);
    ExecuteLeaves(db, Plan(cfg, op, RowOf(db, op)).draft);
  }
}
