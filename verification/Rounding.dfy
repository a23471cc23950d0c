/**
 What twenty digits do to the entries the operations post: which of them balance exactly, and when a cached
 balance lands where the journal says, at any magnitude.
 */
module Rounding {
  import opened Wrappers
  import opened Decimals
  import opened Ledger
  import opened LedgerLaws
  import opened Trading
  import opened System
  import opened Invariant
  import opened Effects
  import opened Runs
  import opened PostingLaws

  // ---------------------------------------------------------------- entries that balance

  function LegTotal(legs: seq<Leg>, c: Code, d: Direction): int {
    if legs == [] then 0
    else LegTotal(Init(legs), c, d) + If(Last(legs).key.currency == c && Last(legs).direction == d, Last(legs).units)
  }

  lemma {:induction false} BucketOfLegs(index: map<AccountKey, int>, legs: seq<Leg>, c: Code, d: Direction)
    requires LegsKnown(index, legs)
    ensures Bucket(LinesOf(index, legs), c, d) == LegTotal(legs, c, d)
  {
    if legs != [] {
      var lines := LinesOf(index, legs);
      assert forall leg :: leg in Init(legs) ==> leg in legs;
      BucketOfLegs(index, Init(legs), c, d);
      assert Init(lines) == LinesOf(index, Init(legs));
    }
  }

  lemma LegTotalSnoc(legs: seq<Leg>, leg: Leg, c: Code, d: Direction)
    ensures LegTotal(legs + [leg], c, d) == LegTotal(legs, c, d) + If(leg.key.currency == c && leg.direction == d, leg.units)
  {
    assert Init(legs + [leg]) == legs;
  }

  lemma MoveTotals(from: AccountKey, to: AccountKey, units: int, c: Code, d: Direction)
    requires from.currency == to.currency
    ensures LegTotal(Move(from, to, units), c, d) == If(from.currency == c, units)
  {
    var l1, l2 := Leg(from, Debit, units), Leg(to, Credit, units);
    LegTotalSnoc([], l1, c, d);
    LegTotalSnoc([l1], l2, c, d);
    assert [] + [l1] == [l1] && Move(from, to, units) == [l1] + [l2];
  }

  lemma SwapTotals(source: AccountKey, fromUnits: int, user: UserId, to: Code, toUnits: int, c: Code, d: Direction)
    ensures LegTotal(Swap(source, fromUnits, user, to, toUnits), c, d) ==
            If(source.currency == c, fromUnits) + If(to == c, toUnits)
  {
    var l1, l2 := Leg(source, Debit, fromUnits), Leg(Pool(source.currency, Treasury), Credit, fromUnits);
    var l3, l4 := Leg(Pool(to, Treasury), Debit, toUnits), Leg(Wallet(user, to), Credit, toUnits);
    LegTotalSnoc([], l1, c, d);
    LegTotalSnoc([l1], l2, c, d);
    LegTotalSnoc([l1] + [l2], l3, c, d);
    LegTotalSnoc([l1] + [l2] + [l3], l4, c, d);
    assert [] + [l1] == [l1];
    assert Swap(source, fromUnits, user, to, toUnits) == [l1] + [l2] + [l3] + [l4];
  }

  /** Debits equal credits in every currency. */
  ghost predicate Even(legs: seq<Leg>) {
    forall c :: LegTotal(legs, c, Debit) == LegTotal(legs, c, Credit)
  }

  lemma BalancedIffEven(index: map<AccountKey, int>, legs: seq<Leg>)
    requires LegsKnown(index, legs)
    ensures Balanced(LinesOf(index, legs)) <==> Even(legs)
  {
    hide LinesOf, Bucket, LegTotal;
    var lines := LinesOf(index, legs);
    forall c, d ensures Bucket(lines, c, d) == LegTotal(legs, c, d) {
      BucketOfLegs(index, legs, c, d);
    }
    if Balanced(lines) {
      forall c ensures LegTotal(legs, c, Debit) == LegTotal(legs, c, Credit) {
        assert Bucket(lines, c, Debit) == Bucket(lines, c, Credit);
      }
      assert Even(legs);
    }
    if Even(legs) {
      forall c ensures Bucket(lines, c, Debit) == Bucket(lines, c, Credit) {
        assert LegTotal(legs, c, Debit) == LegTotal(legs, c, Credit);
      }
      assert Balanced(lines);
    }
  }

  lemma MoveBalances(from: AccountKey, to: AccountKey, units: int)
    requires from.currency == to.currency
    ensures Even(Move(from, to, units))
  {
    forall c, d ensures LegTotal(Move(from, to, units), c, d) == If(from.currency == c, units) {
      MoveTotals(from, to, units, c, d);
    }
  }

  lemma SwapBalances(source: AccountKey, fromUnits: int, user: UserId, to: Code, toUnits: int)
    ensures Even(Swap(source, fromUnits, user, to, toUnits))
  {
    forall c, d
      ensures LegTotal(Swap(source, fromUnits, user, to, toUnits), c, d) ==
              If(source.currency == c, fromUnits) + If(to == c, toUnits)
    {
      SwapTotals(source, fromUnits, user, to, toUnits, c, d);
    }
  }

  /** The sender's debit is the rounded sum, the credits are its exact parts. */
  lemma TransferTotals(cfg: Config, sender: UserId, recipient: UserId, c: Code, amount: nat, code: Code, d: Direction)
    ensures LegTotal(TransferLegs(cfg, sender, recipient, c, amount), code, d) ==
            If(c == code, if d == Debit then Plus(amount, cfg.feeFlat) else amount + cfg.feeFlat)
  {
    hide Plus;
    var l1, l2 := Leg(Wallet(sender, c), Debit, Plus(amount, cfg.feeFlat)), Leg(Wallet(recipient, c), Credit, amount);
    var l3 := Leg(Pool(c, Fees), Credit, cfg.feeFlat);
    LegTotalSnoc([], l1, code, d);
    LegTotalSnoc([l1], l2, code, d);
    LegTotalSnoc([l1] + [l2], l3, code, d);
    assert [] + [l1] == [l1];
    assert [l1] + [l2] + [] == [l1] + [l2] == [l1, l2];
    assert TransferLegs(cfg, sender, recipient, c, amount) == [l1] + [l2] + if cfg.feeFlat > 0 then [l3] else [];
  }

  lemma TransferBalancesIff(cfg: Config, sender: UserId, recipient: UserId, c: Code, amount: nat)
    ensures var legs := TransferLegs(cfg, sender, recipient, c, amount);
            Even(legs) <==> Representable(amount + cfg.feeFlat)
  {
    hide TransferLegs, Sig20, Representable;
    var legs := TransferLegs(cfg, sender, recipient, c, amount);
    forall code ensures LegTotal(legs, code, Debit) == If(c == code, Plus(amount, cfg.feeFlat)) {
      TransferTotals(cfg, sender, recipient, c, amount, code, Debit);
    }
    forall code ensures LegTotal(legs, code, Credit) == If(c == code, amount + cfg.feeFlat) {
      TransferTotals(cfg, sender, recipient, c, amount, code, Credit);
    }
    Sig20ExactIff(amount + cfg.feeFlat);
    assert LegTotal(legs, c, Debit) == Plus(amount, cfg.feeFlat) && LegTotal(legs, c, Credit) == amount + cfg.feeFlat;
  }

  /**
   Exactly which of the entries the operations post have equal exact debits and credits: all of them, except
   a transfer whose amount and fee together need more than twenty digits.
   */
  lemma PlannedEntryBalancesIff(cfg: Config, op: Op, row: Row, index: map<AccountKey, int>)
    requires ConfigOk(cfg) && Plan(cfg, op, row).Go? && LegsKnown(index, Plan(cfg, op, row).draft.legs)
    ensures Balanced(LinesOf(index, Plan(cfg, op, row).draft.legs)) <==>
            (op.Transfer? ==> Representable(op.amount + cfg.feeFlat))
  {
    hide Even, Representable, LinesOf, Balanced, LegsKnown, TransferLegs, Move, Swap, Plan;
    BalancedIffEven(index, Plan(cfg, op, row).draft.legs);
    if op.Transfer? {
      PlannedTransfer(cfg, op, row);
      TransferBalancesIff(cfg, op.sender, op.recipient.value, GetCurrency(cfg, op.code).value, op.amount);
    } else {
      PlannedShape(cfg, op, row);
    }
  }

  /** Every other plan is a move or a swap. */
  lemma PlannedShape(cfg: Config, op: Op, row: Row)
    requires ConfigOk(cfg) && !op.Transfer? && Plan(cfg, op, row).Go?
    ensures Even(Plan(cfg, op, row).draft.legs)
  {
    hide Even, Move, Swap, SplitPair, HoldAmount, QuoteAmount, MarketAmount, RoundTo, ConvertedAmount, Crossed, FixedRate, ResolvePair;
    forall from: AccountKey, to: AccountKey, units | from.currency == to.currency
      ensures Even(Move(from, to, units))
    {
      MoveBalances(from, to, units);
    }
    forall source, fromUnits, user, to, toUnits
      ensures Even(Swap(source, fromUnits, user, to, toUnits))
    {
      SwapBalances(source, fromUnits, user, to, toUnits);
    }
  }

  /** A transfer of 10^12 with a fee of one unit is valid, and credits one unit more than it debits. */
  lemma UnevenTransferValid(cfg: Config, index: map<AccountKey, int>, sender: UserId, recipient: UserId, c: Code)
    requires cfg.feeFlat == 1 && sender != recipient
    requires Wallet(sender, c) in index && Wallet(recipient, c) in index && Pool(c, Fees) in index
    ensures LegsKnown(index, TransferLegs(cfg, sender, recipient, c, LIMIT))
    ensures var lines := LinesOf(index, TransferLegs(cfg, sender, recipient, c, LIMIT));
            Validate(lines).None? && Bucket(lines, c, Credit) == Bucket(lines, c, Debit) + 1
  {
    LimitRounds();
    LimitPositive();
    var legs := TransferLegs(cfg, sender, recipient, c, LIMIT);
    var lines := LinesOf(index, legs);
    TransferTotals(cfg, sender, recipient, c, LIMIT, c, Debit);
    TransferTotals(cfg, sender, recipient, c, LIMIT, c, Credit);
    BucketOfLegs(index, legs, c, Debit);
    BucketOfLegs(index, legs, c, Credit);
    RoundedBuckets(index[Wallet(sender, c)], index[Wallet(recipient, c)], index[Pool(c, Fees)], c);
    assert lines == [Line(index[Wallet(sender, c)], Debit, Fixed8(LIMIT), c),
                     Line(index[Wallet(recipient, c)], Credit, Fixed8(LIMIT), c),
                     Line(index[Pool(c, Fees)], Credit, Fixed8(1), c)];
  }

  lemma RoundedBuckets(a: int, b: int, f: int, c: Code)
    ensures Validate([Line(a, Debit, Fixed8(LIMIT), c), Line(b, Credit, Fixed8(LIMIT), c), Line(f, Credit, Fixed8(1), c)]).None?
  {
    var l1, l2, l3 := Line(a, Debit, Fixed8(LIMIT), c), Line(b, Credit, Fixed8(LIMIT), c), Line(f, Credit, Fixed8(1), c);
    LimitRounds();
    Snoc([], l1, c, a);
    Snoc([l1], l2, c, a);
    Snoc([l1] + [l2], l3, c, a);
    var lines := [l1] + [l2] + [l3];
    assert lines == [l1, l2, l3];
    GoodAmountIff(Fixed8(LIMIT));
    GoodAmountIff(Fixed8(1));
    assert FirstBadAmount(lines).None?;
    SingleCurrency(lines, c);
  }

  // ---------------------------------------------------------------- balances that track the journal

  /**
   Exactly when the balance an operation writes to an account is what the journal says, for any stored balance
   and amount: when that is the twenty-digit value nearest to the stored balance plus the rounded amount.  For
   an amount of at most twenty digits that is: when the new balance has at most twenty digits.
   */
  lemma PostedBalanceTracksIff(cfg: Config, db: Db, op: Op, k: nat, read: int)
    requires Sound(cfg, db) && Covered(db, Plan(cfg, op, RowOf(db, op))) && Plan(cfg, op, RowOf(db, op)).Go?
    requires k < |Plan(cfg, op, RowOf(db, op)).draft.legs|
    ensures var legs := Plan(cfg, op, RowOf(db, op)).draft.legs;
            var lines, id, v := LinesOf(db.books.index, legs), db.books.index[legs[k].key], SignedLeg(legs[k]);
            && Net(lines, id) == v
            && (NewBalance(read, lines, id) == read + v <==> Nearest20(read + Sig20(v), read + v))
            && (Representable(v) ==> (NewBalance(read, lines, id) == read + v <==> Representable(read + v)))
  {
    hide Plan, NewBalance, Nearest20, Sig20, Representable, Sound, IndexOk, LinesOf, SignedLeg, Net, Apart;
    SoundParts(cfg, db);
    PairsOk(cfg, db);
    PlannedLegsApart(cfg, db, op);
    LegTracksIff(db.books, Plan(cfg, op, RowOf(db, op)).draft.legs, k, read);
  }

  lemma LegTracksIff(b: Books, legs: seq<Leg>, k: nat, read: int)
    requires IndexOk(b) && LegsKnown(b.index, legs) && Apart(legs) && k < |legs|
    ensures var lines, id, v := LinesOf(b.index, legs), b.index[legs[k].key], SignedLeg(legs[k]);
            && Net(lines, id) == v
            && (NewBalance(read, lines, id) == read + v <==> Nearest20(read + Sig20(v), read + v))
            && (Representable(v) ==> (NewBalance(read, lines, id) == read + v <==> Representable(read + v)))
  {
    hide NewBalance, Nearest20, Sig20, Representable, IndexOk, Apart, OnlyLine, Net, Signed, SignedLeg, Fixed8, LinesOf;
    LineOfLeg(b.index, legs, k);
    LinesApart(b, legs, k);
    LineTracksIff(LinesOf(b.index, legs), k, read);
  }

  // ---------------------------------------------------------------- seen in the tables

  lemma LimitRoundsBelow()
    ensures Sig20(-LIMIT) == -LIMIT && Sig20(-LIMIT - 1) == -LIMIT
  {
    LimitRounds();
    assert Abs(-LIMIT) == LIMIT && Abs(-LIMIT - 1) == LIMIT + 1;
  }

  /** Valid legs on accounts of their own post if they leave no owned account negative. */
  lemma LegsPost(db: Db, draft: Draft)
    requires IndexOk(db.books) && LegsKnown(db.books.index, draft.legs) && Apart(draft.legs) && ChecksOk(draft.change)
    requires Validate(LinesOf(db.books.index, draft.legs)).None?
    requires forall k :: 0 <= k < |draft.legs| && draft.legs[k].key.owner.Some? ==> LegLeaves(db.books, draft.legs[k]) >= 0
    ensures Execute(db, draft).1 == Done(|db.books.journal|)
    ensures var after := Execute(db, draft).0;
            && after.books.index == db.books.index
            && after.books.journal ==
                 db.books.journal + [Entry(draft.kind, draft.ref, LinesOf(db.books.index, draft.legs))]
            && forall k :: 0 <= k < |draft.legs| ==>
                 BalanceAt(after.books, draft.legs[k].key) == LegLeaves(db.books, draft.legs[k])
  {
    hide Validate, IndexOk, Apart, LegLeaves, LinesOf, Settle, BalanceAt;
    LegsSettleIff(db.books, draft.legs);
    LegsPosted(db.books, draft.kind, draft.ref, draft.legs);
  }

  /**
   A transfer of 10^12 with a fee of one unit out of a wallet that holds 10^12 is carried out: the wallet is
   emptied, the recipient has 10^12, and the fee's unit has come from nowhere.
   */
  lemma TransferCreatesAUnit(cfg: Config, db: Db, sender: UserId, recipient: UserId, code: Code, c: Code)
    requires IndexOk(db.books) && cfg.feeFlat == 1 && sender != recipient && GetCurrency(cfg, code) == Some(c) && ConfigOk(cfg)
    requires Wallet(sender, c) in db.books.index && Wallet(recipient, c) in db.books.index && Pool(c, Fees) in db.books.index
    requires BalanceAt(db.books, Wallet(sender, c)) == LIMIT
    requires BalanceAt(db.books, Wallet(recipient, c)) == BalanceAt(db.books, Pool(c, Fees)) == 0
    ensures Covered(db, Plan(cfg, Transfer(sender, Some(recipient), code, LIMIT), NoRow))
    ensures var (after, outcome) := Apply(cfg, db, Transfer(sender, Some(recipient), code, LIMIT));
            && outcome == Done(|db.books.journal|)
            && BalanceAt(after.books, Wallet(sender, c)) == 0
            && BalanceAt(after.books, Wallet(recipient, c)) == LIMIT
            && BalanceAt(after.books, Pool(c, Fees)) == 1
            && |after.books.journal| == |db.books.journal| + 1
            && !Balanced(Last(after.books.journal).lines)
  {
    hide Validate, Execute, Sig20, IndexOk, Apart, LinesOf, Pow10, Balanced, Bucket, LegLeaves, GetCurrency, BalanceAt;
    var legs := TransferLegs(cfg, sender, recipient, c, LIMIT);
    var draft := Draft(TransferEntry, NoRef, legs, NoChange, Some(TransferCompleted));
    UnevenTransferValid(cfg, db.books.index, sender, recipient, c);
    Uneven(LinesOf(db.books.index, legs), c);
    TransferApart(cfg, sender, recipient, c, LIMIT);
    TransferLeaves(cfg, db.books, sender, recipient, c);
    LegsPost(db, draft);
    assert Plan(cfg, Transfer(sender, Some(recipient), code, LIMIT), NoRow) == Go(draft);
  }

  lemma Uneven(lines: seq<Line>, c: Code)
    requires Bucket(lines, c, Debit) != Bucket(lines, c, Credit)
    ensures !Balanced(lines)
  {
  }

  lemma TransferLeaves(cfg: Config, b: Books, sender: UserId, recipient: UserId, c: Code)
    requires cfg.feeFlat == 1
    requires BalanceAt(b, Wallet(sender, c)) == LIMIT
    requires BalanceAt(b, Wallet(recipient, c)) == BalanceAt(b, Pool(c, Fees)) == 0
    ensures var legs := TransferLegs(cfg, sender, recipient, c, LIMIT);
            && |legs| == 3 && legs[0].key == Wallet(sender, c) && legs[1].key == Wallet(recipient, c)
            && legs[2].key == Pool(c, Fees)
            && LegLeaves(b, legs[0]) == 0 && LegLeaves(b, legs[1]) == LIMIT && LegLeaves(b, legs[2]) == 1
  {
    LimitRounds();
    LimitRoundsBelow();
    LimitPositive();
    SmallIsRepresentable(1);
    SmallIsRepresentable(0);
    hide Sig20, Pow10, BalanceAt;
    assert TransferLegs(cfg, sender, recipient, c, LIMIT) ==
           [Leg(Wallet(sender, c), Debit, LIMIT), Leg(Wallet(recipient, c), Credit, LIMIT), Leg(Pool(c, Fees), Credit, 1)];
  }

  /** A transfer of 10^12 and four units with a fee of one unit is refused, whatever the sender has. */
  lemma TransferRefused(cfg: Config, db: Db, sender: UserId, recipient: Option<UserId>, code: Code)
    requires Sound(cfg, db) && cfg.feeFlat == 1
    requires Covered(db, Plan(cfg, Transfer(sender, recipient, code, LIMIT + 4), NoRow))
    ensures !AddsUp(LIMIT + 4, 1) && !Apply(cfg, db, Transfer(sender, recipient, code, LIMIT + 4)).1.Done?
  {
    hide Sound, Plan, Apply, Covered, Sig20;
    LimitRounds();
    LimitPositive();
    RoundsAtLimit();
    SucceedsIff(cfg, db, Transfer(sender, recipient, code, LIMIT + 4));
  }

  lemma RoundsAtLimit()
    ensures Sig20(LIMIT + 4) == LIMIT && Sig20(LIMIT + 5) == LIMIT + 10
  {
    LimitPositive();
    assert (LIMIT + 4) / 10 == (LIMIT + 5) / 10 == LIMIT / 10 < LIMIT;
    assert Excess(LIMIT / 10) == 0;
    assert Excess(LIMIT + 4) == Excess(LIMIT + 5) == 1;
    assert Pow10(1) == 10 * Pow10(0) == 10;
  }

  /** Amounts of at most twenty digits always add up. */
  lemma RepresentableAddsUp(amount: nat, fee: nat)
    requires Representable(amount)
    ensures AddsUp(amount, fee)
  {
    hide Sig20, Representable;
    Sig20ExactIff(amount);
  }

  /** A deposit of one unit to a wallet that holds 10^12 is journalled, and neither balance moves. */
  lemma DepositLeavesNoTrace(cfg: Config, db: Db, user: UserId, code: Code, c: Code)
    requires IndexOk(db.books) && ConfigOk(cfg) && GetCurrency(cfg, code) == Some(c) && cfg.depositMax >= 1
    requires Wallet(user, c) in db.books.index && Pool(c, Treasury) in db.books.index
    requires BalanceAt(db.books, Wallet(user, c)) == LIMIT && BalanceAt(db.books, Pool(c, Treasury)) == -LIMIT
    ensures Covered(db, Plan(cfg, Deposit(user, code, 1), NoRow))
    ensures var (after, outcome) := Apply(cfg, db, Deposit(user, code, 1));
            && outcome == Done(|db.books.journal|)
            && BalanceAt(after.books, Wallet(user, c)) == LIMIT && BalanceAt(after.books, Pool(c, Treasury)) == -LIMIT
            && |after.books.journal| == |db.books.journal| + 1
            && Net(Last(after.books.journal).lines, db.books.index[Wallet(user, c)]) == 1
  {
    hide Validate, Execute, Sig20, IndexOk, Apart, LinesOf, Net;
    LimitRounds();
    LimitRoundsBelow();
    LimitPositive();
    var from, to := Pool(c, Treasury), Wallet(user, c);
    var draft := Draft(DepositEntry, NoRef, Move(from, to, 1), NoChange, Some(DepositCompleted));
    UnitMoveValid(db.books.index, from, to);
    MoveApart(from, to, 1);
    SmallIsRepresentable(1);
    SmallIsRepresentable(-1);
    assert draft.legs == [Leg(from, Debit, 1), Leg(to, Credit, 1)];
    assert LegLeaves(db.books, draft.legs[0]) == -LIMIT && LegLeaves(db.books, draft.legs[1]) == LIMIT;
    LegsPost(db, draft);
    NetOfLegs(db.books, draft.legs, to);
    NetOfMove(from, to, 1, to);
    assert Plan(cfg, Deposit(user, code, 1), NoRow) == Go(draft);
  }

  lemma UnitMoveValid(index: map<AccountKey, int>, from: AccountKey, to: AccountKey)
    requires from in index && to in index && from.currency == to.currency
    ensures LegsKnown(index, Move(from, to, 1)) && Validate(LinesOf(index, Move(from, to, 1))).None?
  {
    hide Validate;
    LimitPositive();
    var lines := LinesOf(index, Move(from, to, 1));
    var l1, l2 := Line(index[from], Debit, Fixed8(1), from.currency), Line(index[to], Credit, Fixed8(1), to.currency);
    SmallIsRepresentable(1);
    Snoc([], l1, from.currency, 0);
    Snoc([l1], l2, from.currency, 0);
    assert lines == [] + [l1] + [l2] == [l1] + [l2] && [] + [l1] == [l1];
    GoodAmountIff(Fixed8(1));
    assert FirstBadAmount(lines).None?;
    SingleCurrency(lines, from.currency);
  }
}
