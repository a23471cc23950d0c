/**
 What each operation promises to the one who asked for it: how a call ends, told from its own input, which
 accounts its entry moves and by how much, and the row it leaves.  Amounts are compared with the request over
 exact and real arithmetic.
 */
module Promises {
  import opened Wrappers
  import opened Decimals
  import opened Ledger
  import opened LedgerLaws
  import opened Trading
  import opened System
  import opened Invariant
  import opened Effects
  import opened Preservation
  import opened Runs
  import opened PostingLaws
  import opened Outcomes
  import opened Reals
  import opened Fx

  // ---------------------------------------------------------------- what an entry does to accounts

  /** Credits minus debits of an account in the latest entry. */
  ghost function Latest(db: Db, key: AccountKey): int
    requires db.books.journal != [] && key in db.books.index
  {
    Net(Last(db.books.journal).lines, db.books.index[key])
  }

  /**
   One entry was added, and it moves these accounts by these amounts and no others; each balance becomes the
   stored one plus the amount, rounded to twenty digits.
   */
  ghost predicate Moves(before: Db, after: Db, kind: EntryType, ref: Ref, amounts: map<AccountKey, int>) {
    && after.books.index == before.books.index && amounts.Keys <= before.books.index.Keys
    && |after.books.journal| == |before.books.journal| + 1 && before.books.journal <= after.books.journal
    && Last(after.books.journal).kind == kind && Last(after.books.journal).ref == ref
    && (forall key :: key in amounts ==>
          && Latest(after, key) == amounts[key]
          && BalanceAt(after.books, key) == Sig20(BalanceAt(before.books, key) + Sig20(amounts[key])))
    && (forall key :: key in before.books.index && key !in amounts ==>
          Latest(after, key) == 0 && BalanceAt(after.books, key) == BalanceAt(before.books, key))
  }

  /** Below 10^12 nothing is lost: the balance moves by the amount itself. */
  lemma MovesExactly(before: Db, after: Db, kind: EntryType, ref: Ref, amounts: map<AccountKey, int>, key: AccountKey)
    requires Moves(before, after, kind, ref, amounts) && key in amounts
    requires Abs(amounts[key]) < LIMIT && Abs(BalanceAt(before.books, key) + amounts[key]) < LIMIT
    ensures BalanceAt(after.books, key) == BalanceAt(before.books, key) + amounts[key]
  {
    SmallIsRepresentable(amounts[key]);
    SmallIsRepresentable(BalanceAt(before.books, key) + amounts[key]);
  }

  /** The amounts are those of the legs, each account having one leg. */
  ghost predicate AmountsOf(legs: seq<Leg>, amounts: map<AccountKey, int>) {
    && (forall k :: 0 <= k < |legs| ==> legs[k].key in amounts && amounts[legs[k].key] == SignedLeg(legs[k]))
    && (forall key :: key in amounts ==> exists k :: 0 <= k < |legs| && legs[k].key == key)
  }

  lemma NetOfLeg(b: Books, legs: seq<Leg>, k: nat)
    requires IndexOk(b) && LegsKnown(b.index, legs) && Apart(legs) && k < |legs|
    ensures legs[k].key in b.index && Net(LinesOf(b.index, legs), b.index[legs[k].key]) == SignedLeg(legs[k])
  {
    hide IndexOk, Apart, LinesOf, Net, Signed, SignedLeg;
    LineOfLeg(b.index, legs, k);
    LinesApart(b, legs, k);
    TouchedOnce(LinesOf(b.index, legs), k);
  }

  lemma LegsMove(before: Db, draft: Draft, after: Db, amounts: map<AccountKey, int>)
    requires IndexOk(before.books) && Apart(draft.legs) && Leaves(before, draft, after) && AmountsOf(draft.legs, amounts)
    ensures Moves(before, after, draft.kind, draft.ref, amounts)
  {
    hide IndexOk, Apart, LinesOf, Net, SignedLeg, BalanceAt, Sig20, Write;
    var b, legs := before.books, draft.legs;
    forall key | key in amounts
      ensures key in b.index && Latest(after, key) == amounts[key]
      ensures BalanceAt(after.books, key) == Sig20(BalanceAt(b, key) + Sig20(amounts[key]))
    {
      var k :| 0 <= k < |legs| && legs[k].key == key;
      NetOfLeg(b, legs, k);
    }
    forall key | key in b.index && key !in amounts
      ensures Latest(after, key) == 0 && BalanceAt(after.books, key) == BalanceAt(b, key)
    {
      assert forall leg :: leg in legs ==> leg.key in amounts;
      NetOfNoLeg(b, legs, key);
    }
  }

  lemma NetOfNoLeg(b: Books, legs: seq<Leg>, key: AccountKey)
    requires IndexOk(b) && LegsKnown(b.index, legs) && key in b.index && forall leg :: leg in legs ==> leg.key != key
    ensures Net(LinesOf(b.index, legs), b.index[key]) == 0
  {
    hide IndexOk, LinesOf, Net;
    NetOfLegs(b, legs, key);
    NetOfAbsent(legs, key);
  }

  // ---------------------------------------------------------------- how posting ends

  /** The validator threw. */
  predicate Invalidated(outcome: Outcome) {
    outcome.Failed? && outcome.error.Posting? && outcome.error.error.Invalid?
  }

  /** The overdraft check threw on this account. */
  predicate Overdraws(b: Books, outcome: Outcome, key: AccountKey) {
    key in b.index && outcome == Failed(Posting(Insufficient(b.index[key])))
  }

  /** Legs that fit their accounts can only fail to settle for want of money. */
  lemma {:induction false} SettleFails(b: Books, legs: seq<Leg>)
    requires IndexOk(b) && LegsKnown(b.index, legs)
    requires Settle(b.balances, b.accounts, LinesOf(b.index, legs)).Err?
    ensures exists k :: 0 <= k < |legs| && legs[k].key in b.index && legs[k].key.owner.Some?
              && Settle(b.balances, b.accounts, LinesOf(b.index, legs)) == Err(Insufficient(b.index[legs[k].key]))
              && b.index[legs[k].key] in b.balances
              && NewBalance(b.balances[b.index[legs[k].key]], LinesOf(b.index, legs), b.index[legs[k].key]) < 0
  {
    hide AccountIds, NewBalance, Settle, IndexOk;
    var lines := LinesOf(b.index, legs);
    LegsFit(b, legs);
    SameKeys(b);
    SettleReports(b.balances, b.accounts, lines);
    var id := Settle(b.balances, b.accounts, lines).error.account;
    var k :| 0 <= k < |lines| && lines[k].account == id;
    LineOfLeg(b.index, legs, k);
    Indexed(b, legs[k].key);
  }

  /** How a planned entry ends, and why. */
  lemma ExecuteDecided(db: Db, draft: Draft) returns (k: nat)
    requires IndexOk(db.books) && NoDebt(db.books) && LegsKnown(db.books.index, draft.legs) && Apart(draft.legs)
    requires |draft.legs| >= 2
    ensures var (after, outcome) := Execute(db, draft);
            if !PositiveLegsOnly(draft.legs) || !Even20(draft.legs) then Invalidated(outcome) && after == db
            else if CanPay(db.books, draft.legs) then
              if ChecksOk(draft.change) then outcome == Done(|db.books.journal|) && Leaves(db, draft, after)
              else outcome == Failed(CheckViolation) && after == db
            else k < |draft.legs| && Overdraws(db.books, outcome, draft.legs[k].key) && after == db
                 && draft.legs[k].direction == Debit && draft.legs[k].key.owner.Some?
                 && BalanceAt(db.books, draft.legs[k].key) < Sig20(draft.legs[k].units)
  {
    hide IndexOk, NoDebt, Apart, Validate, Settle, LinesOf, PositiveLegsOnly, Even20, CanPay, Leaves, Sig20,
      BalanceAt, NewBalance, ChecksOk;
    k := 0;
    var b, legs := db.books, draft.legs;
    ValidLegsIff(b.index, legs);
    LegsPostIff(b, draft.kind, draft.ref, legs);
    if Execute(db, draft).1.Done? {
      ExecuteLeaves(db, draft);
    } else if PositiveLegsOnly(legs) && Even20(legs) && !CanPay(b, legs) {
      SettleFails(b, legs);
      k :| 0 <= k < |legs| && legs[k].key in b.index && legs[k].key.owner.Some?
           && Settle(b.balances, b.accounts, LinesOf(b.index, legs)) == Err(Insufficient(b.index[legs[k].key]))
           && b.index[legs[k].key] in b.balances
           && NewBalance(b.balances[b.index[legs[k].key]], LinesOf(b.index, legs), b.index[legs[k].key]) < 0;
      CannotPay(b, legs, k);
    }
  }

  lemma CannotPay(b: Books, legs: seq<Leg>, k: nat)
    requires IndexOk(b) && NoDebt(b) && LegsKnown(b.index, legs) && Apart(legs) && k < |legs|
    requires PositiveLegsOnly(legs) && legs[k].key.owner.Some? && legs[k].key in b.index && b.index[legs[k].key] in b.balances
    requires NewBalance(b.balances[b.index[legs[k].key]], LinesOf(b.index, legs), b.index[legs[k].key]) < 0
    ensures legs[k].direction == Debit && BalanceAt(b, legs[k].key) < Sig20(legs[k].units)
  {
    hide IndexOk, NoDebt, Apart, LinesOf, Sig20, NewBalance, LegLeaves, BalanceAt;
    LegPosted(b, legs, k);
    LineOfLeg(b.index, legs, k);
    OwnedNonNegative(b, legs[k].key);
    LegSolventIff(b, legs[k]);
  }

  // ---------------------------------------------------------------- moves and swaps

  /** What a debit and a credit do to their two accounts. */
  function MoveAmounts(from: AccountKey, to: AccountKey, units: int): map<AccountKey, int> {
    map[from := -units, to := units]
  }

  lemma MoveAmountsOf(from: AccountKey, to: AccountKey, units: int)
    requires from != to
    ensures AmountsOf(Move(from, to, units), MoveAmounts(from, to, units))
  {
    var legs := Move(from, to, units);
    assert legs[0].key == from && legs[1].key == to;
  }

  /** An entry of one debit and one credit: what it takes to be posted, and what it does. */
  lemma MoveDecided(db: Db, draft: Draft, from: AccountKey, to: AccountKey, units: int)
    requires IndexOk(db.books) && NoDebt(db.books) && LegsKnown(db.books.index, draft.legs)
    requires draft.legs == Move(from, to, units) && from != to && from.currency == to.currency
    ensures var (after, outcome) := Execute(db, draft);
            if units <= 0 then Invalidated(outcome) && after == db
            else if from.owner.Some? && BalanceAt(db.books, from) < Sig20(units) then
              Overdraws(db.books, outcome, from) && after == db
            else if !ChecksOk(draft.change) then outcome == Failed(CheckViolation) && after == db
            else
              && outcome == Done(|db.books.journal|) && after == Write(db, draft, after.books)
              && Moves(db, after, draft.kind, draft.ref, MoveAmounts(from, to, units))
  {
    hide IndexOk, NoDebt, Apart, Even20, CanPay, Moves, Execute, Sig20, BalanceAt, PositiveLegsOnly, Write, ChecksOk,
      MoveAmounts;
    MoveApart(from, to, units);
    MoveEven20(from, to, units);
    MoveShape(db.books, from, to, units);
    MoveAmountsOf(from, to, units);
    var k := ExecuteDecided(db, draft);
    if Execute(db, draft).1.Done? {
      LegsMove(db, draft, Execute(db, draft).0, MoveAmounts(from, to, units));
    }
  }

  /** What a swap does to its four accounts. */
  function SwapAmounts(source: AccountKey, paid: int, user: UserId, to: Code, got: int): map<AccountKey, int> {
    map[source := -paid, Pool(source.currency, Treasury) := paid, Pool(to, Treasury) := -got, Wallet(user, to) := got]
  }

  lemma SwapAmountsOf(source: AccountKey, paid: int, user: UserId, to: Code, got: int)
    requires source.currency != to && source.kind != Treasury
    ensures AmountsOf(Swap(source, paid, user, to, got), SwapAmounts(source, paid, user, to, got))
  {
    var legs := Swap(source, paid, user, to, got);
    assert legs[0].key == source && legs[1].key == Pool(source.currency, Treasury);
    assert legs[2].key == Pool(to, Treasury) && legs[3].key == Wallet(user, to);
  }

  lemma SwapDecided(db: Db, draft: Draft, source: AccountKey, paid: int, user: UserId, to: Code, got: int)
    requires IndexOk(db.books) && NoDebt(db.books) && LegsKnown(db.books.index, draft.legs)
    requires draft.legs == Swap(source, paid, user, to, got) && source.currency != to && source.kind != Treasury
    ensures var (after, outcome) := Execute(db, draft);
            if paid <= 0 || got <= 0 then Invalidated(outcome) && after == db
            else if source.owner.Some? && BalanceAt(db.books, source) < Sig20(paid) then
              Overdraws(db.books, outcome, source) && after == db
            else if !ChecksOk(draft.change) then outcome == Failed(CheckViolation) && after == db
            else
              && outcome == Done(|db.books.journal|) && after == Write(db, draft, after.books)
              && Moves(db, after, draft.kind, draft.ref, SwapAmounts(source, paid, user, to, got))
  {
    hide IndexOk, NoDebt, Apart, Even20, CanPay, Moves, Execute, Sig20, BalanceAt, PositiveLegsOnly, Write, ChecksOk,
      Swap, SwapAmounts;
    SwapApart(source, paid, user, to, got);
    SwapEven20(source, paid, user, to, got);
    SwapShape(db.books, source, paid, user, to, got);
    SwapAmountsOf(source, paid, user, to, got);
    var k := ExecuteDecided(db, draft);
    if Execute(db, draft).1.Done? {
      LegsMove(db, draft, Execute(db, draft).0, SwapAmounts(source, paid, user, to, got));
    } else if paid > 0 && got > 0 && !CanPay(db.books, draft.legs) {
      SwapDebits(source, paid, user, to, got, k);
    }
  }

  /** Of a swap's owned accounts only the source is debited. */
  lemma SwapDebits(source: AccountKey, paid: int, user: UserId, to: Code, got: int, k: nat)
    requires k < 4 && Swap(source, paid, user, to, got)[k].direction == Debit
    requires Swap(source, paid, user, to, got)[k].key.owner.Some?
    ensures Swap(source, paid, user, to, got)[k] == Leg(source, Debit, paid)
  {
  }

  // ---------------------------------------------------------------- deposits, transfers, withdrawal requests

  /** A deposit of up to the cap moves exactly the amount from the treasury to the caller's wallet. */
  lemma DepositPromise(cfg: Config, db: Db, user: UserId, code: Code, amount: nat)
    requires Sound(cfg, db)
    requires var op := Deposit(user, code, amount); Covered(db, Plan(cfg, op, RowOf(db, op)))
    ensures var c, (after, outcome) := Upper(code), Apply(cfg, db, Deposit(user, code, amount));
            if c !in cfg.decimals then outcome == Failed(NotFound) && after == db
            else if amount > cfg.depositMax then outcome == Failed(BadRequest) && after == db
            else if amount == 0 then Invalidated(outcome) && after == db
            else
              && outcome == Done(|db.books.journal|)
              && Moves(db, after, DepositEntry, NoRef, MoveAmounts(Pool(c, Treasury), Wallet(user, c), amount))
              && after.orders == db.orders && after.requests == db.requests
              && after.outbox == db.outbox + [Event(DepositCompleted, |db.books.journal|)]
  {
    hide Sound, IndexOk, NoDebt, Execute, Moves, Move, Sig20, Upper;
    SoundParts(cfg, db);
    var c := Upper(code);
    if c in cfg.decimals && amount <= cfg.depositMax {
      MoveDecided(db, Plan(cfg, Deposit(user, code, amount), NoRow).draft, Pool(c, Treasury), Wallet(user, c), amount);
    }
  }

  /** What a transfer does to its accounts: the sender also pays the fee, if there is one. */
  function TransferAmounts(cfg: Config, sender: UserId, recipient: UserId, c: Code, amount: nat): map<AccountKey, int> {
    map[Wallet(sender, c) := -Plus(amount, cfg.feeFlat), Wallet(recipient, c) := amount]
    + if cfg.feeFlat > 0 then map[Pool(c, Fees) := cfg.feeFlat] else map[]
  }

  lemma TransferAmountsOf(cfg: Config, sender: UserId, recipient: UserId, c: Code, amount: nat)
    requires sender != recipient
    ensures AmountsOf(TransferLegs(cfg, sender, recipient, c, amount), TransferAmounts(cfg, sender, recipient, c, amount))
  {
    hide Plus;
    var legs := TransferLegs(cfg, sender, recipient, c, amount);
    assert legs[0].key == Wallet(sender, c) && legs[1].key == Wallet(recipient, c);
    assert cfg.feeFlat > 0 ==> legs[2].key == Pool(c, Fees);
  }

  lemma TransferShape(cfg: Config, b: Books, sender: UserId, recipient: UserId, c: Code, amount: nat)
    ensures var legs := TransferLegs(cfg, sender, recipient, c, amount);
            && |legs| >= 2 && (PositiveLegsOnly(legs) <==> amount > 0)
            && (CanPay(b, legs) <==> BalanceAt(b, Wallet(sender, c)) >= Sig20(Plus(amount, cfg.feeFlat)))
            && (forall k :: 0 <= k < |legs| && legs[k].direction == Debit ==> legs[k].key == Wallet(sender, c))
  {
    hide Sig20, BalanceAt, Plus;
    PaidIsPositive(amount, cfg.feeFlat);
    var legs := TransferLegs(cfg, sender, recipient, c, amount);
    assert legs[0] == Leg(Wallet(sender, c), Debit, Plus(amount, cfg.feeFlat));
    assert legs[1] == Leg(Wallet(recipient, c), Credit, amount);
    assert cfg.feeFlat > 0 ==> legs[2] == Leg(Pool(c, Fees), Credit, cfg.feeFlat);
  }

  lemma PaidIsPositive(amount: nat, fee: nat)
    ensures amount > 0 ==> Plus(amount, fee) > 0
  {
    hide Sig20;
    Sig20Sign(amount + fee);
  }

  /**
   A transfer pays the recipient exactly the amount and the fee pool the fee; the sender pays both together, added
   to twenty digits.  It is refused when those digits do not suffice or the sender cannot pay.
   */
  lemma TransferPromise(cfg: Config, db: Db, sender: UserId, recipient: Option<UserId>, code: Code, amount: nat)
    requires Sound(cfg, db)
    requires var op := Transfer(sender, recipient, code, amount); Covered(db, Plan(cfg, op, RowOf(db, op)))
    ensures var c, (after, outcome) := Upper(code), Apply(cfg, db, Transfer(sender, recipient, code, amount));
            if c !in cfg.decimals || recipient.None? then outcome == Failed(NotFound) && after == db
            else if recipient.value == sender then outcome == Failed(Unprocessable) && after == db
            else if amount == 0 || !AddsUp(amount, cfg.feeFlat) then Invalidated(outcome) && after == db
            else if BalanceAt(db.books, Wallet(sender, c)) < Plus(amount, cfg.feeFlat) then
              Overdraws(db.books, outcome, Wallet(sender, c)) && after == db
            else
              && outcome == Done(|db.books.journal|)
              && Moves(db, after, TransferEntry, NoRef, TransferAmounts(cfg, sender, recipient.value, c, amount))
              && after.orders == db.orders && after.requests == db.requests
              && after.outbox == db.outbox + [Event(TransferCompleted, |db.books.journal|)]
  {
    hide Sound, IndexOk, NoDebt, Execute, Moves, Sig20, Upper, TransferLegs, TransferAmounts, Apart, AmountsOf,
      BalanceAt, PositiveLegsOnly, CanPay, Even20, AddsUp;
    SoundParts(cfg, db);
    var c, op := Upper(code), Transfer(sender, recipient, code, amount);
    if c in cfg.decimals && recipient.Some? && recipient.value != sender {
      var draft := Plan(cfg, op, NoRow).draft;
      TransferShape(cfg, db.books, sender, recipient.value, c, amount);
      TransferAmountsOf(cfg, sender, recipient.value, c, amount);
      TransferApart(cfg, sender, recipient.value, c, amount);
      TransferEven20Iff(cfg, sender, recipient.value, c, amount);
      Sig20Idempotent(amount + cfg.feeFlat);
      var k := ExecuteDecided(db, draft);
      if Execute(db, draft).1.Done? {
        LegsMove(db, draft, Execute(db, draft).0, TransferAmounts(cfg, sender, recipient.value, c, amount));
      }
    }
  }

  /** A withdrawal request sets aside exactly the amount asked for, and stores it. */
  lemma RequestPromise(cfg: Config, db: Db, user: UserId, code: Code, amount: nat)
    requires Sound(cfg, db)
    requires var op := RequestWithdrawal(user, code, amount); Covered(db, Plan(cfg, op, RowOf(db, op)))
    ensures var c, (after, outcome) := Upper(code), Apply(cfg, db, RequestWithdrawal(user, code, amount));
            if c !in cfg.decimals then outcome == Failed(NotFound) && after == db
            else if amount == 0 then Invalidated(outcome) && after == db
            else if BalanceAt(db.books, Wallet(user, c)) < Sig20(amount) then
              Overdraws(db.books, outcome, Wallet(user, c)) && after == db
            else
              && outcome == Done(|db.books.journal|)
              && Moves(db, after, WithdrawalHoldEntry, NoRef,
                       MoveAmounts(Wallet(user, c), Pool(c, WithdrawalPending), amount))
              && after.requests == db.requests + [Request(user, c, amount, Pending, None, None, |db.books.journal|, None)]
              && after.orders == db.orders && after.outbox == db.outbox
  {
    hide Sound, IndexOk, NoDebt, Execute, Moves, Move, Sig20, Upper;
    SoundParts(cfg, db);
    var c := Upper(code);
    if c in cfg.decimals {
      MoveDecided(db, Plan(cfg, RequestWithdrawal(user, code, amount), NoRow).draft,
                  Wallet(user, c), Pool(c, WithdrawalPending), amount);
    }
  }

  /** A pending request is settled to the treasury or released to the one who made it; any other is refused. */
  lemma DecisionPromise(cfg: Config, db: Db, id: nat, admin: UserId, at: int, approve: bool)
    requires Sound(cfg, db)
    requires var op := if approve then Approve(id, admin, at) else Reject(id, admin, at);
             Covered(db, Plan(cfg, op, RowOf(db, op)))
    ensures var op := if approve then Approve(id, admin, at) else Reject(id, admin, at);
            var (after, outcome) := Apply(cfg, db, op);
            if id >= |db.requests| then outcome == Failed(NotFound) && after == db
            else if db.requests[id].status != Pending then outcome == Failed(Conflict) && after == db
            else
              var r := db.requests[id];
              && outcome == Done(|db.books.journal|)
              && Moves(db, after, if approve then WithdrawalSettleEntry else WithdrawalReleaseEntry, RequestRef(id),
                       MoveAmounts(Pool(r.currency, WithdrawalPending),
                                   if approve then Pool(r.currency, Treasury) else Wallet(r.user, r.currency), r.amount))
              && after.requests == db.requests[id := r.(
                   status := if approve then Approved else Rejected, decidedBy := Some(admin), decidedAt := Some(at),
                   settleEntry := Some(|db.books.journal|))]
              && after.orders == db.orders
              && after.outbox == db.outbox +
                   [Event(if approve then WithdrawalApproved else WithdrawalRejected, |db.books.journal|)]
  {
    hide Sound, IndexOk, NoDebt, Execute, Moves, Move, Sig20;
    SoundParts(cfg, db);
    var op := if approve then Approve(id, admin, at) else Reject(id, admin, at);
    if id < |db.requests| && db.requests[id].status == Pending {
      var r := db.requests[id];
      PendingPositive(cfg, db, id);
      MoveDecided(db, Plan(cfg, op, RowOf(db, op)).draft, Pool(r.currency, WithdrawalPending),
                  if approve then Pool(r.currency, Treasury) else Wallet(r.user, r.currency), r.amount);
    }
  }

  // ---------------------------------------------------------------- limit orders

  /** What a limit order sets aside: a SELL its quantity, a BUY the quantity at the limit price. */
  predicate SetsAside(cfg: Config, o: Order, c: Code, held: int)
    requires ConfigOk(cfg) && PairOk(cfg, o) && o.limitPrice.Some?
  {
    var (base, quote) := SplitPair(o.pair).value;
    if o.side == Sell then c == base && held == o.quantity
    else c == quote && Near(held, o.quantity as real * PriceOf(o.limitPrice.value), cfg.decimals[quote])
  }

  lemma HeldSetsAside(cfg: Config, o: Order)
    requires ConfigOk(cfg) && PairOk(cfg, o) && o.limitPrice.Some? && o.quantity >= 0 && o.limitPrice.value >= 0
    ensures Held(cfg, o).Ok? && SetsAside(cfg, o, Held(cfg, o).value.0, Held(cfg, o).value.1)
  {
    hide Near, RoundTo, Sig20;
    var (base, quote) := SplitPair(o.pair).value;
    HoldIsFillAmount(o.side, o.quantity, o.limitPrice.value, cfg.decimals[base], cfg.decimals[quote]);
    QuoteAmountNear(o.quantity, o.limitPrice.value, cfg.decimals[quote]);
  }

  /** An open order of a sound state, with what it holds. */
  lemma OpenOrder(cfg: Config, db: Db, id: nat)
    requires Sound(cfg, db) && id < |db.orders| && db.orders[id].status == Open
    ensures var o := db.orders[id];
            && o.kind == Limit && PairOk(cfg, o) && o.limitPrice.Some? && o.limitPrice.value > 0 && o.quantity > 0
            && Held(cfg, o).Ok? && Held(cfg, o).value.1 > 0
            && SetsAside(cfg, o, Held(cfg, o).value.0, Held(cfg, o).value.1)
  {
    hide PairOk, Held, SetsAside;
    assert OrderOk(cfg, db.books, id, db.orders[id]);
    HeldSetsAside(cfg, db.orders[id]);
  }

  /** Only its owner can cancel an order, and only while it is open; what was set aside goes back to the wallet. */
  lemma CancelPromise(cfg: Config, db: Db, user: UserId, id: nat) returns (c: Code, held: int)
    requires Sound(cfg, db) && Covered(db, Plan(cfg, CancelOrder(user, id), RowOf(db, CancelOrder(user, id))))
    ensures id < |db.orders| && db.orders[id].status == Open ==>
              PairOk(cfg, db.orders[id]) && db.orders[id].limitPrice.Some? && SetsAside(cfg, db.orders[id], c, held)
    ensures var (after, outcome) := Apply(cfg, db, CancelOrder(user, id));
            if id >= |db.orders| || db.orders[id].user != user then outcome == Failed(NotFound) && after == db
            else if db.orders[id].status != Open then outcome == Failed(Conflict) && after == db
            else
              && outcome == Done(|db.books.journal|)
              && Moves(db, after, TradeReleaseEntry, OrderRef(id), MoveAmounts(Pool(c, TradeHold), Wallet(user, c), held))
              && after.orders == db.orders[id := db.orders[id].(status := Cancelled)]
              && after.requests == db.requests && after.outbox == db.outbox
  {
    hide Sound, IndexOk, NoDebt, Execute, Moves, Move, MoveAmounts, Sig20, PairOk, Held, SetsAside;
    SoundParts(cfg, db);
    c, held := "", 0;
    if id < |db.orders| && db.orders[id].status == Open {
      OpenOrder(cfg, db, id);
      c, held := Held(cfg, db.orders[id]).value.0, Held(cfg, db.orders[id]).value.1;
      if db.orders[id].user == user {
        var op := CancelOrder(user, id);
        MoveDecided(db, Plan(cfg, op, RowOf(db, op)).draft, Pool(c, TradeHold), Wallet(user, c), held);
      }
    }
  }

  /** What a fill does: the pool pays what was set aside, the owner gets the other side at the limit price. */
  function FillAmounts(o: Order, base: Code, quote: Code, cost: int): map<AccountKey, int> {
    if o.side == Buy then SwapAmounts(Pool(quote, TradeHold), cost, o.user, base, o.quantity)
    else SwapAmounts(Pool(base, TradeHold), o.quantity, o.user, quote, cost)
  }

  /** The legs of a fill, by side. */
  lemma FillLegsAre(cfg: Config, o: Order) returns (cost: int)
    requires ConfigOk(cfg) && PairOk(cfg, o) && o.limitPrice.Some? && o.quantity > 0 && o.limitPrice.value > 0
    ensures SplitPair(o.pair).Some?
    ensures var (base, quote) := SplitPair(o.pair).value;
            && base != quote && quote in cfg.decimals
            && cost >= 0 && Near(cost, o.quantity as real * PriceOf(o.limitPrice.value), cfg.decimals[quote])
            && FillLegs(cfg, o) == if o.side == Buy then Swap(Pool(quote, TradeHold), cost, o.user, base, o.quantity)
                                   else Swap(Pool(base, TradeHold), o.quantity, o.user, quote, cost)
    ensures Held(cfg, o).Ok? && Held(cfg, o).value.1 > 0 && o.side == Buy ==> cost > 0
  {
    hide Near, RoundTo, Sig20, Swap, QuoteAmount;
    var (base, quote) := SplitPair(o.pair).value;
    HoldIsFillAmount(o.side, o.quantity, o.limitPrice.value, cfg.decimals[base], cfg.decimals[quote]);
    QuoteAmountNear(o.quantity, o.limitPrice.value, cfg.decimals[quote]);
    cost := QuoteAmount(o.quantity, o.limitPrice.value, cfg.decimals[quote]);
  }

  /**
   A fill attempt: declined unless the order is open and the market is at its limit or better; then the owner gets
   the quantity for its price at the limit, or, selling, that price for the quantity.
   */
  lemma FillPromise(cfg: Config, db: Db, id: nat, rate: Option<Rate>, at: int) returns (cost: int)
    requires Sound(cfg, db) && Covered(db, Plan(cfg, TryFill(id, rate, at), RowOf(db, TryFill(id, rate, at))))
    ensures id < |db.orders| && db.orders[id].status == Open ==>
              var o := db.orders[id];
              && PairOk(cfg, o) && o.limitPrice.Some?
              && Near(cost, o.quantity as real * PriceOf(o.limitPrice.value), cfg.decimals[SplitPair(o.pair).value.1])
    ensures var (after, outcome) := Apply(cfg, db, TryFill(id, rate, at));
            if id >= |db.orders| || db.orders[id].status != Open then outcome == Declined && after == db
            else if rate.None? then outcome == Failed(NotFound) && after == db
            else if !Reached(db.orders[id].side, rate.value, db.orders[id].limitPrice.value) then
              outcome == Declined && after == db
            else if cost == 0 then db.orders[id].side == Sell && Invalidated(outcome) && after == db
            else
              var o := db.orders[id];
              var (base, quote) := SplitPair(o.pair).value;
              && outcome == Done(|db.books.journal|)
              && Moves(db, after, TradeEntry, OrderRef(id), FillAmounts(o, base, quote, cost))
              && after.orders == db.orders[id := FilledOrder(o, |db.books.journal|, at)]
              && after.requests == db.requests && after.outbox == db.outbox + [Event(OrderFilled, id)]
  {
    hide Sound, IndexOk, NoDebt, Execute, Moves, Swap, FillAmounts, Near, PairOk, Held, SetsAside, Plan, FillLegs, Reached, Crossed,
      SplitPair, FilledOrder;
    SoundParts(cfg, db);
    cost := 0;
    if id < |db.orders| && db.orders[id].status == Open {
      OpenOrder(cfg, db, id);
      var o := db.orders[id];
      cost := FillLegsAre(cfg, o);
      if rate.Some? && Reached(o.side, rate.value, o.limitPrice.value) {
        CrossedIff(o.side, rate.value, o.limitPrice.value);
        FillPlan(cfg, db, id, rate.value, at);
        FillExecuted(cfg, db, id, at, cost);
      } else {
        NotFilled(cfg, db, id, rate, at);
      }
    } else {
      NotOpen(cfg, db, id, rate, at);
    }
  }

  lemma FillExecuted(cfg: Config, db: Db, id: nat, at: int, cost: int)
    requires ConfigOk(cfg) && IndexOk(db.books) && NoDebt(db.books) && id < |db.orders|
    requires PairOk(cfg, db.orders[id]) && db.orders[id].limitPrice.Some? && db.orders[id].quantity > 0
    requires LegsKnown(db.books.index, FillLegs(cfg, db.orders[id])) && SplitPair(db.orders[id].pair).Some?
    requires var o := db.orders[id];
             var (base, quote) := SplitPair(o.pair).value;
             && base != quote
             && FillLegs(cfg, o) == if o.side == Buy then Swap(Pool(quote, TradeHold), cost, o.user, base, o.quantity)
                                    else Swap(Pool(base, TradeHold), o.quantity, o.user, quote, cost)
    ensures var o := db.orders[id];
            var (base, quote) := SplitPair(o.pair).value;
            var (after, outcome) := Execute(db, FillDraft(cfg, db, id, at));
            if cost <= 0 then Invalidated(outcome) && after == db
            else
              && outcome == Done(|db.books.journal|)
              && Moves(db, after, TradeEntry, OrderRef(id), FillAmounts(o, base, quote, cost))
              && after.orders == db.orders[id := FilledOrder(o, |db.books.journal|, at)]
              && after.requests == db.requests && after.outbox == db.outbox + [Event(OrderFilled, id)]
  {
    hide IndexOk, NoDebt, Execute, Moves, Swap, SwapAmounts, PairOk, FillLegs, Sig20;
    var o := db.orders[id];
    var (base, quote) := SplitPair(o.pair).value;
    if o.side == Buy {
      SwapDecided(db, FillDraft(cfg, db, id, at), Pool(quote, TradeHold), cost, o.user, base, o.quantity);
    } else {
      SwapDecided(db, FillDraft(cfg, db, id, at), Pool(base, TradeHold), o.quantity, o.user, quote, cost);
    }
  }

  lemma NotOpen(cfg: Config, db: Db, id: nat, rate: Option<Rate>, at: int)
    requires ConfigOk(cfg) && (id < |db.orders| ==> db.orders[id].status != Open)
    ensures Plan(cfg, TryFill(id, rate, at), RowOf(db, TryFill(id, rate, at))) == Stop(Declined)
  {
  }

  lemma NotFilled(cfg: Config, db: Db, id: nat, rate: Option<Rate>, at: int)
    requires ConfigOk(cfg) && id < |db.orders| && db.orders[id].status == Open && db.orders[id].kind == Limit
    requires PairOk(cfg, db.orders[id]) && db.orders[id].limitPrice.Some?
    requires rate.Some? ==> !Reached(db.orders[id].side, rate.value, db.orders[id].limitPrice.value)
    ensures Plan(cfg, TryFill(id, rate, at), RowOf(db, TryFill(id, rate, at)))
            == Stop(if rate.None? then Failed(NotFound) else Declined)
  {
    hide Crossed, Reached, SplitPair;
    if rate.Some? {
      CrossedIff(db.orders[id].side, rate.value, db.orders[id].limitPrice.value);
    }
  }

  /** The two codes of a resolved pair are those written in it, in upper case. */
  lemma ResolvedCodes(cfg: Config, pair: string)
    ensures var r := ResolvePair(cfg, pair);
            if SplitPair(pair).None? then r == Err(BadRequest)
            else
              var (base, quote) := SplitPair(pair).value;
              if base !in cfg.decimals || quote !in cfg.decimals then r == Err(NotFound)
              else if base == quote then r == Err(Unprocessable)
              else r == Ok((base, quote)) && SplitPair(JoinPair(base, quote)) == SplitPair(pair)
  {
    hide Split;
    UpperIdempotent(Split(pair)[0]);
    if |Split(pair)| == 2 {
      UpperIdempotent(Split(pair)[1]);
    }
    if ResolvePair(cfg, pair).Ok? {
      ResolvedPairStored(cfg, pair);
    }
  }

  /** What the request's quantity and price are, rounded half-even to the places of base and quote. */
  ghost predicate RoundedRequest(cfg: Config, base: Code, quote: Code, quantity: nat, limitPrice: nat, qty: int, price: int)
    requires ConfigOk(cfg) && base in cfg.decimals && quote in cfg.decimals
  {
    HalfEvenTo(quantity, cfg.decimals[base], qty) && HalfEvenTo(limitPrice, cfg.decimals[quote], price)
  }

  /** The order stored for a request. */
  predicate StoredAs(o: Order, user: UserId, pair: string, side: Side, qty: int, price: int, hold: nat) {
    && o.user == user && SplitPair(o.pair) == SplitPair(pair) && o.side == side && o.kind == Limit
    && o.quantity == qty && o.limitPrice == Some(price) && o.status == Open && o.holdEntry == Some(hold)
    && o.fillEntry.None? && o.filledPrice.None? && o.filledAt.None?
  }

  /**
   Placing a limit order stores the request's own side, pair, quantity and price, rounded to the currencies' places,
   and sets aside the quantity, or, buying, the quantity at the limit price.
   */
  lemma PlacePromise(cfg: Config, db: Db, user: UserId, pair: string, side: Side, quantity: nat, limitPrice: nat)
    returns (qty: int, price: int, c: Code, held: int)
    requires Sound(cfg, db)
    requires var op := PlaceLimit(user, pair, side, quantity, limitPrice); Covered(db, Plan(cfg, op, RowOf(db, op)))
    ensures ResolvePair(cfg, pair).Ok? ==>
              var (base, quote) := SplitPair(pair).value;
              && base in cfg.decimals && quote in cfg.decimals
              && RoundedRequest(cfg, base, quote, quantity, limitPrice, qty, price)
              && if side == Sell then c == base && held == qty
                 else c == quote && Near(held, qty as real * PriceOf(price), cfg.decimals[quote])
    ensures var (after, outcome) := Apply(cfg, db, PlaceLimit(user, pair, side, quantity, limitPrice));
            if ResolvePair(cfg, pair).Err? then outcome == Failed(ResolvePair(cfg, pair).error) && after == db
            else if held == 0 then Invalidated(outcome) && after == db
            else if BalanceAt(db.books, Wallet(user, c)) < Sig20(held) then
              Overdraws(db.books, outcome, Wallet(user, c)) && after == db
            else if price == 0 then outcome == Failed(CheckViolation) && after == db
            else
              && outcome == Done(|db.books.journal|)
              && Moves(db, after, TradeHoldEntry, NoRef, MoveAmounts(Wallet(user, c), Pool(c, TradeHold), held))
              && |after.orders| == |db.orders| + 1 && db.orders <= after.orders
              && StoredAs(Last(after.orders), user, pair, side, qty, price, |db.books.journal|)
              && after.requests == db.requests && after.outbox == db.outbox
  {
    hide Sound, Plan, IndexOk, NoDebt, Execute, Moves, Move, MoveAmounts, SplitPair, RoundTo, QuoteAmount, HalfEvenTo, ResolvePair,
      Sig20, BalanceAt, Half, PriceOf, StoredAs;
    SoundParts(cfg, db);
    qty, price, c, held := 0, 0, "", 0;
    ResolvedCodes(cfg, pair);
    var op := PlaceLimit(user, pair, side, quantity, limitPrice);
    if ResolvePair(cfg, pair).Ok? {
      var (base, quote) := SplitPair(pair).value;
      var bd, qd := cfg.decimals[base], cfg.decimals[quote];
      qty, price := RoundTo(quantity, bd), RoundTo(limitPrice, qd);
      RoundToIff(quantity, bd, qty);
      RoundToIff(limitPrice, qd, price);
      RoundToSign(quantity, bd);
      RoundToSign(limitPrice, qd);
      QuoteAmountNear(qty, price, qd);
      c, held := if side == Sell then base else quote, if side == Sell then qty else QuoteAmount(qty, price, qd);
      QuoteOfNothing(qty, price, qd);
      var o := PlacePlan(cfg, user, pair, side, quantity, limitPrice);
      assert Plan(cfg, op, RowOf(db, op)).draft.legs == Move(Wallet(user, c), Pool(c, TradeHold), held);
      PlaceExecuted(db, Plan(cfg, op, RowOf(db, op)).draft, user, c, held, o);
    } else {
      PlaceStops(cfg, db, op);
    }
  }

  lemma PlaceStops(cfg: Config, db: Db, op: Op)
    requires ConfigOk(cfg) && op.PlaceLimit? && ResolvePair(cfg, op.pair).Err?
    ensures Plan(cfg, op, RowOf(db, op)) == Stop(Failed(ResolvePair(cfg, op.pair).error))
  {
    hide ResolvePair;
  }

  lemma PlacePlan(cfg: Config, user: UserId, pair: string, side: Side, quantity: nat, limitPrice: nat) returns (o: Order)
    requires ConfigOk(cfg) && ResolvePair(cfg, pair).Ok?
    ensures var (base, quote) := ResolvePair(cfg, pair).value;
            var qty, price := RoundTo(quantity, cfg.decimals[base]), RoundTo(limitPrice, cfg.decimals[quote]);
            var (c, held) := if side == Sell then (base, qty) else (quote, QuoteAmount(qty, price, cfg.decimals[quote]));
            && Plan(cfg, PlaceLimit(user, pair, side, quantity, limitPrice), NoRow) ==
                 Go(Draft(TradeHoldEntry, NoRef, Move(Wallet(user, c), Pool(c, TradeHold), held), InsertHeld(o), None))
            && o.quantity == qty && o.limitPrice == Some(price)
            && forall hold :: StoredAs(o.(holdEntry := Some(hold)), user, pair, side, qty, price, hold)
  {
    hide Move, SplitPair, RoundTo, QuoteAmount, ResolvePair, JoinPair;
    ResolvedCodes(cfg, pair);
    var (base, quote) := ResolvePair(cfg, pair).value;
    RoundToIdempotent(quantity, cfg.decimals[base]);
    o := PlanPlace(cfg, user, pair, side, quantity, limitPrice).draft.change.order;
  }

  lemma PlaceExecuted(db: Db, draft: Draft, user: UserId, c: Code, held: int, o: Order)
    requires IndexOk(db.books) && NoDebt(db.books) && LegsKnown(db.books.index, draft.legs)
    requires draft == Draft(TradeHoldEntry, NoRef, Move(Wallet(user, c), Pool(c, TradeHold), held), InsertHeld(o), None)
    requires o.limitPrice.Some? && o.limitPrice.value >= 0 && (held > 0 ==> o.quantity > 0)
    ensures var (after, outcome) := Execute(db, draft);
            if held <= 0 then Invalidated(outcome) && after == db
            else if BalanceAt(db.books, Wallet(user, c)) < Sig20(held) then
              Overdraws(db.books, outcome, Wallet(user, c)) && after == db
            else if o.limitPrice.value == 0 then outcome == Failed(CheckViolation) && after == db
            else
              && outcome == Done(|db.books.journal|)
              && Moves(db, after, TradeHoldEntry, NoRef, MoveAmounts(Wallet(user, c), Pool(c, TradeHold), held))
              && after.orders == db.orders + [o.(holdEntry := Some(|db.books.journal|))]
              && after.requests == db.requests && after.outbox == db.outbox
  {
    hide IndexOk, NoDebt, Execute, Moves, Move, MoveAmounts, Sig20, BalanceAt;
    MoveDecided(db, draft, Wallet(user, c), Pool(c, TradeHold), held);
  }

  lemma QuoteOfNothing(quantity: nat, price: nat, qd: nat)
    requires qd <= MAX_PLACES
    ensures QuoteAmount(quantity, price, qd) > 0 ==> quantity > 0 && price > 0
  {
    QuoteAmountSign(quantity, price, qd);
  }

  // ---------------------------------------------------------------- market orders

  /** The order stored for a market order: filled at once, its price the rate to the quote currency's places. */
  predicate StoredFilled(o: Order, user: UserId, pair: string, side: Side, qty: int, rate: Rate, at: int,
                         decimals: nat, fill: nat)
    requires decimals <= MAX_PLACES
  {
    && o.user == user && SplitPair(o.pair) == SplitPair(pair) && o.side == side && o.kind == Market
    && o.quantity == qty && o.limitPrice.None? && o.status == Filled && o.holdEntry.None?
    && o.fillEntry == Some(fill) && o.filledAt == Some(at)
    && o.filledPrice.Some?
    && Within(o.filledPrice.value as real, AsReal(rate) * 100_000_000.0, Half(decimals))
  }

  /** What a market order does: a buyer pays for the quantity, a seller is paid for it. */
  function MarketAmounts(user: UserId, side: Side, base: Code, quote: Code, qty: int, cost: int): map<AccountKey, int> {
    if side == Buy then SwapAmounts(Wallet(user, quote), cost, user, base, qty)
    else SwapAmounts(Wallet(user, base), qty, user, quote, cost)
  }

  /** A market order exchanges the rounded quantity for its price at the rate, and stores a filled order that says so. */
  lemma MarketPromise(cfg: Config, db: Db, user: UserId, pair: string, side: Side, quantity: nat, rate: Option<Rate>, at: int)
    returns (qty: int, cost: int)
    requires Sound(cfg, db)
    requires var op := MarketOrder(user, pair, side, quantity, rate, at); Covered(db, Plan(cfg, op, RowOf(db, op)))
    ensures ResolvePair(cfg, pair).Ok? && rate.Some? ==>
              var (base, quote) := SplitPair(pair).value;
              && base in cfg.decimals && quote in cfg.decimals && HalfEvenTo(quantity, cfg.decimals[base], qty)
              && Near(cost, qty as real * AsReal(rate.value), cfg.decimals[quote])
    ensures var (after, outcome) := Apply(cfg, db, MarketOrder(user, pair, side, quantity, rate, at));
            if ResolvePair(cfg, pair).Err? then outcome == Failed(ResolvePair(cfg, pair).error) && after == db
            else if rate.None? then outcome == Failed(NotFound) && after == db
            else
              var (base, quote) := SplitPair(pair).value;
              var (c, paid) := if side == Buy then (quote, cost) else (base, qty);
              if qty == 0 || cost == 0 then Invalidated(outcome) && after == db
              else if BalanceAt(db.books, Wallet(user, c)) < Sig20(paid) then
                Overdraws(db.books, outcome, Wallet(user, c)) && after == db
              else
                && outcome == Done(|db.books.journal|)
                && Moves(db, after, TradeEntry, NoRef, MarketAmounts(user, side, base, quote, qty, cost))
                && |after.orders| == |db.orders| + 1 && db.orders <= after.orders
                && StoredFilled(Last(after.orders), user, pair, side, qty, rate.value, at, cfg.decimals[quote],
                                |db.books.journal|)
                && after.requests == db.requests && after.outbox == db.outbox + [Event(OrderFilled, |db.orders|)]
  {
    hide Sound, Plan, IndexOk, NoDebt, Execute, Moves, SplitPair, RoundTo, MarketAmount, HalfEvenTo, ResolvePair, Sig20, BalanceAt,
      AsReal, Half, StoredFilled, MarketAmounts, MarketLegs;
    SoundParts(cfg, db);
    qty, cost := 0, 0;
    ResolvedCodes(cfg, pair);
    var op := MarketOrder(user, pair, side, quantity, rate, at);
    if ResolvePair(cfg, pair).Ok? && rate.Some? {
      var (base, quote) := SplitPair(pair).value;
      var bd, qd := cfg.decimals[base], cfg.decimals[quote];
      qty := RoundTo(quantity, bd);
      RoundToIff(quantity, bd, qty);
      RoundToSign(quantity, bd);
      cost := MarketAmount(qty, rate.value, qd);
      MarketAmountNear(qty, rate.value, qd);
      var o := MarketPlan(cfg, user, pair, side, quantity, rate.value, at);
      assert op == MarketOrder(user, pair, side, quantity, Some(rate.value), at);
      MarketExecuted(db, Plan(cfg, op, RowOf(db, op)).draft, user, side, base, quote, qty, cost, o);
    } else {
      MarketStops(cfg, db, op);
    }
  }

  lemma MarketStops(cfg: Config, db: Db, op: Op)
    requires ConfigOk(cfg) && op.MarketOrder? && (ResolvePair(cfg, op.pair).Err? || op.rate.None?)
    ensures Plan(cfg, op, RowOf(db, op)) ==
            Stop(Failed(if ResolvePair(cfg, op.pair).Err? then ResolvePair(cfg, op.pair).error else NotFound))
  {
    hide ResolvePair;
  }

  function MarketLegs(user: UserId, side: Side, base: Code, quote: Code, qty: int, cost: int): seq<Leg> {
    if side == Buy then Swap(Wallet(user, quote), cost, user, base, qty) else Swap(Wallet(user, base), qty, user, quote, cost)
  }

  lemma MarketPlan(cfg: Config, user: UserId, pair: string, side: Side, quantity: nat, rate: Rate, at: int) returns (o: Order)
    requires ConfigOk(cfg) && ResolvePair(cfg, pair).Ok?
    ensures var (base, quote) := ResolvePair(cfg, pair).value;
            var qty := RoundTo(quantity, cfg.decimals[base]);
            && Plan(cfg, MarketOrder(user, pair, side, quantity, Some(rate), at), NoRow) ==
                 Go(Draft(TradeEntry, NoRef,
                          MarketLegs(user, side, base, quote, qty, MarketAmount(qty, rate, cfg.decimals[quote])),
                          InsertFilled(o), Some(OrderFilled)))
            && o.quantity == qty && o.limitPrice.None?
            && forall fill :: StoredFilled(o.(fillEntry := Some(fill)), user, pair, side, qty, rate, at, cfg.decimals[quote], fill)
  {
    hide Swap, SplitPair, RoundTo, MarketAmount, ResolvePair, JoinPair, FixedRate, AsReal, Half;
    ResolvedCodes(cfg, pair);
    var (base, quote) := ResolvePair(cfg, pair).value;
    FixedRateNear(rate, cfg.decimals[quote]);
    o := PlanMarket(cfg, user, pair, side, quantity, Some(rate), at).draft.change.order;
  }

  lemma MarketExecuted(db: Db, draft: Draft, user: UserId, side: Side, base: Code, quote: Code, qty: int, cost: int, o: Order)
    requires IndexOk(db.books) && NoDebt(db.books) && LegsKnown(db.books.index, draft.legs) && base != quote
    requires draft == Draft(TradeEntry, NoRef, MarketLegs(user, side, base, quote, qty, cost), InsertFilled(o), Some(OrderFilled))
    requires o.quantity == qty && o.limitPrice.None?
    ensures var (after, outcome) := Execute(db, draft);
            var (c, paid) := if side == Buy then (quote, cost) else (base, qty);
            if qty <= 0 || cost <= 0 then Invalidated(outcome) && after == db
            else if BalanceAt(db.books, Wallet(user, c)) < Sig20(paid) then
              Overdraws(db.books, outcome, Wallet(user, c)) && after == db
            else
              && outcome == Done(|db.books.journal|)
              && Moves(db, after, TradeEntry, NoRef, MarketAmounts(user, side, base, quote, qty, cost))
              && after.orders == db.orders + [o.(fillEntry := Some(|db.books.journal|))]
              && after.requests == db.requests && after.outbox == db.outbox + [Event(OrderFilled, |db.orders|)]
  {
    hide IndexOk, NoDebt, Execute, Moves, Swap, SwapAmounts, Sig20, BalanceAt;
    if side == Buy {
      SwapDecided(db, draft, Wallet(user, quote), cost, user, base, qty);
    } else {
      SwapDecided(db, draft, Wallet(user, base), qty, user, quote, cost);
    }
  }

  // ---------------------------------------------------------------- conversions

  /** A converted amount: half a target unit around amount times rate less the spread, up to two roundings. */
  predicate ConvertedNear(got: int, paid: nat, rate: Rate, spreadBps: nat, decimals: nat)
    requires decimals <= MAX_PLACES
  {
    var exact := Exact(paid, AsReal(rate), spreadBps);
    exact * LOW - Half(decimals) <= got as real <= exact * HIGH + Half(decimals)
  }

  /** A spread above 100 percent leaves nothing to pay out. */
  lemma NothingLeft(units: nat, rate: Rate, spreadBps: nat, decimals: nat)
    requires decimals <= MAX_PLACES && spreadBps > 10_000
    ensures ConvertedAmount(units, rate, spreadBps, decimals) <= 0
  {
    hide Sig20, HalfEven, Pow10;
    MulPositive(rate.coefficient, spreadBps - 10_000);
    assert rate.coefficient * (10_000 - spreadBps) == -(rate.coefficient * (spreadBps - 10_000));
    var c := NetRate(rate, spreadBps).0;
    Sig20Sign(rate.coefficient * (10_000 - spreadBps));
    MulPositive(units, -c);
    assert units * c == -(units * -c);
    Sig20Sign(units * c);
    HalfEvenNegative(Sig20(units * c), Pow10(rate.places + 4 + (MAX_PLACES - decimals)), Pow10(MAX_PLACES - decimals));
  }

  lemma HalfEvenNegative(n: int, d: int, step: int)
    requires n <= 0 && d > 0 && step > 0
    ensures HalfEven(n, d) * step <= 0
  {
    HalfEvenIff(n, d, HalfEven(n, d));
    hide HalfEven;
    var h := HalfEven(n, d);
    if h > 0 {
      MulMonotone(d, 1, h);
      assert false;
    }
    MulPositive(-h, step);
    assert h * step == -(-h * step);
  }

  /** A conversion takes the rounded amount and pays it at the rate less the configured spread. */
  lemma ConvertPromise(cfg: Config, db: Db, user: UserId, from: Code, to: Code, amount: nat, rate: Option<Rate>)
    returns (paid: int, got: int)
    requires Sound(cfg, db)
    requires var op := Convert(user, from, to, amount, rate); Covered(db, Plan(cfg, op, RowOf(db, op)))
    ensures Upper(from) in cfg.decimals && Upper(to) in cfg.decimals && rate.Some? ==>
              && paid >= 0 && HalfEvenTo(amount, cfg.decimals[Upper(from)], paid)
              && if cfg.spreadBps > 10_000 then got <= 0
                 else got >= 0 && ConvertedNear(got, paid, rate.value, cfg.spreadBps, cfg.decimals[Upper(to)])
    ensures var f, t, (after, outcome) := Upper(from), Upper(to), Apply(cfg, db, Convert(user, from, to, amount, rate));
            if f !in cfg.decimals || t !in cfg.decimals then outcome == Failed(NotFound) && after == db
            else if f == t then outcome == Failed(Unprocessable) && after == db
            else if rate.None? then outcome == Failed(NotFound) && after == db
            else if paid <= 0 || got <= 0 then Invalidated(outcome) && after == db
            else if BalanceAt(db.books, Wallet(user, f)) < Sig20(paid) then
              Overdraws(db.books, outcome, Wallet(user, f)) && after == db
            else
              && outcome == Done(|db.books.journal|)
              && Moves(db, after, FxConvertEntry, NoRef, SwapAmounts(Wallet(user, f), paid, user, t, got))
              && after.orders == db.orders && after.requests == db.requests
              && after.outbox == db.outbox + [Event(FxConverted, |db.books.journal|)]
    ensures Upper(from) in cfg.decimals && Upper(to) in cfg.decimals && rate.Some? ==>
              got == ConvertedAmount(paid, rate.value, cfg.spreadBps, cfg.decimals[Upper(to)])
  {
    hide Sound, IndexOk, NoDebt, Execute, Moves, Swap, SwapAmounts, RoundTo, ConvertedAmount, HalfEvenTo, Upper, Sig20, BalanceAt,
      Exact, AsReal, Half;
    SoundParts(cfg, db);
    paid, got := 0, 0;
    var f, t := Upper(from), Upper(to);
    if f in cfg.decimals && t in cfg.decimals && rate.Some? {
      paid := RoundTo(amount, cfg.decimals[f]);
      RoundToIff(amount, cfg.decimals[f], paid);
      RoundToSign(amount, cfg.decimals[f]);
      got := ConvertedAmount(paid, rate.value, cfg.spreadBps, cfg.decimals[t]);
      if cfg.spreadBps > 10_000 {
        NothingLeft(paid, rate.value, cfg.spreadBps, cfg.decimals[t]);
      } else {
        ConversionWithin(paid, rate.value, cfg.spreadBps, cfg.decimals[t]);
      }
      if f != t {
        var op := Convert(user, from, to, amount, rate);
        SwapDecided(db, Plan(cfg, op, RowOf(db, op)).draft, Wallet(user, f), paid, user, t, got);
      }
    }
  }

  /**
   Converting an amount and later, in whatever state, all of what it paid back again, both at one snapshot's
   prices: the two entries together leave the wallets with at most the two half units of rounding more.
   */
  lemma ConvertAndBack(cfg: Config, first: Db, second: Db, user: UserId, from: Code, to: Code, amount: nat, a: Rate, b: Rate)
    returns (paid: int, got: int, back: int)
    requires Sound(cfg, first) && Sound(cfg, second) && cfg.spreadBps > 0 && a.coefficient > 0 && b.coefficient > 0
    requires var op := Convert(user, from, to, amount, Some(Ratio(a, b)));
             Covered(first, Plan(cfg, op, RowOf(first, op))) && Apply(cfg, first, op).1.Done?
    ensures got > 0 && Upper(from) in cfg.decimals && Upper(to) in cfg.decimals
    ensures var op := Convert(user, from, to, amount, Some(Ratio(a, b)));
            Moves(first, Apply(cfg, first, op).0, FxConvertEntry, NoRef,
                  SwapAmounts(Wallet(user, Upper(from)), paid, user, Upper(to), got))
    ensures var op := Convert(user, to, from, got, Some(Ratio(b, a)));
            Covered(second, Plan(cfg, op, RowOf(second, op))) && Apply(cfg, second, op).1.Done? ==>
              && Moves(second, Apply(cfg, second, op).0, FxConvertEntry, NoRef,
                       SwapAmounts(Wallet(user, Upper(to)), got, user, Upper(from), back))
              && back as real <=
                 paid as real + Half(cfg.decimals[Upper(to)]) * ExactRate(b, a) + Half(cfg.decimals[Upper(from)])
  {
    hide Sound, Apply, Plan, Covered, Moves, SwapAmounts, Ratio, ConvertedAmount, Upper, Half, ExactRate, HalfEvenTo, ConvertedNear, BalanceAt,
      Sig20, RoundTo;
    SoundParts(cfg, first);
    paid, got := ConvertPromise(cfg, first, user, from, to, amount, Some(Ratio(a, b)));
    back := 0;
    var op := Convert(user, to, from, got, Some(Ratio(b, a)));
    var f, t := cfg.decimals[Upper(from)], cfg.decimals[Upper(to)];
    if Covered(second, Plan(cfg, op, RowOf(second, op))) && Apply(cfg, second, op).1.Done? {
      var all;
      all, back := ConvertPromise(cfg, second, user, to, from, got, Some(Ratio(b, a)));
      ConvertedRounded(paid, Ratio(a, b), cfg.spreadBps, t);
      RoundToIff(got, t, all);
      RoundTripGainsAtMostRounding(paid, a, b, cfg.spreadBps, f, t);
    }
  }
}
