/** Every operation keeps the invariant. */
module Preservation {
  import opened Wrappers
  import opened Decimals
  import opened Ledger
  import opened LedgerLaws
  import opened Trading
  import opened System
  import opened Invariant
  import opened Effects

  // ---------------------------------------------------------------- the shape of a plan

  /** Legs that leave the hold pools alone and only ever add to fees. */
  ghost predicate Neutral(legs: seq<Leg>) {
    forall i :: 0 <= i < |legs| ==>
      && legs[i].key.kind != TradeHold && legs[i].key.kind != WithdrawalPending
      && (legs[i].key.kind == Fees ==> legs[i].direction == Credit)
  }

  /** A plan's entry, legs and notice are the ones its row change calls for. */
  ghost predicate Fits(cfg: Config, db: Db, draft: Draft)
    requires ConfigOk(cfg)
  {
    match draft.change
    case NoChange =>
      && draft.ref == NoRef && Neutral(draft.legs)
      && draft.notice.Some? && draft.notice.value != OrderFilled && AnnouncedKind(draft.notice.value) == draft.kind
      && draft.kind in {DepositEntry, TransferEntry, FxConvertEntry}
    case InsertFilled(o) =>
      && draft.kind == TradeEntry && draft.ref == NoRef && Neutral(draft.legs) && draft.notice == Some(OrderFilled)
      && o.kind == Market && o.status == Filled && o.limitPrice.None? && o.holdEntry.None?
      && o.filledPrice.Some? && o.filledAt.Some? && PairOk(cfg, o)
    case InsertHeld(o) =>
      && draft.kind == TradeHoldEntry && draft.ref == NoRef && draft.notice.None?
      && o.kind == Limit && o.status == Open && o.limitPrice.Some? && PairOk(cfg, o) && Held(cfg, o).Ok?
      && o.fillEntry.None? && o.filledPrice.None? && o.filledAt.None?
      && draft.legs == HoldLegs(cfg, o)
    case MarkFilled(id, price, at) =>
      && id < |db.orders| && db.orders[id].status == Open && db.orders[id].kind == Limit
      && draft.kind == TradeEntry && draft.ref == OrderRef(id) && draft.notice == Some(OrderFilled)
      && db.orders[id].limitPrice == Some(price) && PairOk(cfg, db.orders[id])
      && draft.legs == FillLegs(cfg, db.orders[id])
    case MarkCancelled(id) =>
      && id < |db.orders| && db.orders[id].status == Open && Held(cfg, db.orders[id]).Ok?
      && draft.kind == TradeReleaseEntry && draft.ref == OrderRef(id) && draft.notice.None?
      && draft.legs == ReleaseLegs(cfg, db.orders[id])
    case InsertRequest(user, c, amount) =>
      && draft.kind == WithdrawalHoldEntry && draft.ref == NoRef && draft.notice.None?
      && draft.legs == Move(Wallet(user, c), Pool(c, WithdrawalPending), amount)
    case Decide(id, status, admin, at) =>
      && id < |db.requests| && db.requests[id].status == Pending && status != Pending
      && draft.ref == RequestRef(id)
      && draft.kind == (if status == Approved then WithdrawalSettleEntry else WithdrawalReleaseEntry)
      && draft.notice == Some(if status == Approved then WithdrawalApproved else WithdrawalRejected)
      && draft.legs == DecisionLegs(db.requests[id].(status := status))
  }

  /** A resolved pair, joined and stored, resolves to the same two currencies. */
  lemma ResolvedPairStored(cfg: Config, pair: string)
    requires ResolvePair(cfg, pair).Ok?
    ensures var (b, q) := ResolvePair(cfg, pair).value;
            IsCode(b) && IsCode(q) && SplitPair(JoinPair(b, q)) == Some((b, q))
  {
    SplitPairIff(pair);
    var (b, q) := ResolvePair(cfg, pair).value;
    SplitUndoesJoin(b, q);
  }

  lemma PlacedOrderFits(cfg: Config, db: Db, user: UserId, pair: string, side: Side, quantity: nat, limitPrice: nat)
    requires ConfigOk(cfg)
    requires PlanPlace(cfg, user, pair, side, quantity, limitPrice).Go?
    ensures Fits(cfg, db, PlanPlace(cfg, user, pair, side, quantity, limitPrice).draft)
  {
    ResolvedPairStored(cfg, pair);
    var (b, q) := ResolvePair(cfg, pair).value;
    RoundToIdempotent(quantity, cfg.decimals[b]);
  }

  lemma SwapNeutral(user: UserId, from: Code, fromUnits: int, to: Code, toUnits: int)
    ensures Neutral(Swap(Wallet(user, from), fromUnits, user, to, toUnits))
  {
  }

  lemma MarketOrderFits(cfg: Config, db: Db, user: UserId, pair: string, side: Side, quantity: nat,
                        rate: Option<Rate>, at: int)
    requires ConfigOk(cfg)
    requires PlanMarket(cfg, user, pair, side, quantity, rate, at).Go?
    ensures Fits(cfg, db, PlanMarket(cfg, user, pair, side, quantity, rate, at).draft)
  {
    ResolvedPairStored(cfg, pair);
    var (b, q) := ResolvePair(cfg, pair).value;
    var qty := RoundTo(quantity, cfg.decimals[b]);
    var cost := MarketAmount(qty, rate.value, cfg.decimals[q]);
    RoundToIdempotent(quantity, cfg.decimals[b]);
    SwapNeutral(user, q, cost, b, qty);
    SwapNeutral(user, b, qty, q, cost);
  }

  lemma FillFits(cfg: Config, db: Db, id: nat, rate: Option<Rate>, at: int)
    requires ConfigOk(cfg) && id < |db.orders| && PairOk(cfg, db.orders[id])
    requires PlanFill(cfg, id, rate, at, OrderRow(db.orders[id])).Go?
    ensures Fits(cfg, db, PlanFill(cfg, id, rate, at, OrderRow(db.orders[id])).draft)
  {
    var o := db.orders[id];
    var (b, q) := SplitPair(o.pair).value;
    HoldIsFillAmount(o.side, o.quantity, o.limitPrice.value, cfg.decimals[b], cfg.decimals[q]);
  }

  lemma TransferFits(cfg: Config, db: Db, sender: UserId, recipient: Option<UserId>, code: Code, amount: nat)
    requires ConfigOk(cfg)
    requires PlanTransfer(cfg, sender, recipient, code, amount).Go?
    ensures Fits(cfg, db, PlanTransfer(cfg, sender, recipient, code, amount).draft)
  {
  }

  lemma DepositFits(cfg: Config, db: Db, user: UserId, code: Code, amount: nat)
    requires ConfigOk(cfg)
    requires PlanDeposit(cfg, user, code, amount).Go?
    ensures Fits(cfg, db, PlanDeposit(cfg, user, code, amount).draft)
  {
  }

  lemma ConvertFits(cfg: Config, db: Db, user: UserId, from: Code, to: Code, amount: nat, rate: Option<Rate>)
    requires ConfigOk(cfg)
    requires PlanConvert(cfg, user, from, to, amount, rate).Go?
    ensures Fits(cfg, db, PlanConvert(cfg, user, from, to, amount, rate).draft)
  {
    var f, t := GetCurrency(cfg, from).value, GetCurrency(cfg, to).value;
    var fromUnits := RoundTo(amount, cfg.decimals[f]);
    SwapNeutral(user, f, fromUnits, t, ConvertedAmount(fromUnits, rate.value, cfg.spreadBps, cfg.decimals[t]));
  }

  /** Every plan made from the stored rows fits them. */
  lemma PlanFits(cfg: Config, db: Db, op: Op)
    requires ConfigOk(cfg) && (forall i :: 0 <= i < |db.orders| ==> PairOk(cfg, db.orders[i]))
    requires Plan(cfg, op, RowOf(db, op)).Go?
    ensures Fits(cfg, db, Plan(cfg, op, RowOf(db, op)).draft)
  {
    match op
    case Deposit(user, code, amount) => DepositFits(cfg, db, user, code, amount);
    case Transfer(sender, recipient, code, amount) => TransferFits(cfg, db, sender, recipient, code, amount);
    case Convert(user, from, to, amount, rate) => ConvertFits(cfg, db, user, from, to, amount, rate);
    case MarketOrder(user, pair, side, quantity, rate, at) =>
      MarketOrderFits(cfg, db, user, pair, side, quantity, rate, at);
    case PlaceLimit(user, pair, side, quantity, price) =>
      PlacedOrderFits(cfg, db, user, pair, side, quantity, price);
    case TryFill(id, rate, at) => FillFits(cfg, db, id, rate, at);
    case CancelOrder(_, _) =>
    case RequestWithdrawal(_, _, _) =>
    case Approve(_, _, _) =>
    case Reject(_, _, _) =>
  }

  // ---------------------------------------------------------------- pools

  lemma {:induction false} NeutralNet(legs: seq<Leg>, key: AccountKey)
    requires Neutral(legs)
    ensures key.kind == TradeHold || key.kind == WithdrawalPending ==> NetLegs(legs, key) == 0
  {
    if legs != [] {
      NeutralNet(Init(legs), key);
    }
  }

  lemma SumHeldAppend(cfg: Config, orders: seq<Order>, o: Order, c: Code)
    requires ConfigOk(cfg)
    ensures SumHeld(cfg, orders + [o], c) == SumHeld(cfg, orders, c) + HeldIn(cfg, o, c)
  {
    assert Init(orders + [o]) == orders;
  }

  lemma {:induction false} SumHeldUpdate(cfg: Config, orders: seq<Order>, i: nat, o: Order, c: Code)
    requires ConfigOk(cfg) && i < |orders|
    ensures SumHeld(cfg, orders[i := o], c) ==
            SumHeld(cfg, orders, c) - HeldIn(cfg, orders[i], c) + HeldIn(cfg, o, c)
  {
    if i < |orders| - 1 {
      assert Init(orders[i := o]) == Init(orders)[i := o];
      SumHeldUpdate(cfg, Init(orders), i, o, c);
    } else {
      assert Init(orders[i := o]) == Init(orders);
    }
  }

  lemma SumPendingAppend(requests: seq<Request>, r: Request, c: Code)
    ensures SumPending(requests + [r], c) == SumPending(requests, c) + PendingIn(r, c)
  {
    assert Init(requests + [r]) == requests;
  }

  lemma {:induction false} SumPendingUpdate(requests: seq<Request>, i: nat, r: Request, c: Code)
    requires i < |requests|
    ensures SumPending(requests[i := r], c) == SumPending(requests, c) - PendingIn(requests[i], c) + PendingIn(r, c)
  {
    if i < |requests| - 1 {
      assert Init(requests[i := r]) == Init(requests)[i := r];
      SumPendingUpdate(Init(requests), i, r, c);
    } else {
      assert Init(requests[i := r]) == Init(requests);
    }
  }

  lemma PlacedHold(cfg: Config, o: Order, entry: nat, c: Code)
    requires ConfigOk(cfg) && Held(cfg, o).Ok? && o.status == Open
    ensures NetLegs(HoldLegs(cfg, o), Pool(c, TradeHold)) == HeldIn(cfg, o.(holdEntry := Some(entry)), c)
    ensures NetLegs(HoldLegs(cfg, o), Pool(c, WithdrawalPending)) == NetLegs(HoldLegs(cfg, o), Pool(c, Fees)) == 0
  {
    var (code, units) := Held(cfg, o).value;
    NetOfMove(Wallet(o.user, code), Pool(code, TradeHold), units, Pool(c, TradeHold));
    NetOfMove(Wallet(o.user, code), Pool(code, TradeHold), units, Pool(c, WithdrawalPending));
    NetOfMove(Wallet(o.user, code), Pool(code, TradeHold), units, Pool(c, Fees));
  }

  lemma ReleasedHold(cfg: Config, o: Order, c: Code)
    requires ConfigOk(cfg) && Held(cfg, o).Ok? && o.status == Open
    ensures NetLegs(ReleaseLegs(cfg, o), Pool(c, TradeHold)) == -HeldIn(cfg, o, c)
    ensures NetLegs(ReleaseLegs(cfg, o), Pool(c, WithdrawalPending)) == NetLegs(ReleaseLegs(cfg, o), Pool(c, Fees)) == 0
  {
    var (code, units) := Held(cfg, o).value;
    NetOfMove(Pool(code, TradeHold), Wallet(o.user, code), units, Pool(c, TradeHold));
    NetOfMove(Pool(code, TradeHold), Wallet(o.user, code), units, Pool(c, WithdrawalPending));
    NetOfMove(Pool(code, TradeHold), Wallet(o.user, code), units, Pool(c, Fees));
  }

  /** A fill takes exactly the order's own hold out of the pool. */
  lemma FilledHold(cfg: Config, o: Order, c: Code)
    requires ConfigOk(cfg) && PairOk(cfg, o) && o.limitPrice.Some? && o.status == Open
    ensures NetLegs(FillLegs(cfg, o), Pool(c, TradeHold)) == -HeldIn(cfg, o, c)
    ensures NetLegs(FillLegs(cfg, o), Pool(c, WithdrawalPending)) == NetLegs(FillLegs(cfg, o), Pool(c, Fees)) == 0
  {
    var (b, q) := SplitPair(o.pair).value;
    var price := o.limitPrice.value;
    var cost := QuoteAmount(o.quantity, price, cfg.decimals[q]);
    HoldIsFillAmount(o.side, o.quantity, price, cfg.decimals[b], cfg.decimals[q]);
    var source, paid, to, got :=
      if o.side == Buy then q else b, if o.side == Buy then cost else o.quantity,
      if o.side == Buy then b else q, if o.side == Buy then o.quantity else cost;
    assert FillLegs(cfg, o) == Swap(Pool(source, TradeHold), paid, o.user, to, got);
    assert Held(cfg, o) == Ok((source, paid));
    NetOfSwap(Pool(source, TradeHold), paid, o.user, to, got, Pool(c, TradeHold));
    NetOfSwap(Pool(source, TradeHold), paid, o.user, to, got, Pool(c, WithdrawalPending));
    NetOfSwap(Pool(source, TradeHold), paid, o.user, to, got, Pool(c, Fees));
  }

  /** The hold pool moves by what the open orders' holds move by. */
  lemma HoldPoolMoves(cfg: Config, db: Db, draft: Draft, entry: nat, c: Code)
    requires ConfigOk(cfg) && Fits(cfg, db, draft)
    ensures NetLegs(draft.legs, Pool(c, TradeHold)) ==
            SumHeld(cfg, ChangeOrders(db.orders, draft.change, entry), c) - SumHeld(cfg, db.orders, c)
  {
    var key := Pool(c, TradeHold);
    var orders := ChangeOrders(db.orders, draft.change, entry);
    match draft.change
    case InsertHeld(o) =>
      PlacedHold(cfg, o, entry, c);
      SumHeldAppend(cfg, db.orders, o.(holdEntry := Some(entry)), c);
    case InsertFilled(o) =>
      NeutralNet(draft.legs, key);
      SumHeldAppend(cfg, db.orders, o.(fillEntry := Some(entry)), c);
    case MarkFilled(id, price, at) =>
      FilledHold(cfg, db.orders[id], c);
      SumHeldUpdate(cfg, db.orders, id, orders[id], c);
    case MarkCancelled(id) =>
      ReleasedHold(cfg, db.orders[id], c);
      SumHeldUpdate(cfg, db.orders, id, orders[id], c);
    case InsertRequest(user, code, amount) =>
      NetOfMove(Wallet(user, code), Pool(code, WithdrawalPending), amount, key);
    case Decide(id, status, admin, at) =>
      var r := db.requests[id];
      NetOfMove(Pool(r.currency, WithdrawalPending),
                if status == Approved then Pool(r.currency, Treasury) else Wallet(r.user, r.currency), r.amount, key);
    case NoChange =>
      NeutralNet(draft.legs, key);
  }

  /** The withdrawal pool moves by what the pending requests move by. */
  lemma PendingPoolMoves(cfg: Config, db: Db, draft: Draft, entry: nat, c: Code)
    requires ConfigOk(cfg) && Fits(cfg, db, draft)
    ensures NetLegs(draft.legs, Pool(c, WithdrawalPending)) ==
            SumPending(ChangeRequests(db.requests, draft.change, entry), c) - SumPending(db.requests, c)
  {
    var key := Pool(c, WithdrawalPending);
    var requests := ChangeRequests(db.requests, draft.change, entry);
    match draft.change
    case InsertHeld(o) => PlacedHold(cfg, o, entry, c);
    case MarkFilled(id, price, at) => FilledHold(cfg, db.orders[id], c);
    case MarkCancelled(id) => ReleasedHold(cfg, db.orders[id], c);
    case InsertRequest(user, code, amount) =>
      NetOfMove(Wallet(user, code), Pool(code, WithdrawalPending), amount, key);
      SumPendingAppend(db.requests, Last(requests), c);
    case Decide(id, status, admin, at) =>
      var r := db.requests[id];
      NetOfMove(Pool(r.currency, WithdrawalPending),
                if status == Approved then Pool(r.currency, Treasury) else Wallet(r.user, r.currency), r.amount, key);
      SumPendingUpdate(db.requests, id, requests[id], c);
    case NoChange => NeutralNet(draft.legs, key);
    case InsertFilled(_) => NeutralNet(draft.legs, key);
  }

  lemma FeesOnlyGrow(cfg: Config, db: Db, draft: Draft, c: Code)
    requires ConfigOk(cfg) && Fits(cfg, db, draft) && forall leg :: leg in draft.legs ==> leg.units > 0
    ensures NetLegs(draft.legs, Pool(c, Fees)) >= 0
  {
    var key := Pool(c, Fees);
    match draft.change
    case InsertHeld(o) => PlacedHold(cfg, o, 0, c);
    case MarkFilled(id, price, at) => FilledHold(cfg, db.orders[id], c);
    case MarkCancelled(id) => ReleasedHold(cfg, db.orders[id], c);
    case InsertRequest(user, code, amount) =>
      NetOfMove(Wallet(user, code), Pool(code, WithdrawalPending), amount, key);
    case Decide(id, status, admin, at) =>
      var r := db.requests[id];
      NetOfMove(Pool(r.currency, WithdrawalPending),
                if status == Approved then Pool(r.currency, Treasury) else Wallet(r.user, r.currency), r.amount, key);
    case NoChange => FeesNet(draft.legs, key);
    case InsertFilled(_) => FeesNet(draft.legs, key);
  }

  lemma {:induction false} FeesNet(legs: seq<Leg>, key: AccountKey)
    requires Neutral(legs) && key.kind == Fees && forall leg :: leg in legs ==> leg.units > 0
    ensures NetLegs(legs, key) >= 0
  {
    if legs != [] {
      assert Last(legs) in legs;
      assert forall leg :: leg in Init(legs) ==> leg in legs;
      FeesNet(Init(legs), key);
    }
  }

  lemma PoolsKept(cfg: Config, db: Db, draft: Draft, after: Db)
    requires ConfigOk(cfg) && BooksOk(db.books) && PoolsOk(cfg, db) && Fits(cfg, db, draft) && Moved(db, draft, after)
    ensures PoolsOk(cfg, after)
  {
    forall c: Code
      ensures BalanceAt(after.books, Pool(c, TradeHold)) == SumHeld(cfg, after.orders, c)
      ensures BalanceAt(after.books, Pool(c, WithdrawalPending)) == SumPending(after.requests, c)
      ensures BalanceAt(after.books, Pool(c, Fees)) >= 0
    {
      BalanceMoves(db, draft, after, Pool(c, TradeHold));
      BalanceMoves(db, draft, after, Pool(c, WithdrawalPending));
      BalanceMoves(db, draft, after, Pool(c, Fees));
      HoldPoolMoves(cfg, db, draft, |db.books.journal|, c);
      PendingPoolMoves(cfg, db, draft, |db.books.journal|, c);
      FeesOnlyGrow(cfg, db, draft, c);
    }
  }
}
