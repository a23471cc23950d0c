/** Which operations succeed, and what pairs of entries amount to. */
module Outcomes {
  import opened Wrappers
  import opened Decimals
  import opened Ledger
  import opened LedgerLaws
  import opened Trading
  import opened System
  import opened Invariant
  import opened Effects
  import opened Preservation
  import opened Runs
  import opened PostingLaws
  import opened Reals

  // ---------------------------------------------------------------- fills, cancels, decisions

  /** A quantity at a limit price is worth more than half a unit of the quote currency. */
  predicate WorthSomething(cfg: Config, o: Order)
    requires ConfigOk(cfg) && PairOk(cfg, o) && o.limitPrice.Some?
  {
    var qd := cfg.decimals[SplitPair(o.pair).value.1];
    2 * (o.quantity * o.limitPrice.value) > Pow10(MAX_PLACES + (MAX_PLACES - qd))
  }

  /** The fill's swap is positive on both sides exactly for a BUY or an order worth something; pools pay unchecked. */
  lemma FillPostsIff(cfg: Config, b: Books, kind: EntryType, ref: Ref, o: Order)
    requires ConfigOk(cfg) && IndexOk(b) && NoDebt(b) && PairOk(cfg, o) && o.limitPrice.Some?
    requires o.quantity > 0 && o.limitPrice.value > 0 && Held(cfg, o).Ok? && Held(cfg, o).value.1 > 0
    requires LegsKnown(b.index, FillLegs(cfg, o))
    ensures Post(b, kind, ref, LinesOf(b.index, FillLegs(cfg, o))).Ok? <==> o.side == Buy || WorthSomething(cfg, o)
  {
    hide IndexOk, NoDebt, Post, Swap, LinesOf, QuoteAmount, HoldAmount, RoundTo, Sig20, Pow10, SplitPair;
    var (base, quote) := SplitPair(o.pair).value;
    var bd, qd := cfg.decimals[base], cfg.decimals[quote];
    var cost := QuoteAmount(o.quantity, o.limitPrice.value, qd);
    HoldIsFillAmount(o.side, o.quantity, o.limitPrice.value, bd, qd);
    QuoteAmountSign(o.quantity, o.limitPrice.value, qd);
    if o.side == Buy {
      SwapPostsIff(b, kind, ref, Pool(quote, TradeHold), cost, o.user, base, o.quantity);
    } else {
      SwapPostsIff(b, kind, ref, Pool(base, TradeHold), o.quantity, o.user, quote, cost);
    }
  }

  lemma FillPlan(cfg: Config, db: Db, id: nat, rate: Rate, at: int)
    requires ConfigOk(cfg) && id < |db.orders| && PairOk(cfg, db.orders[id]) && db.orders[id].limitPrice.Some?
    requires db.orders[id].status == Open && db.orders[id].kind == Limit
    requires Crossed(db.orders[id].side, rate, db.orders[id].limitPrice.value)
    ensures var op := TryFill(id, Some(rate), at);
            Plan(cfg, op, RowOf(db, op)) == Go(FillDraft(cfg, db, id, at))
  {
    hide QuoteAmount, HoldAmount, RoundTo, SplitPair, Crossed;
    FillFits(cfg, db, id, Some(rate), at);
  }

  /** An open limit order whose limit the market has reached, with the columns the fill reads. */
  predicate Fillable(cfg: Config, o: Order, rate: Rate)
    requires ConfigOk(cfg)
  {
    && o.status == Open && o.kind == Limit && PairOk(cfg, o)
    && o.quantity > 0 && o.limitPrice.Some? && o.limitPrice.value > 0
    && Held(cfg, o).Ok? && Held(cfg, o).value.1 > 0
    && Reached(o.side, rate, o.limitPrice.value)
  }

  /** In every reachable state an open order is a limit order with a price: `limitPrice!` is safe. */
  lemma OpenIsLimit(cfg: Config, db: Db, id: nat)
    requires Sound(cfg, db) && id < |db.orders| && db.orders[id].status == Open
    ensures var o := db.orders[id];
            && o.kind == Limit && PairOk(cfg, o) && o.limitPrice.Some? && o.limitPrice.value > 0
            && forall rate :: Reached(o.side, rate, o.limitPrice.value) ==> Fillable(cfg, o, rate)
  {
    assert OrderOk(cfg, db.books, id, db.orders[id]);
  }

  /** What a fill at `at` makes of the order. */
  function FilledOrder(o: Order, entry: nat, at: int): Order {
    o.(status := Filled, fillEntry := Some(entry), filledPrice := o.limitPrice, filledAt := Some(at))
  }

  /**
   A crossed open order fills -- a BUY always, a SELL exactly when quantity times limit price is worth more than
   half a quote unit.  A fill that fails leaves order, pool, journal and outbox as they were.
   */
  lemma FillSucceedsIff(cfg: Config, db: Db, id: nat, rate: Rate, at: int)
    requires Sound(cfg, db) && id < |db.orders| && Fillable(cfg, db.orders[id], rate)
    requires Covered(db, Plan(cfg, TryFill(id, Some(rate), at), RowOf(db, TryFill(id, Some(rate), at))))
    ensures var o := db.orders[id];
            var (after, outcome) := Apply(cfg, db, TryFill(id, Some(rate), at));
            if o.side == Buy || WorthSomething(cfg, o)
            then
              && outcome == Done(|db.books.journal|)
              && after.orders == db.orders[id := FilledOrder(o, |db.books.journal|, at)]
              && after.requests == db.requests
            else !outcome.Done? && after == db
  {
    hide Sound, IndexOk, NoDebt, Plan, Execute, WorthSomething, PairOk, FillLegs, Crossed, Reached, FilledOrder;
    SoundParts(cfg, db);
    CrossedIff(db.orders[id].side, rate, db.orders[id].limitPrice.value);
    FillPlan(cfg, db, id, rate, at);
    FillExecutes(cfg, db, id, at);
  }

  /** In every sound state `tryFill` fills exactly the open orders whose limit the market has reached and that are worth something. */
  lemma FillsExactly(cfg: Config, db: Db, id: nat, rate: Option<Rate>, at: int)
    requires Sound(cfg, db)
    requires Covered(db, Plan(cfg, TryFill(id, rate, at), RowOf(db, TryFill(id, rate, at))))
    ensures id < |db.orders| && db.orders[id].status == Open ==>
              PairOk(cfg, db.orders[id]) && db.orders[id].limitPrice.Some?
    ensures Apply(cfg, db, TryFill(id, rate, at)).1.Done? <==>
            && id < |db.orders| && db.orders[id].status == Open
            && rate.Some? && Reached(db.orders[id].side, rate.value, db.orders[id].limitPrice.value)
            && (db.orders[id].side == Buy || WorthSomething(cfg, db.orders[id]))
    ensures !Apply(cfg, db, TryFill(id, rate, at)).1.Done? ==> Apply(cfg, db, TryFill(id, rate, at)).0 == db
  {
    hide Sound, Plan, Apply, Covered, Crossed, Reached, WorthSomething;
    SoundParts(cfg, db);
    if id < |db.orders| && db.orders[id].status == Open {
      OpenIsLimit(cfg, db, id);
    }
    if id < |db.orders| && db.orders[id].status == Open && rate.Some?
       && Reached(db.orders[id].side, rate.value, db.orders[id].limitPrice.value) {
      FillSucceedsIff(cfg, db, id, rate.value, at);
    } else {
      if id < |db.orders| && db.orders[id].status == Open && rate.Some? {
        CrossedIff(db.orders[id].side, rate.value, db.orders[id].limitPrice.value);
      }
      UncrossedDeclines(cfg, db, id, rate, at);
    }
  }

  lemma UncrossedPlan(cfg: Config, id: nat, rate: Option<Rate>, at: int, row: Row)
    requires ConfigOk(cfg)
    requires row.OrderRow? && row.order.status == Open && rate.Some? && row.order.limitPrice.Some? ==>
               !Crossed(row.order.side, rate.value, row.order.limitPrice.value)
    ensures PlanFill(cfg, id, rate, at, row).Stop? && !PlanFill(cfg, id, rate, at, row).outcome.Done?
  {
    hide SplitPair, HoldAmount, QuoteAmount, Crossed, GetCurrency;
  }

  lemma UncrossedDeclines(cfg: Config, db: Db, id: nat, rate: Option<Rate>, at: int)
    requires ConfigOk(cfg)
    requires id < |db.orders| && db.orders[id].status == Open && rate.Some? && db.orders[id].limitPrice.Some? ==>
               !Crossed(db.orders[id].side, rate.value, db.orders[id].limitPrice.value)
    ensures Apply(cfg, db, TryFill(id, rate, at)).0 == db
    ensures !Apply(cfg, db, TryFill(id, rate, at)).1.Done?
  {
    hide PlanFill, Crossed, Execute;
    UncrossedPlan(cfg, id, rate, at, RowOf(db, TryFill(id, rate, at)));
  }

  function FillDraft(cfg: Config, db: Db, id: nat, at: int): Draft
    requires ConfigOk(cfg) && id < |db.orders| && PairOk(cfg, db.orders[id]) && db.orders[id].limitPrice.Some?
  {
    Draft(TradeEntry, OrderRef(id), FillLegs(cfg, db.orders[id]),
          MarkFilled(id, db.orders[id].limitPrice.value, at), Some(OrderFilled))
  }

  lemma FillExecutes(cfg: Config, db: Db, id: nat, at: int)
    requires ConfigOk(cfg) && IndexOk(db.books) && NoDebt(db.books) && id < |db.orders| && PairOk(cfg, db.orders[id])
    requires var o := db.orders[id];
             o.quantity > 0 && o.limitPrice.Some? && o.limitPrice.value > 0
             && Held(cfg, o).Ok? && Held(cfg, o).value.1 > 0
    requires LegsKnown(db.books.index, FillLegs(cfg, db.orders[id]))
    ensures var o := db.orders[id];
            var (after, outcome) := Execute(db, FillDraft(cfg, db, id, at));
            if o.side == Buy || WorthSomething(cfg, o)
            then
              && outcome == Done(|db.books.journal|)
              && after.orders == db.orders[id := FilledOrder(o, |db.books.journal|, at)]
              && after.requests == db.requests
            else !outcome.Done? && after == db
  {
    hide IndexOk, NoDebt, Post, PairOk, FillLegs, Held, WorthSomething;
    FillPostsIff(cfg, db.books, TradeEntry, OrderRef(id), db.orders[id]);
  }

  lemma PendingPositive(cfg: Config, db: Db, id: nat)
    requires Sound(cfg, db) && id < |db.requests|
    ensures db.requests[id].amount > 0
  {
    assert RequestOk(db.books, id, db.requests[id]);
  }

  /** A rejected request's two entries cancel out on every account; an approved one's move wallet to treasury. */
  lemma DecidedRequestNet(b: Books, i: nat, r: Request, key: AccountKey)
    requires IndexOk(b) && RequestOk(b, i, r) && r.status != Pending && key in b.index
    ensures var hold, settle := b.journal[r.holdEntry].lines, b.journal[r.settleEntry.value].lines;
            Net(hold, b.index[key]) + Net(settle, b.index[key]) ==
            if r.status == Rejected then 0
            else If(key == Pool(r.currency, Treasury), r.amount) - If(key == Wallet(r.user, r.currency), r.amount)
  {
    NetOfLegs(b, RequestLegs(r), key);
    NetOfLegs(b, DecisionLegs(r), key);
    hide IndexOk;
    var pending := Pool(r.currency, WithdrawalPending);
    NetOfMove(Wallet(r.user, r.currency), pending, r.amount, key);
    NetOfMove(pending, if r.status == Approved then Pool(r.currency, Treasury) else Wallet(r.user, r.currency),
              r.amount, key);
  }

  /** A cancelled order's hold and release cancel out on every account. */
  lemma CancelledOrderNet(cfg: Config, b: Books, i: nat, o: Order, release: nat, key: AccountKey)
    requires ConfigOk(cfg) && IndexOk(b) && OrderOk(cfg, b, i, o) && o.kind == Limit && key in b.index
    requires EntryIs(b, release, TradeReleaseEntry, OrderRef(i), ReleaseLegs(cfg, o))
    ensures Net(b.journal[o.holdEntry.value].lines, b.index[key]) + Net(b.journal[release].lines, b.index[key]) == 0
  {
    NetOfLegs(b, HoldLegs(cfg, o), key);
    NetOfLegs(b, ReleaseLegs(cfg, o), key);
    var (c, units) := Held(cfg, o).value;
    NetOfMove(Wallet(o.user, c), Pool(c, TradeHold), units, key);
    NetOfMove(Pool(c, TradeHold), Wallet(o.user, c), units, key);
  }

  /** What the order's owner pays and gets when it fills at its limit price, straight from wallet to wallet. */
  function DirectSwap(cfg: Config, o: Order): seq<Leg>
    requires ConfigOk(cfg) && PairOk(cfg, o) && o.limitPrice.Some?
  {
    var (b, q) := SplitPair(o.pair).value;
    var cost := QuoteAmount(o.quantity, o.limitPrice.value, cfg.decimals[q]);
    if o.side == Buy then Swap(Wallet(o.user, q), cost, o.user, b, o.quantity)
    else Swap(Wallet(o.user, b), o.quantity, o.user, q, cost)
  }

  /**
   The hold and the fill of an order together move every account as one direct swap at the limit price would:
   the pool ends where it was, and what was held is what was spent.
   */
  lemma FilledOrderIsSwap(cfg: Config, b: Books, i: nat, o: Order, key: AccountKey)
    requires ConfigOk(cfg) && IndexOk(b) && OrderOk(cfg, b, i, o) && o.kind == Limit && o.status == Filled
    requires key in b.index
    ensures Net(b.journal[o.holdEntry.value].lines, b.index[key]) + Net(b.journal[o.fillEntry.value].lines, b.index[key])
            == NetLegs(DirectSwap(cfg, o), key)
  {
    NetOfLegs(b, HoldLegs(cfg, o), key);
    NetOfLegs(b, FillLegs(cfg, o), key);
    hide IndexOk, EntryIs;
    var (base, quote) := SplitPair(o.pair).value;
    var cost := QuoteAmount(o.quantity, o.limitPrice.value, cfg.decimals[quote]);
    HoldIsFillAmount(o.side, o.quantity, o.limitPrice.value, cfg.decimals[base], cfg.decimals[quote]);
    var c, paid, to, got :=
      if o.side == Buy then quote else base, if o.side == Buy then cost else o.quantity,
      if o.side == Buy then base else quote, if o.side == Buy then o.quantity else cost;
    assert Held(cfg, o) == Ok((c, paid));
    NetOfMove(Wallet(o.user, c), Pool(c, TradeHold), paid, key);
    NetOfSwap(Pool(c, TradeHold), paid, o.user, to, got, key);
    NetOfSwap(Wallet(o.user, c), paid, o.user, to, got, key);
  }

  /** Placement posts the amount that any later reading of the stored row computes. */
  lemma HoldRecomputes(cfg: Config, user: UserId, pair: string, side: Side, quantity: nat, limitPrice: nat, o: Order)
    requires ConfigOk(cfg) && PlanPlace(cfg, user, pair, side, quantity, limitPrice).Go?
    requires var placed := PlanPlace(cfg, user, pair, side, quantity, limitPrice).draft.change.order;
             o.pair == placed.pair && o.side == placed.side && o.quantity == placed.quantity
             && o.limitPrice == placed.limitPrice && o.user == placed.user
    ensures Held(cfg, o).Ok?
    ensures var (c, units) := Held(cfg, o).value;
            PlanPlace(cfg, user, pair, side, quantity, limitPrice).draft.legs
            == Move(Wallet(user, c), Pool(c, TradeHold), units)
  {
    ResolvedPairStored(cfg, pair);
  }

  // ---------------------------------------------------------------- one for one

  /** The listed ids are entries of those kinds. */
  lemma {:induction false} EntriesOfSound(journal: seq<Entry>, kinds: set<EntryType>, i: nat)
    requires i < |EntriesOf(journal, kinds)|
    ensures EntriesOf(journal, kinds)[i] < |journal|
    ensures journal[EntriesOf(journal, kinds)[i]].kind in kinds
  {
    if i < |EntriesOf(Init(journal), kinds)| {
      EntriesOfSound(Init(journal), kinds, i);
    }
  }

  /** ... ascending, so each is listed once. */
  lemma {:induction false} EntriesOfAscend(journal: seq<Entry>, kinds: set<EntryType>, i: nat, j: nat)
    requires i < j < |EntriesOf(journal, kinds)|
    ensures EntriesOf(journal, kinds)[i] < EntriesOf(journal, kinds)[j]
  {
    if j < |EntriesOf(Init(journal), kinds)| {
      EntriesOfAscend(Init(journal), kinds, i, j);
    } else {
      EntriesOfSound(Init(journal), kinds, i);
    }
  }

  /** Every entry of those kinds is listed. */
  lemma {:induction false} EntriesOfComplete(journal: seq<Entry>, kinds: set<EntryType>, e: nat) returns (i: nat)
    requires e < |journal| && journal[e].kind in kinds
    ensures i < |EntriesOf(journal, kinds)| && EntriesOf(journal, kinds)[i] == e
  {
    if e < |journal| - 1 {
      i := EntriesOfComplete(Init(journal), kinds, e);
    } else {
      i := |EntriesOf(journal, kinds)| - 1;
    }
  }

  /** Outbox rows and notifying entries correspond one to one. */
  lemma OutboxBijection(db: Db)
    requires OutboxOk(db)
    ensures forall i, j :: 0 <= i < j < |db.outbox| ==>
              AnnouncedEntry(db.orders, db.outbox[i]) != AnnouncedEntry(db.orders, db.outbox[j])
    ensures forall e: nat {:trigger db.books.journal[e]} :: e < |db.books.journal| ==>
              (db.books.journal[e].kind in NOTIFYING <==>
               exists i :: 0 <= i < |db.outbox| && AnnouncedEntry(db.orders, db.outbox[i]) == Some(e))
    ensures forall i :: 0 <= i < |db.outbox| ==> AnnouncedEntry(db.orders, db.outbox[i]).Some?
  {
    var due := EntriesOf(db.books.journal, NOTIFYING);
    forall i, j | 0 <= i < j < |due| ensures due[i] < due[j] {
      EntriesOfAscend(db.books.journal, NOTIFYING, i, j);
    }
    forall e: nat | e < |db.books.journal|
      ensures db.books.journal[e].kind in NOTIFYING <==>
              exists i :: 0 <= i < |db.outbox| && AnnouncedEntry(db.orders, db.outbox[i]) == Some(e)
    {
      if db.books.journal[e].kind in NOTIFYING {
        var i := EntriesOfComplete(db.books.journal, NOTIFYING, e);
        assert AnnouncedEntry(db.orders, db.outbox[i]) == Some(e);
      }
    }
  }
}
