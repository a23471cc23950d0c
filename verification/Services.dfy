/**
 The services, statement by statement on the mutable tables.  Each method first finds or creates the
 accounts it needs (committed on their own) and then runs one transaction; its contract says that, from
 the tables `mid` in between, it does exactly what `Apply` says of the operation.
 */
module Services {
  import opened Wrappers
  import opened Decimals
  import opened Ledger
  import opened LedgerLaws
  import opened Trading
  import opened System
  import opened Invariant
  import opened Database
  import Runs

  // ---------------------------------------------------------------- what a service call keeps

  /**
   A service call whose contract this is is one step of a run: it keeps the tables sound, resolves each row at
   most once and, if its sums stay within twenty digits, keeps every balance right.
   */
  lemma CallKeeps(cfg: Config, before: Db, mid: Db, op: Op, after: Db, outcome: Outcome)
    requires RanVia(cfg, before, mid, op, after, outcome) && Sound(cfg, before)
    ensures Sound(cfg, after) && Runs.Advances(before, after) && Runs.Next(cfg, before, after)
    ensures Inv(cfg, before) && RoomyVia(cfg, before, mid, op, after, outcome) ==> Inv(cfg, after)
  {
    hide Sound, Inv, RanVia, Runs.Advances;
    Runs.RanSound(cfg, before, mid, op, after, outcome);
    Runs.RanAdvances(cfg, before, mid, op, after, outcome);
    assert Ran(cfg, before, op, after, outcome);
    if Inv(cfg, before) && RoomyVia(cfg, before, mid, op, after, outcome) {
      Runs.RanKeeps(cfg, before, mid, op, after, outcome);
    }
  }

  // ---------------------------------------------------------------- accounts and lines

  lemma OpenedTwice(a: Db, b: Db, c: Db, s: set<AccountKey>, t: set<AccountKey>)
    requires Opened(a, b, s) && Opened(b, c, t)
    ensures Opened(a, c, s + t)
  {
  }

  /** Two accounts found or made together. */
  method EnsureBoth(store: Store, k1: AccountKey, k2: AccountKey) returns (a: int, b: int)
    requires store.Valid() && KeyFits(k1) && KeyFits(k2)
    modifies store
    ensures store.Valid() && Opened(old(store.Tables()), store.Tables(), {k1, k2})
    ensures k1 in store.index && k2 in store.index && a == store.index[k1] && b == store.index[k2]
  {
    ghost var t0 := store.Tables();
    a := EnsureAccount(store, k1);
    ghost var t1 := store.Tables();
    b := EnsureAccount(store, k2);
    OpenedTwice(t0, t1, store.Tables(), {k1}, {k2});
    assert {k1} + {k2} == {k1, k2};
  }

  lemma KeysOfMove(draft: Draft, from: AccountKey, to: AccountKey, units: int)
    requires draft.legs == Move(from, to, units)
    ensures KeysOf(Go(draft)) == {from, to}
  {
    assert draft.legs[0].key == from && draft.legs[1].key == to;
    assert draft.legs[0] in draft.legs && draft.legs[1] in draft.legs;
  }

  lemma LinesOfMove(index: map<AccountKey, int>, from: AccountKey, to: AccountKey, units: int)
    requires from in index && to in index
    ensures LinesOf(index, Move(from, to, units)) ==
            [Line(index[from], Debit, Fixed8(units), from.currency), Line(index[to], Credit, Fixed8(units), to.currency)]
  {
  }

  /** Two accounts found or made, and a move between them posted; `mid` are the tables with both there. */
  method PostMove(store: Store, kind: EntryType, ref: Ref, from: AccountKey, to: AccountKey, units: int)
    returns (r: Result<nat, PostError>, mid: Db)
    requires store.Valid() && KeyFits(from) && KeyFits(to)
    modifies store
    ensures store.Valid() && IndexOk(mid.books)
    ensures Opened(old(store.Tables()), mid, {from, to})
    ensures forall leg :: leg in Move(from, to, units) ==> leg.key in mid.books.index
    ensures match Post(mid.books, kind, ref, LinesOf(mid.books.index, Move(from, to, units)))
            case Ok(after) => r == Ok(|mid.books.journal|) && store.Tables() == mid.(books := after)
            case Err(e) => r == Err(e) && store.Tables() == mid
  {
    hide Post, IndexOk, Ensured;
    var a, b := EnsureBoth(store, from, to);
    mid := store.Tables();
    LinesOfMove(store.index, from, to, units);
    r := PostEntry(store, kind, ref,
                   [Line(a, Debit, Fixed8(units), from.currency), Line(b, Credit, Fixed8(units), to.currency)]);
  }

  lemma KeysOfSwap(draft: Draft, source: AccountKey, fromUnits: int, user: UserId, to: Code, toUnits: int)
    requires draft.legs == Swap(source, fromUnits, user, to, toUnits)
    ensures KeysOf(Go(draft)) == {source, Pool(source.currency, Treasury)} + {Pool(to, Treasury), Wallet(user, to)}
  {
    var legs := draft.legs;
    assert legs[0] in legs && legs[1] in legs && legs[2] in legs && legs[3] in legs;
  }

  /** `append`: one more outbox row, in the caller's transaction. */
  method AppendEvent(store: Store, kind: EventType, aggregate: nat)
    modifies store`outbox
    ensures store.outbox == old(store.outbox) + [Event(kind, aggregate)]
  {
    store.outbox := store.outbox + [Event(kind, aggregate)];
  }

  /** The accounts `executeSwap` works with. */
  method SwapAccounts(store: Store, source: AccountKey, user: UserId, to: Code)
    returns (a: int, treasuryFrom: int, treasuryTo: int, wallet: int)
    requires store.Valid() && KeyFits(source)
    modifies store
    ensures store.Valid()
    ensures Opened(old(store.Tables()), store.Tables(),
                   {source, Pool(source.currency, Treasury)} + {Pool(to, Treasury), Wallet(user, to)})
    ensures source in store.index && a == store.index[source]
    ensures Pool(source.currency, Treasury) in store.index
    ensures treasuryFrom == store.index[Pool(source.currency, Treasury)]
    ensures Pool(to, Treasury) in store.index && treasuryTo == store.index[Pool(to, Treasury)]
    ensures Wallet(user, to) in store.index && wallet == store.index[Wallet(user, to)]
  {
    ghost var t0 := store.Tables();
    a, treasuryFrom := EnsureBoth(store, source, Pool(source.currency, Treasury));
    ghost var t1 := store.Tables();
    treasuryTo, wallet := EnsureBoth(store, Pool(to, Treasury), Wallet(user, to));
    OpenedTwice(t0, t1, store.Tables(), {source, Pool(source.currency, Treasury)},
                {Pool(to, Treasury), Wallet(user, to)});
  }

  lemma LinesOfSwap(index: map<AccountKey, int>, source: AccountKey, fromUnits: int, user: UserId, to: Code, toUnits: int)
    requires source in index && Pool(source.currency, Treasury) in index
    requires Pool(to, Treasury) in index && Wallet(user, to) in index
    ensures LinesOf(index, Swap(source, fromUnits, user, to, toUnits)) ==
            [Line(index[source], Debit, Fixed8(fromUnits), source.currency),
             Line(index[Pool(source.currency, Treasury)], Credit, Fixed8(fromUnits), source.currency),
             Line(index[Pool(to, Treasury)], Debit, Fixed8(toUnits), to),
             Line(index[Wallet(user, to)], Credit, Fixed8(toUnits), to)]
  {
  }

  /** `executeSwap`: the four-line entry in two currencies; `mid` are the tables with its accounts made. */
  method ExecuteSwap(store: Store, kind: EntryType, ref: Ref, source: AccountKey, fromUnits: int,
                     user: UserId, to: Code, toUnits: int)
    returns (r: Result<nat, PostError>, mid: Db)
    requires store.Valid() && KeyFits(source)
    modifies store
    ensures store.Valid() && IndexOk(mid.books)
    ensures Opened(old(store.Tables()), mid,
                   {source, Pool(source.currency, Treasury)} + {Pool(to, Treasury), Wallet(user, to)})
    ensures forall leg :: leg in Swap(source, fromUnits, user, to, toUnits) ==> leg.key in mid.books.index
    ensures match Post(mid.books, kind, ref, LinesOf(mid.books.index, Swap(source, fromUnits, user, to, toUnits)))
            case Ok(after) => r == Ok(|mid.books.journal|) && store.Tables() == mid.(books := after)
            case Err(e) => r == Err(e) && store.Tables() == mid
  {
    hide Post, IndexOk, Ensured;
    var a, b, c, d := SwapAccounts(store, source, user, to);
    mid := store.Tables();
    LinesOfSwap(store.index, source, fromUnits, user, to, toUnits);
    r := PostEntry(store, kind, ref,
                   [Line(a, Debit, Fixed8(fromUnits), source.currency), Line(b, Credit, Fixed8(fromUnits), source.currency),
                    Line(c, Debit, Fixed8(toUnits), to), Line(d, Credit, Fixed8(toUnits), to)]);
  }

  // ---------------------------------------------------------------- deposits, transfers, conversions

  method DepositFunds(store: Store, cfg: Config, user: UserId, code: Code, amount: nat)
    returns (outcome: Outcome, ghost mid: Db)
    requires store.Valid() && ConfigOk(cfg)
    modifies store
    ensures store.Valid()
    ensures RanVia(cfg, old(store.Tables()), mid, Deposit(user, code, amount), store.Tables(), outcome)
  {
    hide Post, IndexOk, Ensured, LinesOf, Move;
    mid := store.Tables();
    OpenedSelf(mid);
    var currency := GetCurrency(cfg, code);
    if currency.None? {
      return Failed(NotFound), mid;
    }
    if amount > cfg.depositMax {
      return Failed(BadRequest), mid;
    }
    var c := currency.value;
    KeysOfMove(PlanDeposit(cfg, user, code, amount).draft, Pool(c, Treasury), Wallet(user, c), amount);
    var posted;
    posted, mid := PostMove(store, DepositEntry, NoRef, Pool(c, Treasury), Wallet(user, c), amount);
    if posted.Err? {
      return Failed(Posting(posted.error)), mid;
    }
    AppendEvent(store, DepositCompleted, posted.value);
    return Done(posted.value), mid;
  }

  lemma TransferKeys(cfg: Config, draft: Draft, sender: UserId, recipient: UserId, c: Code, amount: nat)
    requires draft.legs == TransferLegs(cfg, sender, recipient, c, amount)
    ensures KeysOf(Go(draft)) ==
            {Wallet(sender, c), Wallet(recipient, c)} + if cfg.feeFlat > 0 then {Pool(c, Fees)} else {}
  {
    var legs := draft.legs;
    assert legs[0] in legs && legs[1] in legs;
    if cfg.feeFlat > 0 {
      assert legs[2] in legs;
    }
  }

  lemma TransferLines(cfg: Config, index: map<AccountKey, int>, sender: UserId, recipient: UserId, c: Code, amount: nat)
    requires Wallet(sender, c) in index && Wallet(recipient, c) in index && (cfg.feeFlat > 0 ==> Pool(c, Fees) in index)
    ensures forall leg :: leg in TransferLegs(cfg, sender, recipient, c, amount) ==> leg.key in index
    ensures LinesOf(index, TransferLegs(cfg, sender, recipient, c, amount)) ==
            [Line(index[Wallet(sender, c)], Debit, Fixed8(Plus(amount, cfg.feeFlat)), c),
             Line(index[Wallet(recipient, c)], Credit, Fixed8(amount), c)]
            + if cfg.feeFlat > 0 then [Line(index[Pool(c, Fees)], Credit, Fixed8(cfg.feeFlat), c)] else []
  {
  }

  /** The accounts and lines of a transfer; the fee line is pushed only when there is a fee. */
  method TransferEntryLines(store: Store, cfg: Config, sender: UserId, recipient: UserId, c: Code, amount: nat)
    returns (lines: seq<Line>)
    requires store.Valid()
    modifies store
    ensures store.Valid()
    ensures Opened(old(store.Tables()), store.Tables(),
                   {Wallet(sender, c), Wallet(recipient, c)} + if cfg.feeFlat > 0 then {Pool(c, Fees)} else {})
    ensures forall leg :: leg in TransferLegs(cfg, sender, recipient, c, amount) ==> leg.key in store.index
    ensures lines == LinesOf(store.index, TransferLegs(cfg, sender, recipient, c, amount))
  {
    hide Plus, IndexOk;
    ghost var t0 := store.Tables();
    var from, to := EnsureBoth(store, Wallet(sender, c), Wallet(recipient, c));
    ghost var t1 := store.Tables();
    lines := [Line(from, Debit, Fixed8(Plus(amount, cfg.feeFlat)), c), Line(to, Credit, Fixed8(amount), c)];
    if cfg.feeFlat > 0 {
      var fees := EnsureAccount(store, Pool(c, Fees));
      OpenedTwice(t0, t1, store.Tables(), {Wallet(sender, c), Wallet(recipient, c)}, {Pool(c, Fees)});
      lines := lines + [Line(fees, Credit, Fixed8(cfg.feeFlat), c)];
    } else {
      assert {Wallet(sender, c), Wallet(recipient, c)} + {} == {Wallet(sender, c), Wallet(recipient, c)};
    }
    TransferLines(cfg, store.index, sender, recipient, c, amount);
  }

  /** `executeTransfer`. */
  method ExecuteTransfer(store: Store, cfg: Config, sender: UserId, recipient: Option<UserId>, code: Code, amount: nat)
    returns (outcome: Outcome, ghost mid: Db)
    requires store.Valid() && ConfigOk(cfg)
    modifies store
    ensures store.Valid()
    ensures RanVia(cfg, old(store.Tables()), mid, Transfer(sender, recipient, code, amount), store.Tables(), outcome)
  {
    hide Post, IndexOk, TransferLegs, Ensured;
    mid := store.Tables();
    OpenedSelf(mid);
    var currency := GetCurrency(cfg, code);
    if currency.None? || recipient.None? {
      return Failed(NotFound), mid;
    }
    if recipient.value == sender {
      return Failed(Unprocessable), mid;
    }
    var c := currency.value;
    TransferKeys(cfg, PlanTransfer(cfg, sender, recipient, code, amount).draft, sender, recipient.value, c, amount);
    var lines := TransferEntryLines(store, cfg, sender, recipient.value, c, amount);
    mid := store.Tables();
    var posted := PostEntry(store, TransferEntry, NoRef, lines);
    if posted.Err? {
      return Failed(Posting(posted.error)), mid;
    }
    AppendEvent(store, TransferCompleted, posted.value);
    return Done(posted.value), mid;
  }

  /** `executeConvert`. */
  method ExecuteConvert(store: Store, cfg: Config, user: UserId, from: Code, to: Code, amount: nat, rate: Option<Rate>)
    returns (outcome: Outcome, ghost mid: Db)
    requires store.Valid() && ConfigOk(cfg)
    modifies store
    ensures store.Valid()
    ensures RanVia(cfg, old(store.Tables()), mid, Convert(user, from, to, amount, rate), store.Tables(), outcome)
  {
    hide Post, IndexOk, Ensured, RoundTo, ConvertedAmount, LinesOf, Swap;
    mid := store.Tables();
    OpenedSelf(mid);
    var f, t := GetCurrency(cfg, from), GetCurrency(cfg, to);
    if f.None? || t.None? {
      return Failed(NotFound), mid;
    }
    if f.value == t.value {
      return Failed(Unprocessable), mid;
    }
    if rate.None? {
      return Failed(NotFound), mid;
    }
    var fromUnits := RoundTo(amount, cfg.decimals[f.value]);
    var toUnits := ConvertedAmount(fromUnits, rate.value, cfg.spreadBps, cfg.decimals[t.value]);
    KeysOfSwap(PlanConvert(cfg, user, from, to, amount, rate).draft, Wallet(user, f.value), fromUnits, user, t.value, toUnits);
    var posted;
    posted, mid := ExecuteSwap(store, FxConvertEntry, NoRef, Wallet(user, f.value), fromUnits, user, t.value, toUnits);
    if posted.Err? {
      return Failed(Posting(posted.error)), mid;
    }
    AppendEvent(store, FxConverted, posted.value);
    return Done(posted.value), mid;
  }

  // ---------------------------------------------------------------- orders

  /** A swap that posted had positive amounts, so the row's own check cannot fail after it. */
  lemma PostedSwapPositive(b: Books, kind: EntryType, ref: Ref, source: AccountKey, fromUnits: int,
                           user: UserId, to: Code, toUnits: int)
    requires forall leg :: leg in Swap(source, fromUnits, user, to, toUnits) ==> leg.key in b.index
    requires Post(b, kind, ref, LinesOf(b.index, Swap(source, fromUnits, user, to, toUnits))).Ok?
    ensures fromUnits > 0 && toUnits > 0
  {
    var legs := Swap(source, fromUnits, user, to, toUnits);
    var lines := LinesOf(b.index, legs);
    assert GoodAmount(lines[0].amount) && GoodAmount(lines[2].amount);
    GoodAmountUnits(lines[0].amount);
    GoodAmountUnits(lines[2].amount);
    assert lines[0].amount == Fixed8(legs[0].units) && lines[2].amount == Fixed8(legs[2].units);
  }

  /** The transaction of a market order: the swap, the filled row and its event. */
  method MarketTransaction(store: Store, source: AccountKey, spent: int, to: Code, got: int, order: Order)
    returns (outcome: Outcome, ghost mid: Db)
    requires store.Valid() && KeyFits(source)
    requires order.limitPrice.None? && order.holdEntry.None? && order.fillEntry.None?
    requires order.quantity == spent || order.quantity == got
    modifies store
    ensures store.Valid()
    ensures Opened(old(store.Tables()), mid,
                   {source, Pool(source.currency, Treasury)} + {Pool(to, Treasury), Wallet(order.user, to)})
    ensures forall leg :: leg in Swap(source, spent, order.user, to, got) ==> leg.key in mid.books.index
    ensures (store.Tables(), outcome) ==
            Execute(mid, Draft(TradeEntry, NoRef, Swap(source, spent, order.user, to, got),
                               InsertFilled(order), Some(OrderFilled)))
  {
    hide Post, IndexOk, Ensured, Swap;
    var posted;
    posted, mid := ExecuteSwap(store, TradeEntry, NoRef, source, spent, order.user, to, got);
    if posted.Err? {
      return Failed(Posting(posted.error)), mid;
    }
    PostedSwapPositive(mid.books, TradeEntry, NoRef, source, spent, order.user, to, got);
    var id := |store.orders|;
    store.orders := store.orders + [order.(fillEntry := Some(posted.value))];
    AppendEvent(store, OrderFilled, id);
    return Done(posted.value), mid;
  }

  /** `executeMarketOrder`. */
  method ExecuteMarketOrder(store: Store, cfg: Config, user: UserId, pair: string, side: Side, quantity: nat,
                            rate: Option<Rate>, at: int)
    returns (outcome: Outcome, ghost mid: Db)
    requires store.Valid() && ConfigOk(cfg)
    modifies store
    ensures store.Valid()
    ensures RanVia(cfg, old(store.Tables()), mid, MarketOrder(user, pair, side, quantity, rate, at), store.Tables(), outcome)
  {
    hide Execute, IndexOk, RoundTo, MarketAmount, FixedRate, ResolvePair, Ensured;
    mid := store.Tables();
    OpenedSelf(mid);
    var resolved := ResolvePair(cfg, pair);
    if resolved.Err? {
      return Failed(resolved.error), mid;
    }
    var (b, q) := resolved.value;
    if rate.None? {
      return Failed(NotFound), mid;
    }
    var qty := RoundTo(quantity, cfg.decimals[b]);
    var cost := MarketAmount(qty, rate.value, cfg.decimals[q]);
    var order := Order(user, JoinPair(b, q), side, Market, qty, None, Filled, None, None,
                       Some(FixedRate(rate.value, cfg.decimals[q])), Some(at));
    if side == Buy {
      KeysOfSwap(PlanMarket(cfg, user, pair, side, quantity, rate, at).draft, Wallet(user, q), cost, user, b, qty);
      outcome, mid := MarketTransaction(store, Wallet(user, q), cost, b, qty, order);
    } else {
      KeysOfSwap(PlanMarket(cfg, user, pair, side, quantity, rate, at).draft, Wallet(user, b), qty, user, q, cost);
      outcome, mid := MarketTransaction(store, Wallet(user, b), qty, q, cost, order);
    }
  }

  /** The transaction of a placement: the hold and the open row, or neither. */
  method PlaceTransaction(store: Store, wallet: AccountKey, pool: AccountKey, held: int, order: Order)
    returns (outcome: Outcome, ghost mid: Db)
    requires store.Valid() && KeyFits(wallet) && KeyFits(pool)
    modifies store
    ensures store.Valid()
    ensures Opened(old(store.Tables()), mid, {wallet, pool})
    ensures forall leg :: leg in Move(wallet, pool, held) ==> leg.key in mid.books.index
    ensures (store.Tables(), outcome) ==
            Execute(mid, Draft(TradeHoldEntry, NoRef, Move(wallet, pool, held), InsertHeld(order), None))
  {
    hide Post, IndexOk, Ensured, LinesOf, Move;
    var posted, begin := PostMove(store, TradeHoldEntry, NoRef, wallet, pool, held);
    mid := begin;
    if posted.Err? {
      return Failed(Posting(posted.error)), mid;
    }
    if order.quantity <= 0 || order.limitPrice.None? || order.limitPrice.value <= 0 {
      store.Rollback(begin);
      return Failed(CheckViolation), mid;
    }
    store.orders := store.orders + [order.(holdEntry := Some(posted.value))];
    return Done(posted.value), mid;
  }

  /** `placeLimitOrder`. */
  method PlaceLimitOrder(store: Store, cfg: Config, user: UserId, pair: string, side: Side, quantity: nat, limitPrice: nat)
    returns (outcome: Outcome, ghost mid: Db)
    requires store.Valid() && ConfigOk(cfg)
    modifies store
    ensures store.Valid()
    ensures RanVia(cfg, old(store.Tables()), mid, PlaceLimit(user, pair, side, quantity, limitPrice), store.Tables(), outcome)
  {
    hide Execute, IndexOk, RoundTo, HoldAmount, ResolvePair, Ensured;
    mid := store.Tables();
    OpenedSelf(mid);
    var resolved := ResolvePair(cfg, pair);
    if resolved.Err? {
      return Failed(resolved.error), mid;
    }
    var (b, q) := resolved.value;
    var qty := RoundTo(quantity, cfg.decimals[b]);
    var price := RoundTo(limitPrice, cfg.decimals[q]);
    var c := HoldCurrency(side, b, q);
    var held := HoldAmount(side, qty, price, cfg.decimals[b], cfg.decimals[q]);
    var order := Order(user, JoinPair(b, q), side, Limit, qty, Some(price), Open, None, None, None, None);
    KeysOfMove(PlanPlace(cfg, user, pair, side, quantity, limitPrice).draft, Wallet(user, c), Pool(c, TradeHold), held);
    outcome, mid := PlaceTransaction(store, Wallet(user, c), Pool(c, TradeHold), held, order);
  }

  /** `cancelOrder`, the order row locked. */
  method CancelOpenOrder(store: Store, cfg: Config, user: UserId, id: nat)
    returns (outcome: Outcome, ghost mid: Db)
    requires store.Valid() && ConfigOk(cfg)
    modifies store
    ensures store.Valid()
    ensures RanVia(cfg, old(store.Tables()), mid, CancelOrder(user, id), store.Tables(), outcome)
  {
    hide Post, IndexOk, Ensured, Held, LinesOf, Move;
    mid := store.Tables();
    OpenedSelf(mid);
    if id >= |store.orders| || store.orders[id].user != user {
      return Failed(NotFound), mid;
    }
    var order := store.orders[id];
    if order.status != Open {
      return Failed(Conflict), mid;
    }
    var held := Held(cfg, order);
    if held.Err? {
      return Failed(held.error), mid;
    }
    var (c, units) := held.value;
    KeysOfMove(PlanCancel(cfg, user, id, OrderRow(order)).draft, Pool(c, TradeHold), Wallet(user, c), units);
    var posted;
    posted, mid := PostMove(store, TradeReleaseEntry, OrderRef(id), Pool(c, TradeHold), Wallet(user, c), units);
    if posted.Err? {
      return Failed(Posting(posted.error)), mid;
    }
    store.orders := store.orders[id := order.(status := Cancelled)];
    return Done(posted.value), mid;
  }

  // ---------------------------------------------------------------- the fill worker

  /**
   The transaction of a crossed order: the swap out of the pool, the filled row and its event.  If something
   breaks after that (the look-up of the user, a save, the commit) the callback throws and all of it is undone.
   */
  method FillTransaction(store: Store, id: nat, pool: Code, held: int, to: Code, got: int, price: int, at: int, breaks: bool)
    returns (filled: Result<bool, Error>, ghost mid: Db)
    requires store.Valid() && id < |store.orders|
    modifies store
    ensures store.Valid()
    ensures Opened(old(store.Tables()), mid,
                   {Pool(pool, TradeHold), Pool(pool, Treasury)} + {Pool(to, Treasury), Wallet(old(store.orders)[id].user, to)})
    ensures forall leg :: leg in Swap(Pool(pool, TradeHold), held, old(store.orders)[id].user, to, got) ==>
              leg.key in mid.books.index
    ensures Attempted(mid, Execute(mid, Draft(TradeEntry, OrderRef(id),
                                              Swap(Pool(pool, TradeHold), held, old(store.orders)[id].user, to, got),
                                              MarkFilled(id, price, at), Some(OrderFilled))),
                      breaks, store.Tables(), filled)
  {
    hide Post, IndexOk, Ensured, Swap;
    var order := store.orders[id];
    var posted, begin := ExecuteSwap(store, TradeEntry, OrderRef(id), Pool(pool, TradeHold), held, order.user, to, got);
    mid := begin;
    if posted.Err? {
      return Err(Posting(posted.error)), mid;
    }
    store.orders := store.orders[id := order.(status := Filled, fillEntry := Some(posted.value),
                                              filledPrice := Some(price), filledAt := Some(at))];
    AppendEvent(store, OrderFilled, id);
    if breaks {
      store.Rollback(begin);
      return Err(Unexpected), mid;
    }
    return Ok(true), mid;
  }

  /** What a transaction that would end as `would` comes to when it may break before it commits. */
  ghost predicate Attempted(mid: Db, would: (Db, Outcome), breaks: bool, after: Db, filled: Result<bool, Error>) {
    match would.1
    case Done(_) => if breaks then after == mid && filled == Err(Unexpected) else after == would.0 && filled == Ok(true)
    case Declined => after == would.0 && filled == Ok(false)
    case Failed(e) => after == would.0 && filled == Err(e)
  }

  /** `tryFill` from making its accounts to its end: true or false returned, or an exception thrown. */
  ghost predicate Tried(cfg: Config, before: Db, mid: Db, op: Op, breaks: bool, after: Db, filled: Result<bool, Error>) {
    && ConfigOk(cfg)
    && Opened(before, mid, KeysOf(Plan(cfg, op, RowOf(before, op))))
    && Attempted(mid, Apply(cfg, mid, op), breaks, after, filled)
  }

  /** `tryFill`, the order row locked and its status read again. */
  method TryFillOrder(store: Store, cfg: Config, id: nat, rate: Option<Rate>, at: int, breaks: bool)
    returns (filled: Result<bool, Error>, ghost mid: Db)
    requires store.Valid() && ConfigOk(cfg)
    modifies store
    ensures store.Valid()
    ensures Tried(cfg, old(store.Tables()), mid, TryFill(id, rate, at), breaks, store.Tables(), filled)
  {
    hide Execute, IndexOk, Ensured, HoldAmount, QuoteAmount, Crossed, SplitPair;
    mid := store.Tables();
    OpenedSelf(mid);
    if id >= |store.orders| || store.orders[id].status != Open || store.orders[id].kind != Limit {
      return Ok(false), mid;
    }
    var order := store.orders[id];
    var codes := SplitPair(order.pair);
    if codes.None? {
      return Err(BadRequest), mid;
    }
    if rate.None? {
      return Err(NotFound), mid;
    }
    if order.limitPrice.None? {
      return Err(Unexpected), mid;
    }
    var price := order.limitPrice.value;
    if !Crossed(order.side, rate.value, price) {
      return Ok(false), mid;
    }
    var base, quote := GetCurrency(cfg, codes.value.0), GetCurrency(cfg, codes.value.1);
    if base.None? || quote.None? {
      return Err(NotFound), mid;
    }
    var b, q := base.value, quote.value;
    var bd, qd := cfg.decimals[b], cfg.decimals[q];
    var c := HoldCurrency(order.side, b, q);
    var held := HoldAmount(order.side, order.quantity, price, bd, qd);
    var to := if order.side == Buy then b else q;
    var got := if order.side == Buy then order.quantity else QuoteAmount(order.quantity, price, qd);
    KeysOfSwap(PlanFill(cfg, id, rate, at, OrderRow(order)).draft, Pool(c, TradeHold), held, order.user, to, got);
    filled, mid := FillTransaction(store, id, c, held, to, got, price, at, breaks);
  }

  /** The worker's candidates, in table order. */
  function OpenLimitIds(orders: seq<Order>): seq<nat> {
    if orders == [] then []
    else
      OpenLimitIds(Init(orders))
      + if Last(orders).status == Open && Last(orders).kind == Limit then [|orders| - 1] else []
  }

  /** One `find` over the orders table. */
  method FindOpenLimits(store: Store) returns (ids: seq<nat>)
    ensures ids == OpenLimitIds(store.orders)
  {
    ids := [];
    var i := 0;
    while i < |store.orders|
      invariant 0 <= i <= |store.orders|
      invariant ids == OpenLimitIds(store.orders[..i])
    {
      Prefix(store.orders, i);
      if store.orders[i].status == Open && store.orders[i].kind == Limit {
        ids := ids + [i];
      }
      i := i + 1;
    }
    assert store.orders[..i] == store.orders;
  }

  /** What one attempt of a scan meets: the rate, if there is one, and whether something breaks at its end. */
  datatype Luck = Luck(rate: Option<Rate>, breaks: bool)

  /** The orders whose attempts threw, in order. */
  function Thrown(ids: seq<nat>, results: seq<Result<bool, Error>>): seq<nat>
    requires |results| <= |ids|
  {
    if results == [] then []
    else Thrown(ids, Init(results)) + if Last(results).Err? then [ids[|results| - 1]] else []
  }

  /** A scan's tables before each attempt and after the last, and how each attempt ended. */
  datatype Scan = Scan(states: seq<Db>, mids: seq<Db>, results: seq<Result<bool, Error>>)

  ghost predicate Scanned(cfg: Config, ids: seq<nat>, luck: nat -> Luck, at: int, scan: Scan) {
    && |scan.states| == |scan.results| + 1 && |scan.mids| == |scan.results| <= |ids|
    && forall k :: 0 <= k < |scan.results| ==>
         Tried(cfg, scan.states[k], scan.mids[k], TryFill(ids[k], luck(ids[k]).rate, at), luck(ids[k]).breaks,
               scan.states[k + 1], scan.results[k])
  }

  /**
   `scanAndFillOpenOrders`: every order open at the start is tried once, in turn; an attempt that throws is
   caught and logged, and the scan goes on.
   */
  method ScanAndFillOpenOrders(store: Store, cfg: Config, luck: nat -> Luck, at: int) returns (logged: seq<nat>, ghost scan: Scan)
    requires store.Valid() && ConfigOk(cfg)
    modifies store
    ensures store.Valid()
    ensures var ids := OpenLimitIds(old(store.orders));
            && Scanned(cfg, ids, luck, at, scan) && |scan.results| == |ids|
            && scan.states[0] == old(store.Tables()) && Last(scan.states) == store.Tables()
            && logged == Thrown(ids, scan.results)
  {
    hide Tried, IndexOk;
    var ids := FindOpenLimits(store);
    logged, scan := [], Scan([store.Tables()], [], []);
    var i := 0;
    while i < |ids|
      invariant 0 <= i <= |ids|
      invariant store.Valid()
      invariant Scanned(cfg, ids, luck, at, scan) && |scan.results| == i
      invariant scan.states[0] == old(store.Tables()) && Last(scan.states) == store.Tables()
      invariant logged == Thrown(ids, scan.results)
    {
      var attempt := luck(ids[i]);
      ghost var before := scan;
      var filled, mid := TryFillOrder(store, cfg, ids[i], attempt.rate, at, attempt.breaks);
      scan := Scan(before.states + [store.Tables()], before.mids + [mid], before.results + [filled]);
      assert Init(scan.results) == before.results && Last(scan.results) == filled;
      if filled.Err? {
        logged := logged + [ids[i]];
      }
      i := i + 1;
    }
  }

  // ---------------------------------------------------------------- withdrawals

  /** `requestWithdrawal`. */
  method RequestFunds(store: Store, cfg: Config, user: UserId, code: Code, amount: nat)
    returns (outcome: Outcome, ghost mid: Db)
    requires store.Valid() && ConfigOk(cfg)
    modifies store
    ensures store.Valid()
    ensures RanVia(cfg, old(store.Tables()), mid, RequestWithdrawal(user, code, amount), store.Tables(), outcome)
  {
    hide Post, IndexOk, Ensured, LinesOf, Move;
    mid := store.Tables();
    OpenedSelf(mid);
    var currency := GetCurrency(cfg, code);
    if currency.None? {
      return Failed(NotFound), mid;
    }
    var c := currency.value;
    KeysOfMove(PlanRequest(cfg, user, code, amount).draft, Wallet(user, c), Pool(c, WithdrawalPending), amount);
    var posted, begin := PostMove(store, WithdrawalHoldEntry, NoRef, Wallet(user, c), Pool(c, WithdrawalPending), amount);
    mid := begin;
    if posted.Err? {
      return Failed(Posting(posted.error)), mid;
    }
    if amount <= 0 {
      store.Rollback(begin);
      return Failed(CheckViolation), mid;
    }
    store.requests := store.requests + [Request(user, c, amount, Pending, None, None, posted.value, None)];
    return Done(posted.value), mid;
  }

  /** `lockPendingRequest`. */
  method LockPendingRequest(store: Store, id: nat) returns (r: Result<Request, Error>)
    ensures r.Ok? <==> id < |store.requests| && store.requests[id].status == Pending
    ensures r.Ok? ==> r.value == store.requests[id]
    ensures r.Err? ==> r.error == if id < |store.requests| then Conflict else NotFound
  {
    if id >= |store.requests| {
      return Err(NotFound);
    }
    if store.requests[id].status != Pending {
      return Err(Conflict);
    }
    return Ok(store.requests[id]);
  }

  /** `approve`: the held amount goes to treasury. */
  method ApproveRequest(store: Store, cfg: Config, id: nat, admin: UserId, at: int) returns (outcome: Outcome, ghost mid: Db)
    requires store.Valid() && ConfigOk(cfg)
    modifies store
    ensures store.Valid()
    ensures RanVia(cfg, old(store.Tables()), mid, Approve(id, admin, at), store.Tables(), outcome)
  {
    hide Post, IndexOk, Ensured, LinesOf, Move;
    mid := store.Tables();
    OpenedSelf(mid);
    var locked := LockPendingRequest(store, id);
    if locked.Err? {
      return Failed(locked.error), mid;
    }
    var request := locked.value;
    var c := request.currency;
    KeysOfMove(PlanDecision(id, admin, at, true, RequestRow(request)).draft, Pool(c, WithdrawalPending),
               Pool(c, Treasury), request.amount);
    var posted;
    posted, mid := PostMove(store, WithdrawalSettleEntry, RequestRef(id), Pool(c, WithdrawalPending), Pool(c, Treasury), request.amount);
    if posted.Err? {
      return Failed(Posting(posted.error)), mid;
    }
    store.requests := store.requests[id := request.(status := Approved, decidedBy := Some(admin),
                                                    decidedAt := Some(at), settleEntry := Some(posted.value))];
    AppendEvent(store, WithdrawalApproved, posted.value);
    return Done(posted.value), mid;
  }

  /** `reject`: the held amount goes back to the wallet. */
  method RejectRequest(store: Store, cfg: Config, id: nat, admin: UserId, at: int) returns (outcome: Outcome, ghost mid: Db)
    requires store.Valid() && ConfigOk(cfg)
    modifies store
    ensures store.Valid()
    ensures RanVia(cfg, old(store.Tables()), mid, Reject(id, admin, at), store.Tables(), outcome)
  {
    hide Post, IndexOk, Ensured, LinesOf, Move;
    mid := store.Tables();
    OpenedSelf(mid);
    var locked := LockPendingRequest(store, id);
    if locked.Err? {
      return Failed(locked.error), mid;
    }
    var request := locked.value;
    var c := request.currency;
    KeysOfMove(PlanDecision(id, admin, at, false, RequestRow(request)).draft, Pool(c, WithdrawalPending),
               Wallet(request.user, c), request.amount);
    var posted;
    posted, mid := PostMove(store, WithdrawalReleaseEntry, RequestRef(id), Pool(c, WithdrawalPending), Wallet(request.user, c), request.amount);
    if posted.Err? {
      return Failed(Posting(posted.error)), mid;
    }
    store.requests := store.requests[id := request.(status := Rejected, decidedBy := Some(admin),
                                                    decidedAt := Some(at), settleEntry := Some(posted.value))];
    AppendEvent(store, WithdrawalRejected, posted.value);
    return Done(posted.value), mid;
  }
}
