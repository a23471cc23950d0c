/**
 Every money operation as one atomic step on the database: deposits, transfers, conversions, market and
 limit orders, cancels, fills, withdrawal requests and decisions.  `Plan` is what an operation decides
 from its input and the row it locked; `Apply` posts the entry it planned and writes the rows beside it,
 or leaves the database as it was.
 */
module System {
  import opened Wrappers
  import opened Decimals
  import opened Ledger
  import opened Trading

  datatype OrderType = Market | Limit
  datatype OrderStatus = Open | Filled | Cancelled
  datatype RequestStatus = Pending | Approved | Rejected

  /** A row of `orders`; its id is its position. */
  datatype Order = Order(
    user: UserId, pair: string, side: Side, kind: OrderType, quantity: int, limitPrice: Option<int>,
    status: OrderStatus, holdEntry: Option<nat>, fillEntry: Option<nat>,
    filledPrice: Option<int>, filledAt: Option<int>)

  /** A row of `withdrawal_requests`; its id is its position. */
  datatype Request = Request(
    user: UserId, currency: Code, amount: int, status: RequestStatus,
    decidedBy: Option<UserId>, decidedAt: Option<int>, holdEntry: nat, settleEntry: Option<nat>)

  datatype EventType =
    | TransferCompleted | DepositCompleted | WithdrawalApproved | WithdrawalRejected | FxConverted | OrderFilled

  /** A row of `outbox_events`: `aggregate` is an order id for `OrderFilled`, an entry id otherwise. */
  datatype Event = Event(kind: EventType, aggregate: nat)

  datatype Db = Db(books: Books, orders: seq<Order>, requests: seq<Request>, outbox: seq<Event>)

  /** Currency rows and environment settings.  Amounts in units; `decimals` never exceed eight. */
  datatype Config = Config(decimals: map<Code, nat>, feeFlat: nat, depositMax: nat, spreadBps: nat)

  ghost predicate ConfigOk(cfg: Config) {
    forall c :: c in cfg.decimals ==> cfg.decimals[c] <= MAX_PLACES
  }

  datatype Error =
    | NotFound | Conflict | BadRequest | Unprocessable | Posting(error: PostError)
    | CheckViolation | Unexpected

  datatype Outcome = Done(entry: nat) | Declined | Failed(error: Error)

  /** A call, with whatever it reads from outside the database (rates, clock). */
  datatype Op =
    | Deposit(user: UserId, code: Code, amount: nat)
    | Transfer(sender: UserId, recipient: Option<UserId>, code: Code, amount: nat)
    | Convert(user: UserId, from: Code, to: Code, amount: nat, rate: Option<Rate>)
    | MarketOrder(user: UserId, pair: string, side: Side, quantity: nat, rate: Option<Rate>, at: int)
    | PlaceLimit(user: UserId, pair: string, side: Side, quantity: nat, limitPrice: nat)
    | CancelOrder(user: UserId, order: nat)
    | TryFill(order: nat, rate: Option<Rate>, at: int)
    | RequestWithdrawal(user: UserId, code: Code, amount: nat)
    | Approve(request: nat, admin: UserId, at: int)
    | Reject(request: nat, admin: UserId, at: int)

  // ---------------------------------------------------------------- what an operation plans

  datatype Leg = Leg(key: AccountKey, direction: Direction, units: int)

  /** The row written in the same transaction as the entry. */
  datatype Change =
    | NoChange
    | InsertHeld(order: Order)
    | InsertFilled(order: Order)
    | MarkFilled(id: nat, price: int, at: int)
    | MarkCancelled(id: nat)
    | InsertRequest(user: UserId, currency: Code, amount: int)
    | Decide(id: nat, status: RequestStatus, admin: UserId, at: int)

  datatype Draft = Draft(kind: EntryType, ref: Ref, legs: seq<Leg>, change: Change, notice: Option<EventType>)

  datatype Step = Stop(outcome: Outcome) | Go(draft: Draft)

  /** The row an operation locks before it looks at anything else. */
  datatype Row = NoRow | OrderRow(order: Order) | RequestRow(request: Request)

  predicate LocksOrder(op: Op) { op.CancelOrder? || op.TryFill? }
  predicate LocksRequest(op: Op) { op.Approve? || op.Reject? }

  function RowOf(db: Db, op: Op): Row {
    if LocksOrder(op) && op.order < |db.orders| then OrderRow(db.orders[op.order])
    else if LocksRequest(op) && op.request < |db.requests| then RequestRow(db.requests[op.request])
    else NoRow
  }

  function Wallet(user: UserId, c: Code): AccountKey { AccountKey(Some(user), c, UserWallet) }
  function Pool(c: Code, kind: AccountKind): AccountKey { AccountKey(None, c, kind) }

  /** A debit of one account and the credit of another. */
  function Move(from: AccountKey, to: AccountKey, units: int): seq<Leg> {
    [Leg(from, Debit, units), Leg(to, Credit, units)]
  }

  /** `executeSwap`: the source pays treasury in one currency, treasury pays the wallet in the other. */
  function Swap(source: AccountKey, fromUnits: int, user: UserId, to: Code, toUnits: int): seq<Leg> {
    [Leg(source, Debit, fromUnits), Leg(Pool(source.currency, Treasury), Credit, fromUnits),
     Leg(Pool(to, Treasury), Debit, toUnits), Leg(Wallet(user, to), Credit, toUnits)]
  }

  function GetCurrency(cfg: Config, code: Code): (c: Option<Code>)
    ensures c.Some? ==> c.value in cfg.decimals
  {
    if Upper(code) in cfg.decimals then Some(Upper(code)) else None
  }

  /** `resolvePair`. */
  function ResolvePair(cfg: Config, pair: string): (r: Result<(Code, Code), Error>)
    ensures r.Ok? ==> r.value.0 in cfg.decimals && r.value.1 in cfg.decimals && r.value.0 != r.value.1
  {
    match SplitPair(pair)
    case None => Err(BadRequest)
    case Some((b, q)) =>
      var base := GetCurrency(cfg, b);
      var quote := GetCurrency(cfg, q);
      if base.None? || quote.None? then Err(NotFound)
      else if base.value == quote.value then Err(Unprocessable)
      else Ok((base.value, quote.value))
  }

  function PlanDeposit(cfg: Config, user: UserId, code: Code, amount: nat): Step {
    match GetCurrency(cfg, code)
    case None => Stop(Failed(NotFound))
    case Some(c) =>
      if amount > cfg.depositMax then Stop(Failed(BadRequest))
      else Go(Draft(DepositEntry, NoRef, Move(Pool(c, Treasury), Wallet(user, c), amount),
                    NoChange, Some(DepositCompleted)))
  }

  function TransferLegs(cfg: Config, sender: UserId, recipient: UserId, c: Code, amount: nat): seq<Leg> {
    [Leg(Wallet(sender, c), Debit, Plus(amount, cfg.feeFlat)), Leg(Wallet(recipient, c), Credit, amount)]
    + if cfg.feeFlat > 0 then [Leg(Pool(c, Fees), Credit, cfg.feeFlat)] else []
  }

  function PlanTransfer(cfg: Config, sender: UserId, recipient: Option<UserId>, code: Code, amount: nat): Step {
    match GetCurrency(cfg, code)
    case None => Stop(Failed(NotFound))
    case Some(c) =>
      if recipient.None? then Stop(Failed(NotFound))
      else if recipient.value == sender then Stop(Failed(Unprocessable))
      else Go(Draft(TransferEntry, NoRef, TransferLegs(cfg, sender, recipient.value, c, amount),
                    NoChange, Some(TransferCompleted)))
  }

  /** The rate less the spread, rounded to twenty digits. */
  function NetRate(rate: Rate, spreadBps: nat): (int, nat) {
    (Sig20(rate.coefficient * (10_000 - spreadBps)), rate.places + 4)
  }

  function ConvertedAmount(fromUnits: int, rate: Rate, spreadBps: nat, decimals: nat): int
    requires decimals <= MAX_PLACES
  {
    var (c, p) := NetRate(rate, spreadBps);
    RoundProduct(Sig20(fromUnits * c), p, decimals)
  }

  function PlanConvert(cfg: Config, user: UserId, from: Code, to: Code, amount: nat, rate: Option<Rate>): Step
    requires ConfigOk(cfg)
  {
    var f := GetCurrency(cfg, from);
    var t := GetCurrency(cfg, to);
    if f.None? || t.None? then Stop(Failed(NotFound))
    else if f.value == t.value then Stop(Failed(Unprocessable))
    else if rate.None? then Stop(Failed(NotFound))
    else
      var fromUnits := RoundTo(amount, cfg.decimals[f.value]);
      var toUnits := ConvertedAmount(fromUnits, rate.value, cfg.spreadBps, cfg.decimals[t.value]);
      Go(Draft(FxConvertEntry, NoRef, Swap(Wallet(user, f.value), fromUnits, user, t.value, toUnits),
               NoChange, Some(FxConverted)))
  }

  function PlanMarket(cfg: Config, user: UserId, pair: string, side: Side, quantity: nat, rate: Option<Rate>, at: int)
    : Step
    requires ConfigOk(cfg)
  {
    match ResolvePair(cfg, pair)
    case Err(e) => Stop(Failed(e))
    case Ok((b, q)) =>
      if rate.None? then Stop(Failed(NotFound))
      else
        var qty := RoundTo(quantity, cfg.decimals[b]);
        var cost := MarketAmount(qty, rate.value, cfg.decimals[q]);
        var legs := if side == Buy then Swap(Wallet(user, q), cost, user, b, qty)
                    else Swap(Wallet(user, b), qty, user, q, cost);
        var order := Order(user, JoinPair(b, q), side, Market, qty, None, Filled, None, None,
                           Some(FixedRate(rate.value, cfg.decimals[q])), Some(at));
        Go(Draft(TradeEntry, NoRef, legs, InsertFilled(order), Some(OrderFilled)))
  }

  function PlanPlace(cfg: Config, user: UserId, pair: string, side: Side, quantity: nat, limitPrice: nat): Step
    requires ConfigOk(cfg)
  {
    match ResolvePair(cfg, pair)
    case Err(e) => Stop(Failed(e))
    case Ok((b, q)) =>
      var qty := RoundTo(quantity, cfg.decimals[b]);
      var price := RoundTo(limitPrice, cfg.decimals[q]);
      var c := HoldCurrency(side, b, q);
      var held := HoldAmount(side, qty, price, cfg.decimals[b], cfg.decimals[q]);
      var order := Order(user, JoinPair(b, q), side, Limit, qty, Some(price), Open, None, None, None, None);
      Go(Draft(TradeHoldEntry, NoRef, Move(Wallet(user, c), Pool(c, TradeHold), held), InsertHeld(order), None))
  }

  /** What a stored order says it holds, recomputed as cancel and fill do. */
  function Held(cfg: Config, order: Order): (r: Result<(Code, int), Error>)
    requires ConfigOk(cfg)
  {
    match SplitPair(order.pair)
    case None => Err(BadRequest)
    case Some((bc, qc)) =>
      var b := GetCurrency(cfg, bc);
      var q := GetCurrency(cfg, qc);
      if b.None? || q.None? then Err(NotFound)
      else if order.limitPrice.None? then Err(Unexpected)
      else
        Ok((HoldCurrency(order.side, b.value, q.value),
            HoldAmount(order.side, order.quantity, order.limitPrice.value,
                       cfg.decimals[b.value], cfg.decimals[q.value])))
  }

  function PlanCancel(cfg: Config, user: UserId, id: nat, row: Row): Step
    requires ConfigOk(cfg)
  {
    if !row.OrderRow? || row.order.user != user then Stop(Failed(NotFound))
    else if row.order.status != Open then Stop(Failed(Conflict))
    else
      match Held(cfg, row.order)
      case Err(e) => Stop(Failed(e))
      case Ok((c, held)) =>
        Go(Draft(TradeReleaseEntry, OrderRef(id), Move(Pool(c, TradeHold), Wallet(user, c), held),
                 MarkCancelled(id), None))
  }

  function PlanFill(cfg: Config, id: nat, rate: Option<Rate>, at: int, row: Row): Step
    requires ConfigOk(cfg)
  {
    if !row.OrderRow? || row.order.status != Open || row.order.kind != Limit then Stop(Declined)
    else
      var order := row.order;
      match SplitPair(order.pair)
      case None => Stop(Failed(BadRequest))
      case Some((bc, qc)) =>
        if rate.None? then Stop(Failed(NotFound))
        else if order.limitPrice.None? then Stop(Failed(Unexpected))
        else if !Crossed(order.side, rate.value, order.limitPrice.value) then Stop(Declined)
        else
          var b := GetCurrency(cfg, bc);
          var q := GetCurrency(cfg, qc);
          if b.None? || q.None? then Stop(Failed(NotFound))
          else
            var price := order.limitPrice.value;
            var bd, qd := cfg.decimals[b.value], cfg.decimals[q.value];
            var c := HoldCurrency(order.side, b.value, q.value);
            var held := HoldAmount(order.side, order.quantity, price, bd, qd);
            var to := if order.side == Buy then b.value else q.value;
            var toUnits := if order.side == Buy then order.quantity else QuoteAmount(order.quantity, price, qd);
            Go(Draft(TradeEntry, OrderRef(id), Swap(Pool(c, TradeHold), held, order.user, to, toUnits),
                     MarkFilled(id, price, at), Some(OrderFilled)))
  }

  function PlanRequest(cfg: Config, user: UserId, code: Code, amount: nat): Step {
    match GetCurrency(cfg, code)
    case None => Stop(Failed(NotFound))
    case Some(c) =>
      Go(Draft(WithdrawalHoldEntry, NoRef, Move(Wallet(user, c), Pool(c, WithdrawalPending), amount),
               InsertRequest(user, c, amount), None))
  }

  function PlanDecision(id: nat, admin: UserId, at: int, approve: bool, row: Row): Step {
    if !row.RequestRow? then Stop(Failed(NotFound))
    else if row.request.status != Pending then Stop(Failed(Conflict))
    else
      var r := row.request;
      var pending := Pool(r.currency, WithdrawalPending);
      if approve
      then Go(Draft(WithdrawalSettleEntry, RequestRef(id), Move(pending, Pool(r.currency, Treasury), r.amount),
                    Decide(id, Approved, admin, at), Some(WithdrawalApproved)))
      else Go(Draft(WithdrawalReleaseEntry, RequestRef(id), Move(pending, Wallet(r.user, r.currency), r.amount),
                    Decide(id, Rejected, admin, at), Some(WithdrawalRejected)))
  }

  function Plan(cfg: Config, op: Op, row: Row): Step
    requires ConfigOk(cfg)
  {
    match op
    case Deposit(user, code, amount) => PlanDeposit(cfg, user, code, amount)
    case Transfer(sender, recipient, code, amount) => PlanTransfer(cfg, sender, recipient, code, amount)
    case Convert(user, from, to, amount, rate) => PlanConvert(cfg, user, from, to, amount, rate)
    case MarketOrder(user, pair, side, quantity, rate, at) => PlanMarket(cfg, user, pair, side, quantity, rate, at)
    case PlaceLimit(user, pair, side, quantity, price) => PlanPlace(cfg, user, pair, side, quantity, price)
    case CancelOrder(user, id) => PlanCancel(cfg, user, id, row)
    case TryFill(id, rate, at) => PlanFill(cfg, id, rate, at, row)
    case RequestWithdrawal(user, code, amount) => PlanRequest(cfg, user, code, amount)
    case Approve(id, admin, at) => PlanDecision(id, admin, at, true, row)
    case Reject(id, admin, at) => PlanDecision(id, admin, at, false, row)
  }

  // ---------------------------------------------------------------- carrying a plan out

  /** The accounts an operation makes sure exist before it posts. */
  function KeysOf(step: Step): (keys: set<AccountKey>) {
    if step.Stop? then {} else set leg | leg in step.draft.legs :: leg.key
  }

  function LinesOf(index: map<AccountKey, int>, legs: seq<Leg>): (lines: seq<Line>)
    requires forall leg :: leg in legs ==> leg.key in index
    ensures |lines| == |legs|
    ensures forall i :: 0 <= i < |legs| ==>
              lines[i] == Line(index[legs[i].key], legs[i].direction, Fixed8(legs[i].units), legs[i].key.currency)
  {
    if legs == [] then []
    else
      assert forall leg :: leg in Init(legs) ==> leg in legs;
      var l := Last(legs);
      LinesOf(index, Init(legs)) + [Line(index[l.key], l.direction, Fixed8(l.units), l.key.currency)]
  }

  /** The check constraints on `orders` and `withdrawal_requests`. */
  predicate ChecksOk(change: Change) {
    match change
    case InsertHeld(o) => o.quantity > 0 && o.limitPrice.Some? && o.limitPrice.value > 0
    case InsertFilled(o) => o.quantity > 0 && o.limitPrice.None?
    case InsertRequest(_, _, amount) => amount > 0
    case _ => true
  }

  function ChangeOrders(orders: seq<Order>, change: Change, entry: nat): seq<Order> {
    match change
    case InsertHeld(o) => orders + [o.(holdEntry := Some(entry))]
    case InsertFilled(o) => orders + [o.(fillEntry := Some(entry))]
    case MarkFilled(id, price, at) =>
      if id < |orders|
      then orders[id := orders[id].(status := Filled, fillEntry := Some(entry), filledPrice := Some(price),
                                    filledAt := Some(at))]
      else orders
    case MarkCancelled(id) => if id < |orders| then orders[id := orders[id].(status := Cancelled)] else orders
    case _ => orders
  }

  function ChangeRequests(requests: seq<Request>, change: Change, entry: nat): seq<Request> {
    match change
    case InsertRequest(user, c, amount) =>
      requests + [Request(user, c, amount, Pending, None, None, entry, None)]
    case Decide(id, status, admin, at) =>
      if id < |requests|
      then requests[id := requests[id].(status := status, decidedBy := Some(admin), decidedAt := Some(at),
                                        settleEntry := Some(entry))]
      else requests
    case _ => requests
  }

  function AggregateOf(orders: seq<Order>, change: Change, entry: nat): nat {
    match change
    case InsertFilled(_) => |orders|
    case MarkFilled(id, _, _) => id
    case _ => entry
  }

  function Publish(outbox: seq<Event>, notice: Option<EventType>, aggregate: nat): seq<Event> {
    if notice.Some? then outbox + [Event(notice.value, aggregate)] else outbox
  }

  /** The database once the entry is in and the other rows of the transaction are written. */
  function Write(db: Db, draft: Draft, books: Books): Db {
    var entry := |db.books.journal|;
    Db(books, ChangeOrders(db.orders, draft.change, entry), ChangeRequests(db.requests, draft.change, entry),
       Publish(db.outbox, draft.notice, AggregateOf(db.orders, draft.change, entry)))
  }

  /** The transaction of a planned operation: all its rows, or none and the error. */
  function Execute(db: Db, draft: Draft): (Db, Outcome)
    requires forall leg :: leg in draft.legs ==> leg.key in db.books.index
  {
    match Post(db.books, draft.kind, draft.ref, LinesOf(db.books.index, draft.legs))
    case Err(e) => (db, Failed(Posting(e)))
    case Ok(books) =>
      if !ChecksOk(draft.change) then (db, Failed(CheckViolation))
      else (Write(db, draft, books), Done(|db.books.journal|))
  }

  predicate Covered(db: Db, step: Step) {
    step.Go? ==> forall leg :: leg in step.draft.legs ==> leg.key in db.books.index
  }

  /** An operation run alone, its accounts already there. */
  function Apply(cfg: Config, db: Db, op: Op): (Db, Outcome)
    requires ConfigOk(cfg)
    requires Covered(db, Plan(cfg, op, RowOf(db, op)))
  {
    match Plan(cfg, op, RowOf(db, op))
    case Stop(outcome) => (db, outcome)
    case Go(draft) => Execute(db, draft)
  }
}
