/**
 What holds between the tables after any number of operations: the books are in order, each pooled
 account holds exactly what the open rows say it holds, every order and request points at the entries
 that moved its money, and the outbox lists the notifying entries one for one.
 */
module Invariant {
  import opened Wrappers
  import opened Ledger
  import opened LedgerLaws
  import opened Trading
  import opened System

  // ---------------------------------------------------------------- pools

  function BalanceAt(b: Books, key: AccountKey): int {
    if key in b.index && b.index[key] in b.balances then b.balances[b.index[key]] else 0
  }

  function HeldIn(cfg: Config, o: Order, c: Code): int
    requires ConfigOk(cfg)
  {
    match Held(cfg, o)
    case Ok((code, units)) => if o.status == Open && code == c then units else 0
    case Err(_) => 0
  }

  function SumHeld(cfg: Config, orders: seq<Order>, c: Code): int
    requires ConfigOk(cfg)
  {
    if orders == [] then 0 else SumHeld(cfg, Init(orders), c) + HeldIn(cfg, Last(orders), c)
  }

  function PendingIn(r: Request, c: Code): int {
    if r.status == Pending && r.currency == c then r.amount else 0
  }

  function SumPending(requests: seq<Request>, c: Code): int {
    if requests == [] then 0 else SumPending(Init(requests), c) + PendingIn(Last(requests), c)
  }

  ghost predicate PoolsOk(cfg: Config, db: Db)
    requires ConfigOk(cfg)
  {
    forall c ::
      && BalanceAt(db.books, Pool(c, TradeHold)) == SumHeld(cfg, db.orders, c)
      && BalanceAt(db.books, Pool(c, WithdrawalPending)) == SumPending(db.requests, c)
      && BalanceAt(db.books, Pool(c, Fees)) >= 0
  }

  // ---------------------------------------------------------------- rows and their entries

  /** Entry `id` is the recorded posting of these legs. */
  ghost predicate EntryIs(b: Books, id: nat, kind: EntryType, ref: Ref, legs: seq<Leg>) {
    && id < |b.journal|
    && (forall leg :: leg in legs ==> leg.key in b.index)
    && b.journal[id] == Entry(kind, ref, LinesOf(b.index, legs))
  }

  /** A stored order's pair names two different known currencies, and its quantity is already rounded. */
  predicate PairOk(cfg: Config, o: Order)
    requires ConfigOk(cfg)
  {
    match SplitPair(o.pair)
    case None => false
    case Some((b, q)) =>
      && IsCode(b) && IsCode(q) && b != q
      && b in cfg.decimals && q in cfg.decimals
      && Rounded(o.quantity, cfg.decimals[b])
  }

  function HoldLegs(cfg: Config, o: Order): seq<Leg>
    requires ConfigOk(cfg)
  {
    match Held(cfg, o)
    case Ok((c, units)) => Move(Wallet(o.user, c), Pool(c, TradeHold), units)
    case Err(_) => []
  }

  function ReleaseLegs(cfg: Config, o: Order): seq<Leg>
    requires ConfigOk(cfg)
  {
    match Held(cfg, o)
    case Ok((c, units)) => Move(Pool(c, TradeHold), Wallet(o.user, c), units)
    case Err(_) => []
  }

  /** The pool pays treasury what was held; treasury pays the user the other side at the limit price. */
  function FillLegs(cfg: Config, o: Order): seq<Leg>
    requires ConfigOk(cfg) && PairOk(cfg, o) && o.limitPrice.Some?
  {
    var (b, q) := SplitPair(o.pair).value;
    var price := o.limitPrice.value;
    var cost := QuoteAmount(o.quantity, price, cfg.decimals[q]);
    if o.side == Buy then Swap(Pool(q, TradeHold), cost, o.user, b, o.quantity)
    else Swap(Pool(b, TradeHold), o.quantity, o.user, q, cost)
  }

  ghost predicate OrderOk(cfg: Config, b: Books, i: nat, o: Order)
    requires ConfigOk(cfg)
  {
    && o.quantity > 0
    && PairOk(cfg, o)
    && (o.kind == Market ==> o.limitPrice.None? && o.holdEntry.None? && o.status == Filled)
    && (o.kind == Limit ==>
          && o.limitPrice.Some? && o.limitPrice.value > 0
          && Held(cfg, o).Ok? && Held(cfg, o).value.1 > 0
          && o.holdEntry.Some? && EntryIs(b, o.holdEntry.value, TradeHoldEntry, NoRef, HoldLegs(cfg, o)))
    && (o.status == Filled <==> o.fillEntry.Some?)
    && (o.status == Filled <==> o.filledPrice.Some?)
    && (o.status == Filled <==> o.filledAt.Some?)
    && (o.kind == Limit && o.status == Filled ==>
          && o.filledPrice == o.limitPrice
          && EntryIs(b, o.fillEntry.value, TradeEntry, OrderRef(i), FillLegs(cfg, o)))
    && (o.status == Cancelled ==> exists e: nat :: EntryIs(b, e, TradeReleaseEntry, OrderRef(i), ReleaseLegs(cfg, o)))
  }

  function RequestLegs(r: Request): seq<Leg> {
    Move(Wallet(r.user, r.currency), Pool(r.currency, WithdrawalPending), r.amount)
  }

  function DecisionLegs(r: Request): seq<Leg> {
    Move(Pool(r.currency, WithdrawalPending),
         if r.status == Approved then Pool(r.currency, Treasury) else Wallet(r.user, r.currency), r.amount)
  }

  ghost predicate RequestOk(b: Books, i: nat, r: Request) {
    && r.amount > 0
    && EntryIs(b, r.holdEntry, WithdrawalHoldEntry, NoRef, RequestLegs(r))
    && (r.status != Pending <==> r.decidedBy.Some?)
    && (r.status != Pending <==> r.decidedAt.Some?)
    && (r.status != Pending <==> r.settleEntry.Some?)
    && (r.status == Approved ==>
          EntryIs(b, r.settleEntry.value, WithdrawalSettleEntry, RequestRef(i), DecisionLegs(r)))
    && (r.status == Rejected ==>
          EntryIs(b, r.settleEntry.value, WithdrawalReleaseEntry, RequestRef(i), DecisionLegs(r)))
  }

  ghost predicate RowsOk(cfg: Config, db: Db)
    requires ConfigOk(cfg)
  {
    && (forall i :: 0 <= i < |db.orders| ==> OrderOk(cfg, db.books, i, db.orders[i]))
    && (forall i :: 0 <= i < |db.requests| ==> RequestOk(db.books, i, db.requests[i]))
  }

  // ---------------------------------------------------------------- entries by kind

  /** The ids of the entries of the given kinds, oldest first. */
  function EntriesOf(journal: seq<Entry>, kinds: set<EntryType>): seq<nat> {
    if journal == [] then []
    else EntriesOf(Init(journal), kinds) + if Last(journal).kind in kinds then [|journal| - 1] else []
  }

  /** How many entries of a kind point back at a row. */
  function CountRef(journal: seq<Entry>, kind: EntryType, ref: Ref): nat {
    if journal == [] then 0
    else CountRef(Init(journal), kind, ref) + if Last(journal).kind == kind && Last(journal).ref == ref then 1 else 0
  }

  function HoldsOfOrders(orders: seq<Order>): seq<nat> {
    if orders == [] then []
    else HoldsOfOrders(Init(orders)) + if Last(orders).holdEntry.Some? then [Last(orders).holdEntry.value] else []
  }

  function HoldsOfRequests(requests: seq<Request>): seq<nat> {
    if requests == [] then [] else HoldsOfRequests(Init(requests)) + [Last(requests).holdEntry]
  }

  /** Holds belong to rows one for one, in order. */
  ghost predicate HoldsOk(db: Db) {
    && HoldsOfOrders(db.orders) == EntriesOf(db.books.journal, {TradeHoldEntry})
    && HoldsOfRequests(db.requests) == EntriesOf(db.books.journal, {WithdrawalHoldEntry})
  }

  function One(b: bool): nat { if b then 1 else 0 }

  /** A limit order has one resolving entry of the right kind once it has left OPEN, and none before. */
  ghost predicate ResolvedOk(db: Db) {
    && (forall i :: 0 <= i < |db.orders| ==>
          && CountRef(db.books.journal, TradeEntry, OrderRef(i)) ==
               One(db.orders[i].kind == Limit && db.orders[i].status == Filled)
          && CountRef(db.books.journal, TradeReleaseEntry, OrderRef(i)) == One(db.orders[i].status == Cancelled))
    && (forall i :: 0 <= i < |db.requests| ==>
          && CountRef(db.books.journal, WithdrawalSettleEntry, RequestRef(i)) == One(db.requests[i].status == Approved)
          && CountRef(db.books.journal, WithdrawalReleaseEntry, RequestRef(i)) == One(db.requests[i].status == Rejected))
    && (forall e :: 0 <= e < |db.books.journal| ==> RefKnown(db, db.books.journal[e].ref))
  }

  predicate RefKnown(db: Db, ref: Ref) {
    match ref
    case NoRef => true
    case OrderRef(i) => i < |db.orders|
    case RequestRef(i) => i < |db.requests|
  }

  // ---------------------------------------------------------------- outbox

  /** The kinds of entry that are announced. */
  const NOTIFYING: set<EntryType> :=
    {DepositEntry, TransferEntry, FxConvertEntry, TradeEntry, WithdrawalSettleEntry, WithdrawalReleaseEntry}

  function AnnouncedKind(e: EventType): EntryType {
    match e
    case TransferCompleted => TransferEntry
    case DepositCompleted => DepositEntry
    case WithdrawalApproved => WithdrawalSettleEntry
    case WithdrawalRejected => WithdrawalReleaseEntry
    case FxConverted => FxConvertEntry
    case OrderFilled => TradeEntry
  }

  /** The entry an outbox row is about: the order's fill for `OrderFilled`, the aggregate itself otherwise. */
  function AnnouncedEntry(orders: seq<Order>, e: Event): Option<nat> {
    if e.kind != OrderFilled then Some(e.aggregate)
    else if e.aggregate < |orders| then orders[e.aggregate].fillEntry
    else None
  }

  /** Row by row, the outbox announces the notifying entries, each once, in journal order. */
  ghost predicate OutboxOk(db: Db) {
    var due := EntriesOf(db.books.journal, NOTIFYING);
    && |db.outbox| == |due|
    && forall i :: 0 <= i < |due| ==>
         && AnnouncedEntry(db.orders, db.outbox[i]) == Some(due[i])
         && due[i] < |db.books.journal|
         && db.books.journal[due[i]].kind == AnnouncedKind(db.outbox[i].kind)
  }

  // ---------------------------------------------------------------- all of it

  /** Rows, journal, outbox and account tables agree; nothing here depends on the size of any amount. */
  ghost predicate Sound(cfg: Config, db: Db) {
    && ConfigOk(cfg)
    && IndexOk(db.books)
    && NoDebt(db.books)
    && RowsOk(cfg, db)
    && HoldsOk(db)
    && ResolvedOk(db)
    && OutboxOk(db)
  }

  /** ... and every balance is what the journal and the open rows say. */
  ghost predicate Inv(cfg: Config, db: Db) {
    && Sound(cfg, db)
    && BooksOk(db.books)
    && PoolsOk(cfg, db)
  }

  /** The database before anything happened. */
  function Empty(): Db {
    Db(Books(map[], map[], map[], []), [], [], [])
  }

  /** The entry this operation posts, if it posts one, keeps every sum within twenty digits. */
  predicate Roomy(cfg: Config, db: Db, op: Op)
    requires ConfigOk(cfg) && Covered(db, Plan(cfg, op, RowOf(db, op)))
  {
    match Plan(cfg, op, RowOf(db, op))
    case Stop(_) => true
    case Go(draft) => Headroom(db.books.balances, LinesOf(db.books.index, draft.legs))
  }

  predicate KeysFit(keys: set<AccountKey>) {
    forall k :: k in keys ==> KeyFits(k)
  }

  /** Only the account tables differ, by accounts created for `keys`. */
  ghost predicate Opened(before: Db, after: Db, keys: set<AccountKey>) {
    && KeysFit(keys)
    && Ensured(before.books, after.books, keys)
    && after == before.(books := after.books)
  }

  /** One operation that found or made its accounts in `mid` and then ran. */
  ghost predicate RanVia(cfg: Config, before: Db, mid: Db, op: Op, after: Db, outcome: Outcome) {
    && ConfigOk(cfg)
    && Opened(before, mid, KeysOf(Plan(cfg, op, RowOf(before, op))))
    && (after, outcome) == Apply(cfg, mid, op)
  }

  /** One operation, from making its accounts to its last row. */
  ghost predicate Ran(cfg: Config, before: Db, op: Op, after: Db, outcome: Outcome) {
    exists mid :: RanVia(cfg, before, mid, op, after, outcome)
  }

  /** The same, its sums within twenty digits. */
  ghost predicate RoomyVia(cfg: Config, before: Db, mid: Db, op: Op, after: Db, outcome: Outcome) {
    RanVia(cfg, before, mid, op, after, outcome) && Roomy(cfg, mid, op)
  }

  ghost predicate RanRoomy(cfg: Config, before: Db, op: Op, after: Db, outcome: Outcome) {
    exists mid :: RoomyVia(cfg, before, mid, op, after, outcome)
  }
}
