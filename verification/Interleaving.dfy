/**
 Any number of operations at once, one statement at a time.  A transaction may lock one order or request
 row, then has its accounts created one by one (each committed on its own), then locks balance rows in
 ascending account id reading each as it is locked, and finally writes everything and commits, or fails
 and releases.  Every such step is, on the committed tables, nothing, an account creation, or one whole
 atomic operation with the same outcome.

 Statements run on connections from one pool.  An open transaction keeps its connection to its end, and
 whatever it reads or creates outside itself needs a second one for that moment.
 */
module Interleaving {
  import opened Wrappers
  import opened Sums
  import opened Ledger
  import opened LedgerLaws
  import opened Trading
  import opened System
  import opened Invariant

  datatype Resource = OrderLock(order: nat) | RequestLock(request: nat) | AccountLock(account: int)

  /** Where a transaction is; `row` is the row it read under its row lock. */
  datatype Pc =
    | Ready
    | Begun
    | Locked(row: Row)
    | Opening(row: Row, draft: Draft, todo: seq<AccountKey>)
    | Locking(row: Row, draft: Draft, lines: seq<Line>, got: seq<int>)
    | Finished(outcome: Outcome)
    | Aborted

  datatype Txn = Txn(op: Op, pc: Pc)

  /** `pool` is how many connections there are. */
  datatype Sys = Sys(db: Db, locks: map<Resource, nat>, txns: seq<Txn>, pool: nat)

  predicate Over(t: Txn) { t.pc.Finished? || t.pc.Aborted? }

  /** The row resource an operation goes for, if that row exists. */
  function RowResource(db: Db, op: Op): Option<Resource> {
    if LocksOrder(op) && op.order < |db.orders| then Some(OrderLock(op.order))
    else if LocksRequest(op) && op.request < |db.requests| then Some(RequestLock(op.request))
    else None
  }

  predicate WantsRow(op: Op) { LocksOrder(op) || LocksRequest(op) }

  function KeysInOrder(legs: seq<Leg>): (keys: seq<AccountKey>)
    ensures |keys| == |legs| && forall i :: 0 <= i < |legs| ==> keys[i] == legs[i].key
  {
    if legs == [] then [] else KeysInOrder(Init(legs)) + [Last(legs).key]
  }

  // ---------------------------------------------------------------- steps

  function Release(locks: map<Resource, nat>, i: nat): map<Resource, nat> {
    map r | r in locks && locks[r] != i :: locks[r]
  }

  function Move1(s: Sys, i: nat, pc: Pc): Sys
    requires i < |s.txns|
  {
    s.(txns := s.txns[i := s.txns[i].(pc := pc)])
  }

  function End(s: Sys, i: nat, pc: Pc): Sys
    requires i < |s.txns|
  {
    Move1(s, i, pc).(locks := Release(s.locks, i))
  }

  /** Open the transaction, if the operation begins by locking a row. */
  function StepBegin(s: Sys, i: nat): Sys
    requires i < |s.txns|
  {
    Move1(s, i, if WantsRow(s.txns[i].op) then Begun else Locked(NoRow))
  }

  /** Take the row lock and read the row; a missing row locks nothing and decides at once. */
  function StepLockRow(cfg: Config, s: Sys, i: nat): Sys
    requires ConfigOk(cfg) && i < |s.txns|
  {
    var op := s.txns[i].op;
    var r := RowResource(s.db, op);
    if r.Some? then Move1(s, i, Locked(RowOf(s.db, op))).(locks := s.locks[r.value := i])
    else
      match Plan(cfg, op, NoRow)
      case Stop(outcome) => End(s, i, Finished(outcome))
      case Go(_) => s
  }

  function StepPlan(cfg: Config, s: Sys, i: nat): Sys
    requires ConfigOk(cfg) && i < |s.txns| && s.txns[i].pc.Locked?
  {
    var row := s.txns[i].pc.row;
    match Plan(cfg, s.txns[i].op, row)
    case Stop(outcome) => End(s, i, Finished(outcome))
    case Go(draft) => Move1(s, i, Opening(row, draft, KeysInOrder(draft.legs)))
  }

  function OpenOne(b: Books, key: AccountKey, uuid: int): Books {
    if key in b.index then b
    else b.(index := b.index[key := uuid], accounts := b.accounts[uuid := key], balances := b.balances[uuid := 0])
  }

  /** One `ensureAccount`, or, when all are there, validation and the first step of the locking query. */
  function StepOpen(s: Sys, i: nat, uuid: int): Sys
    requires i < |s.txns| && s.txns[i].pc.Opening?
  {
    var pc := s.txns[i].pc;
    if pc.todo != [] then
      Move1(s, i, pc.(todo := pc.todo[1..])).(db := s.db.(books := OpenOne(s.db.books, pc.todo[0], uuid)))
    else if !(forall leg :: leg in pc.draft.legs ==> leg.key in s.db.books.index) then s
    else
      var lines := LinesOf(s.db.books.index, pc.draft.legs);
      var fault := Validate(lines);
      if fault.Some? then End(s, i, Finished(Failed(Posting(Invalid(fault.value)))))
      else Move1(s, i, Locking(pc.row, pc.draft, lines, []))
  }

  /** The balances read under lock, by account. */
  function ReadMap(ids: seq<int>, got: seq<int>): (m: map<int, int>)
    requires |got| <= |ids|
  {
    if got == [] then map[] else ReadMap(ids, Init(got))[ids[|got| - 1] := Last(got)]
  }

  /** Lock the next balance row and read it; with all of them locked, decide, write and commit. */
  function StepPost(s: Sys, i: nat): Sys
    requires i < |s.txns| && s.txns[i].pc.Locking?
  {
    var pc := s.txns[i].pc;
    var ids := AccountIds(pc.lines);
    if |pc.got| < |ids| then
      var id := ids[|pc.got|];
      if id in s.db.books.balances
      then Move1(s, i, pc.(got := pc.got + [s.db.books.balances[id]])).(locks := s.locks[AccountLock(id) := i])
      else End(s, i, Finished(Failed(Posting(UnknownAccount))))
    else if |pc.got| > |ids| then s
    else
      match Settle(ReadMap(ids, pc.got), s.db.books.accounts, pc.lines)
      case Err(e) => End(s, i, Finished(Failed(Posting(e))))
      case Ok(written) =>
        if !ChecksOk(pc.draft.change) then End(s, i, Finished(Failed(CheckViolation)))
        else
          End(s, i, Finished(Done(|s.db.books.journal|))).(
            db := Write(s.db, pc.draft, WriteEntry(s.db.books, pc.draft.kind, pc.draft.ref, pc.lines, written)))
  }

  /** The lock a transaction has to wait for, if any. */
  function Awaits(s: Sys, i: nat): Option<Resource>
    requires i < |s.txns|
  {
    match s.txns[i].pc
    case Begun => RowResource(s.db, s.txns[i].op)
    case Locking(_, _, lines, got) =>
      if |got| < |AccountIds(lines)| then Some(AccountLock(AccountIds(lines)[|got|])) else None
    case _ => None
  }

  predicate AwaitsLock(s: Sys, i: nat)
    requires i < |s.txns|
  {
    Awaits(s, i).Some? && Awaits(s, i).value in s.locks
  }

  // ---------------------------------------------------------------- connections

  /** Operations whose transaction is open before their accounts are there. */
  predicate OpensFirst(op: Op) { WantsRow(op) || op.Convert? || op.MarketOrder? || op.PlaceLimit? }

  /** The transaction is open and has its connection. */
  predicate Connected(t: Txn) {
    match t.pc
    case Ready => false
    case Begun => true
    case Locked(_) => WantsRow(t.op)
    case Opening(_, _, _) => OpensFirst(t.op)
    case Locking(_, _, _, _) => true
    case Finished(_) => false
    case Aborted => false
  }

  function Connection(t: Txn): nat { if Connected(t) then 1 else 0 }

  function Free(s: Sys): int { s.pool - Total(s.txns, Connection) }

  /** With its row locked, the operation goes on to read the currencies of the order's pair. */
  predicate ReadsCurrencies(op: Op, row: Row) {
    && row.OrderRow? && row.order.status == Open && SplitPair(row.order.pair).Some?
    && match op
       case CancelOrder(user, _) => row.order.user == user
       case TryFill(_, rate, _) =>
         && row.order.kind == Limit && rate.Some? && row.order.limitPrice.Some?
         && Crossed(row.order.side, rate.value, row.order.limitPrice.value)
       case _ => false
  }

  /** Operations that look up the user to notify after posting, before they commit. */
  predicate LooksUpUser(op: Op) { op.Convert? || op.MarketOrder? || op.TryFill? || op.Approve? || op.Reject? }

  /** The transaction's entry will post. */
  predicate Posts(s: Sys, i: nat)
    requires i < |s.txns| && s.txns[i].pc.Locking?
  {
    var pc := s.txns[i].pc;
    var ids := AccountIds(pc.lines);
    && |pc.got| == |ids|
    && Settle(ReadMap(ids, pc.got), s.db.books.accounts, pc.lines).Ok?
    && ChecksOk(pc.draft.change)
  }

  /** The next statement needs a connection other than the transaction's own. */
  predicate NeedsSpare(s: Sys, i: nat)
    requires i < |s.txns|
  {
    var t := s.txns[i];
    match t.pc
    case Ready => true
    case Begun => false
    case Locked(row) => WantsRow(t.op) ==> ReadsCurrencies(t.op, row)
    case Opening(_, _, todo) => todo != [] || !OpensFirst(t.op)
    case Locking(_, _, _, _) => LooksUpUser(t.op) && Posts(s, i)
    case Finished(_) => false
    case Aborted => false
  }

  predicate Enabled(s: Sys, i: nat)
    requires i < |s.txns|
  {
    !Over(s.txns[i]) && !AwaitsLock(s, i) && (NeedsSpare(s, i) ==> Free(s) > 0)
  }

  function Advance(cfg: Config, s: Sys, i: nat, uuid: int): Sys
    requires ConfigOk(cfg) && i < |s.txns| && Enabled(s, i)
  {
    match s.txns[i].pc
    case Ready => StepBegin(s, i)
    case Begun => StepLockRow(cfg, s, i)
    case Locked(_) => StepPlan(cfg, s, i)
    case Opening(_, _, _) => StepOpen(s, i, uuid)
    case Locking(_, _, _, _) => StepPost(s, i)
  }

  /** Transaction `i` takes its next step (with a fresh id if it creates an account), or is aborted. */
  ghost predicate StepBy(cfg: Config, s: Sys, i: nat, s': Sys) {
    && ConfigOk(cfg) && i < |s.txns| && !Over(s.txns[i])
    && (s' == End(s, i, Aborted)
        || (Enabled(s, i) && exists uuid :: uuid !in s.db.books.accounts && s' == Advance(cfg, s, i, uuid)))
  }

  // ---------------------------------------------------------------- invariant

  function HoldsRow(t: Txn): set<Resource> {
    if Over(t) || t.pc.Ready? || t.pc.Begun? then {}
    else
      match t.pc.row
      case NoRow => {}
      case OrderRow(_) => if LocksOrder(t.op) then {OrderLock(t.op.order)} else {}
      case RequestRow(_) => if LocksRequest(t.op) then {RequestLock(t.op.request)} else {}
  }

  /** The locks a transaction has taken, told from where it is. */
  predicate Holds(t: Txn, r: Resource) {
    || r in HoldsRow(t)
    || (t.pc.Locking? && r.AccountLock? && r.account in AccountIds(t.pc.lines)[..Min(|t.pc.got|, |AccountIds(t.pc.lines)|)])
  }

  function Min(a: nat, b: nat): nat { if a < b then a else b }

  ghost predicate LocksOk(s: Sys) {
    && (forall r :: r in s.locks ==> s.locks[r] < |s.txns| && Holds(s.txns[s.locks[r]], r))
    && (forall i, r :: 0 <= i < |s.txns| && Holds(s.txns[i], r) ==> r in s.locks && s.locks[r] == i)
  }

  /** A row-locking operation past its first step holds its row. */
  predicate RowHeld(t: Txn) {
    Over(t) || t.pc.Ready? || t.pc.Begun? || !WantsRow(t.op) || HoldsRow(t) != {}
  }

  /** What a running transaction knows is still so in the committed tables. */
  ghost predicate TxnOk(cfg: Config, db: Db, t: Txn)
    requires ConfigOk(cfg)
  {
    match t.pc
    case Begun => WantsRow(t.op)
    case Locked(row) => row == RowOf(db, t.op)
    case Opening(row, draft, todo) =>
      && row == RowOf(db, t.op) && Plan(cfg, t.op, row) == Go(draft)
      && |todo| <= |draft.legs| && (forall k :: k in todo ==> KeyFits(k))
      && forall leg :: leg in draft.legs ==> leg.key in db.books.index || leg.key in todo
    case Locking(row, draft, lines, got) =>
      && row == RowOf(db, t.op) && Plan(cfg, t.op, row) == Go(draft)
      && (forall leg :: leg in draft.legs ==> leg.key in db.books.index)
      && lines == LinesOf(db.books.index, draft.legs)
      && Validate(lines).None?
      && |got| <= |AccountIds(lines)|
      && forall k :: 0 <= k < |got| ==>
           AccountIds(lines)[k] in db.books.balances && got[k] == db.books.balances[AccountIds(lines)[k]]
    case _ => true
  }

  ghost predicate SysOk(cfg: Config, s: Sys) {
    && ConfigOk(cfg)
    && IndexOk(s.db.books)
    && LocksOk(s)
    && forall i :: 0 <= i < |s.txns| ==> TxnOk(cfg, s.db, s.txns[i]) && RowHeld(s.txns[i])
  }

  /** No more connections are held than there are. */
  predicate PoolOk(s: Sys) { Free(s) >= 0 }

  // ---------------------------------------------------------------- refinement

  /** One step of one transaction, seen from the committed tables. */
  ghost predicate Refines(cfg: Config, s: Sys, i: nat, s': Sys)
    requires ConfigOk(cfg) && i < |s.txns| && i < |s'.txns|
  {
    if s'.txns[i].pc.Finished? then
      && Covered(s.db, Plan(cfg, s.txns[i].op, RowOf(s.db, s.txns[i].op)))
      && (s'.db, s'.txns[i].pc.outcome) == Apply(cfg, s.db, s.txns[i].op)
    else s'.db == s.db || exists key :: Opened(s.db, s'.db, {key})
  }
}
