/** Every interleaving of transactions refines atomic operations in the order they finish. */
module Refinement {
  import opened Wrappers
  import opened Decimals
  import opened Ledger
  import opened LedgerLaws
  import opened Trading
  import opened System
  import opened Invariant
  import opened Interleaving

  // ---------------------------------------------------------------- locks

  /** A step that takes at most one free lock keeps the lock table and the holders in agreement. */
  lemma LocksTaken(s: Sys, i: nat, pc: Pc, taken: set<Resource>, s': Sys)
    requires LocksOk(s) && i < |s.txns|
    requires forall r :: r in taken ==> r !in s.locks
    requires forall r :: Holds(s.txns[i].(pc := pc), r) <==> Holds(s.txns[i], r) || r in taken
    requires s'.txns == s.txns[i := s.txns[i].(pc := pc)]
    requires s'.locks.Keys == s.locks.Keys + taken
    requires forall r :: r in s'.locks ==> s'.locks[r] == if r in taken then i else s.locks[r]
    ensures LocksOk(s')
  {
    forall r | r in s'.locks ensures s'.locks[r] < |s'.txns| && Holds(s'.txns[s'.locks[r]], r) {
    }
    forall j, r | 0 <= j < |s'.txns| && Holds(s'.txns[j], r) ensures r in s'.locks && s'.locks[r] == j {
    }
  }

  lemma LocksReleased(s: Sys, i: nat, pc: Pc, s': Sys)
    requires LocksOk(s) && i < |s.txns| && (pc.Finished? || pc.Aborted?)
    requires s'.txns == s.txns[i := s.txns[i].(pc := pc)] && s'.locks == Release(s.locks, i)
    ensures LocksOk(s')
  {
    var t := s.txns[i].(pc := pc);
    assert forall r :: !Holds(t, r);
    forall j, r | 0 <= j < |s'.txns| && Holds(s'.txns[j], r) ensures r in s'.locks && s'.locks[r] == j {
    }
  }

  // ---------------------------------------------------------------- what others' steps leave alone

  /** The committed tables moved on without touching what `t` has read or created. */
  ghost predicate Undisturbed(db: Db, db': Db, t: Txn) {
    && (forall k :: k in db.books.index ==> k in db'.books.index && db'.books.index[k] == db.books.index[k])
    && (HoldsRow(t) != {} || !WantsRow(t.op) ==> RowOf(db', t.op) == RowOf(db, t.op))
    && (t.pc.Locking? ==>
          forall k :: 0 <= k < |t.pc.got| && k < |AccountIds(t.pc.lines)| && AccountIds(t.pc.lines)[k] in db.books.balances ==>
            && AccountIds(t.pc.lines)[k] in db'.books.balances
            && db'.books.balances[AccountIds(t.pc.lines)[k]] == db.books.balances[AccountIds(t.pc.lines)[k]])
  }

  lemma SameLines(index: map<AccountKey, int>, index': map<AccountKey, int>, legs: seq<Leg>)
    requires forall leg :: leg in legs ==> leg.key in index
    requires forall k :: k in index ==> k in index' && index'[k] == index[k]
    ensures LinesOf(index', legs) == LinesOf(index, legs)
  {
    var l1, l2 := LinesOf(index, legs), LinesOf(index', legs);
    assert forall i :: 0 <= i < |legs| ==> legs[i] in legs && l1[i] == l2[i];
  }

  lemma StillOk(cfg: Config, db: Db, db': Db, t: Txn)
    requires ConfigOk(cfg) && TxnOk(cfg, db, t) && RowHeld(t) && Undisturbed(db, db', t)
    ensures TxnOk(cfg, db', t)
  {
    if t.pc.Locking? {
      SameLines(db.books.index, db'.books.index, t.pc.draft.legs);
    }
  }

  /** A step of one transaction leaves every other one as sound as it was. */
  lemma OthersOk(cfg: Config, s: Sys, i: nat, s': Sys)
    requires SysOk(cfg, s) && i < |s.txns| == |s'.txns|
    requires forall j :: 0 <= j < |s.txns| && j != i ==>
               s'.txns[j] == s.txns[j] && Undisturbed(s.db, s'.db, s.txns[j])
    requires IndexOk(s'.db.books) && LocksOk(s')
    requires TxnOk(cfg, s'.db, s'.txns[i]) && RowHeld(s'.txns[i])
    ensures SysOk(cfg, s')
  {
    forall j | 0 <= j < |s'.txns| ensures TxnOk(cfg, s'.db, s'.txns[j]) && RowHeld(s'.txns[j]) {
      if j != i {
        StillOk(cfg, s.db, s'.db, s.txns[j]);
      }
    }
  }

  // ---------------------------------------------------------------- plans

  ghost predicate Shapely(legs: seq<Leg>) {
    |legs| <= 4 && forall i :: 0 <= i < |legs| ==> KeyFits(legs[i].key)
  }

  lemma FillShapely(cfg: Config, id: nat, rate: Option<Rate>, at: int, row: Row)
    requires ConfigOk(cfg) && PlanFill(cfg, id, rate, at, row).Go?
    ensures Shapely(PlanFill(cfg, id, rate, at, row).draft.legs)
  {
    hide HoldAmount, QuoteAmount, SplitPair, Crossed;
  }

  lemma MarketShapely(cfg: Config, user: UserId, pair: string, side: Side, quantity: nat, rate: Option<Rate>, at: int)
    requires ConfigOk(cfg) && PlanMarket(cfg, user, pair, side, quantity, rate, at).Go?
    ensures Shapely(PlanMarket(cfg, user, pair, side, quantity, rate, at).draft.legs)
  {
    hide ResolvePair, RoundTo, MarketAmount, FixedRate;
  }

  /** Every plan has at most four legs, all on accounts that may exist. */
  lemma PlanShapely(cfg: Config, op: Op, row: Row)
    requires ConfigOk(cfg) && Plan(cfg, op, row).Go?
    ensures Shapely(Plan(cfg, op, row).draft.legs)
  {
    hide PlanFill, PlanMarket;
    match op
    case TryFill(id, rate, at) => FillShapely(cfg, id, rate, at, row);
    case MarketOrder(user, pair, side, quantity, rate, at) => MarketShapely(cfg, user, pair, side, quantity, rate, at);
    case _ =>
  }

  /** The row a plan will change is the one the operation locked. */
  lemma PlanTouchesOwnRow(cfg: Config, op: Op, row: Row)
    requires ConfigOk(cfg) && Plan(cfg, op, row).Go?
    ensures match Plan(cfg, op, row).draft.change
            case MarkFilled(id, _, _) => LocksOrder(op) && id == op.order
            case MarkCancelled(id) => LocksOrder(op) && id == op.order
            case Decide(id, _, _, _) => LocksRequest(op) && id == op.request
            case _ => true
  {
  }

  lemma NoRowNoDraft(cfg: Config, op: Op)
    requires ConfigOk(cfg) && WantsRow(op)
    ensures Plan(cfg, op, NoRow).Stop?
  {
  }

  // ---------------------------------------------------------------- steps that write nothing

  lemma AbortKeeps(cfg: Config, s: Sys, i: nat)
    requires SysOk(cfg, s) && i < |s.txns|
    ensures SysOk(cfg, End(s, i, Aborted))
  {
    LocksReleased(s, i, Aborted, End(s, i, Aborted));
    OthersOk(cfg, s, i, End(s, i, Aborted));
  }

  lemma FinishKeeps(cfg: Config, s: Sys, i: nat, outcome: Outcome)
    requires SysOk(cfg, s) && i < |s.txns|
    ensures SysOk(cfg, End(s, i, Finished(outcome)))
  {
    LocksReleased(s, i, Finished(outcome), End(s, i, Finished(outcome)));
    OthersOk(cfg, s, i, End(s, i, Finished(outcome)));
  }

  /** A transaction that moves on without touching locks or tables keeps the system sound. */
  lemma QuietKeeps(cfg: Config, s: Sys, i: nat, pc: Pc)
    requires SysOk(cfg, s) && i < |s.txns|
    requires TxnOk(cfg, s.db, s.txns[i].(pc := pc)) && RowHeld(s.txns[i].(pc := pc))
    requires forall r :: Holds(s.txns[i].(pc := pc), r) <==> Holds(s.txns[i], r)
    ensures SysOk(cfg, Move1(s, i, pc))
  {
    hide TxnOk, Holds, RowHeld, LocksOk, IndexOk, HoldsRow;
    LocksTaken(s, i, pc, {}, Move1(s, i, pc));
    OthersOk(cfg, s, i, Move1(s, i, pc));
  }

  lemma BeginKeeps(cfg: Config, s: Sys, i: nat)
    requires SysOk(cfg, s) && i < |s.txns| && s.txns[i].pc.Ready?
    ensures SysOk(cfg, StepBegin(s, i)) && Refines(cfg, s, i, StepBegin(s, i))
  {
    hide Plan, IndexOk, LocksOk, SysOk;
    SysConfig(cfg, s);
    QuietKeeps(cfg, s, i, StepBegin(s, i).txns[i].pc);
  }

  lemma SysConfig(cfg: Config, s: Sys)
    requires SysOk(cfg, s)
    ensures ConfigOk(cfg)
  {
  }

  lemma LockRowKeeps(cfg: Config, s: Sys, i: nat)
    requires SysOk(cfg, s) && i < |s.txns| && s.txns[i].pc.Begun? && WantsRow(s.txns[i].op) && !AwaitsLock(s, i)
    ensures SysOk(cfg, StepLockRow(cfg, s, i)) && Refines(cfg, s, i, StepLockRow(cfg, s, i))
  {
    hide Plan, IndexOk, LocksOk;
    var op := s.txns[i].op;
    var s' := StepLockRow(cfg, s, i);
    var r := RowResource(s.db, op);
    if r.Some? {
      LocksTaken(s, i, Locked(RowOf(s.db, op)), {r.value}, s');
      OthersOk(cfg, s, i, s');
    } else {
      NoRowNoDraft(cfg, op);
      FinishKeeps(cfg, s, i, Plan(cfg, op, NoRow).outcome);
    }
  }

  /** Having planned, the transaction knows its draft and has all its accounts to find. */
  lemma PlannedOk(cfg: Config, db: Db, t: Txn, draft: Draft)
    requires ConfigOk(cfg) && t.pc.Locked? && TxnOk(cfg, db, t) && RowHeld(t) && Plan(cfg, t.op, t.pc.row) == Go(draft)
    ensures var t' := t.(pc := Opening(t.pc.row, draft, KeysInOrder(draft.legs)));
            TxnOk(cfg, db, t') && RowHeld(t') && forall r :: Holds(t', r) <==> Holds(t, r)
  {
    hide Plan;
    PlanShapely(cfg, t.op, t.pc.row);
    var keys := KeysInOrder(draft.legs);
    forall leg | leg in draft.legs ensures leg.key in keys {
      var n :| 0 <= n < |draft.legs| && draft.legs[n] == leg;
      assert keys[n] == leg.key;
    }
  }

  lemma PlanKeeps(cfg: Config, s: Sys, i: nat)
    requires SysOk(cfg, s) && i < |s.txns| && s.txns[i].pc.Locked?
    ensures SysOk(cfg, StepPlan(cfg, s, i)) && Refines(cfg, s, i, StepPlan(cfg, s, i))
  {
    hide Plan, IndexOk, LocksOk, Holds, RowHeld, KeysInOrder;
    var t := s.txns[i];
    assert TxnOk(cfg, s.db, t) && RowHeld(t);
    match Plan(cfg, t.op, t.pc.row)
    case Stop(outcome) => FinishKeeps(cfg, s, i, outcome);
    case Go(draft) =>
      PlannedOk(cfg, s.db, t, draft);
      QuietKeeps(cfg, s, i, Opening(t.pc.row, draft, KeysInOrder(draft.legs)));
  }

  // ---------------------------------------------------------------- creating accounts

  lemma OpenOneOpens(db: Db, key: AccountKey, uuid: int)
    requires IndexOk(db.books) && KeyFits(key) && uuid !in db.books.accounts
    ensures Opened(db, db.(books := OpenOne(db.books, key, uuid)), {key})
    ensures IndexOk(OpenOne(db.books, key, uuid)) && key in OpenOne(db.books, key, uuid).index
  {
  }

  lemma OpenDisturbsNoOne(db: Db, key: AccountKey, uuid: int, t: Txn)
    requires IndexOk(db.books) && uuid !in db.books.accounts
    ensures Undisturbed(db, db.(books := OpenOne(db.books, key, uuid)), t)
  {
  }

  /** The transaction has one account less to find. */
  lemma FoundOne(cfg: Config, db: Db, t: Txn, uuid: int)
    requires ConfigOk(cfg) && IndexOk(db.books) && TxnOk(cfg, db, t) && t.pc.Opening? && t.pc.todo != []
    requires uuid !in db.books.accounts && RowHeld(t)
    ensures KeyFits(t.pc.todo[0])
    ensures var t' := t.(pc := t.pc.(todo := t.pc.todo[1..]));
            && TxnOk(cfg, db.(books := OpenOne(db.books, t.pc.todo[0], uuid)), t') && RowHeld(t')
            && forall r :: Holds(t', r) <==> Holds(t, r)
  {
    hide Plan, IndexOk, KeyFits;
    assert t.pc.todo[0] in t.pc.todo;
    assert forall k :: k in t.pc.todo ==> k == t.pc.todo[0] || k in t.pc.todo[1..];
    assert forall k :: k in t.pc.todo[1..] ==> k in t.pc.todo;
  }

  lemma OpenKeeps(cfg: Config, s: Sys, i: nat, uuid: int)
    requires SysOk(cfg, s) && i < |s.txns| && s.txns[i].pc.Opening? && s.txns[i].pc.todo != []
    requires uuid !in s.db.books.accounts
    ensures SysOk(cfg, StepOpen(s, i, uuid)) && Refines(cfg, s, i, StepOpen(s, i, uuid))
  {
    hide IndexOk, Plan, OpenOne, Opened, LocksOk, TxnOk, Holds, RowHeld, KeyFits, Undisturbed;
    var t := s.txns[i];
    assert TxnOk(cfg, s.db, t) && RowHeld(t);
    var s' := StepOpen(s, i, uuid);
    FoundOne(cfg, s.db, t, uuid);
    OpenOneOpens(s.db, t.pc.todo[0], uuid);
    forall j | 0 <= j < |s.txns| ensures Undisturbed(s.db, s'.db, s.txns[j]) {
      OpenDisturbsNoOne(s.db, t.pc.todo[0], uuid, s.txns[j]);
    }
    LocksTaken(s, i, s'.txns[i].pc, {}, s');
    OthersOk(cfg, s, i, s');
  }

  /** With all accounts found and the lines valid, the transaction begins to lock balances. */
  lemma PostingOk(cfg: Config, db: Db, t: Txn)
    requires ConfigOk(cfg) && TxnOk(cfg, db, t) && t.pc.Opening? && t.pc.todo == [] && RowHeld(t)
    ensures forall leg :: leg in t.pc.draft.legs ==> leg.key in db.books.index
    ensures var lines := LinesOf(db.books.index, t.pc.draft.legs);
            Validate(lines).None? ==>
              var t' := t.(pc := Locking(t.pc.row, t.pc.draft, lines, []));
              TxnOk(cfg, db, t') && RowHeld(t') && forall r :: Holds(t', r) <==> Holds(t, r)
  {
    hide Plan, Validate, LinesOf, AccountIds;
  }

  /** With the accounts in place an invalid entry is refused before anything is locked. */
  lemma StartPostingKeeps(cfg: Config, s: Sys, i: nat, uuid: int)
    requires SysOk(cfg, s) && i < |s.txns| && s.txns[i].pc.Opening? && s.txns[i].pc.todo == []
    ensures SysOk(cfg, StepOpen(s, i, uuid)) && Refines(cfg, s, i, StepOpen(s, i, uuid))
  {
    hide IndexOk, Plan, Validate, Settle, LocksOk, Holds, RowHeld, LinesOf, AccountIds;
    var t := s.txns[i];
    assert TxnOk(cfg, s.db, t) && RowHeld(t);
    PostingOk(cfg, s.db, t);
    var lines := LinesOf(s.db.books.index, t.pc.draft.legs);
    var fault := Validate(lines);
    if fault.Some? {
      FinishKeeps(cfg, s, i, Failed(Posting(Invalid(fault.value))));
    } else {
      QuietKeeps(cfg, s, i, Locking(t.pc.row, t.pc.draft, lines, []));
    }
  }

  // ---------------------------------------------------------------- locking balances

  lemma PostedAccountsExist(b: Books, legs: seq<Leg>)
    requires IndexOk(b) && forall leg :: leg in legs ==> leg.key in b.index
    ensures forall id :: id in AccountIds(LinesOf(b.index, legs)) ==> id in b.balances && id in b.accounts
  {
    var lines := LinesOf(b.index, legs);
    forall id | id in AccountIds(lines) ensures id in b.balances && id in b.accounts {
      var n :| 0 <= n < |lines| && lines[n].account == id;
      assert legs[n] in legs;
    }
  }

  /** What the transaction holds and knows with one more account locked and read. */
  lemma OneMoreRead(cfg: Config, s: Sys, i: nat)
    requires SysOk(cfg, s) && i < |s.txns| && s.txns[i].pc.Locking?
    requires |s.txns[i].pc.got| < |AccountIds(s.txns[i].pc.lines)|
    ensures var pc := s.txns[i].pc;
            var id := AccountIds(pc.lines)[|pc.got|];
            && id in s.db.books.balances
            && var t' := s.txns[i].(pc := pc.(got := pc.got + [s.db.books.balances[id]]));
               && TxnOk(cfg, s.db, t') && RowHeld(t')
               && forall r :: Holds(t', r) <==> Holds(s.txns[i], r) || r == AccountLock(id)
  {
    hide IndexOk, Plan, AccountIds, Validate, LocksOk, LinesOf;
    assert TxnOk(cfg, s.db, s.txns[i]);
    var pc := s.txns[i].pc;
    var ids := AccountIds(pc.lines);
    var n := |pc.got|;
    PostedAccountsExist(s.db.books, pc.draft.legs);
    assert ids[n] in ids;
    assert ids[..n + 1] == ids[..n] + [ids[n]];
  }

  lemma LockAccountKeeps(cfg: Config, s: Sys, i: nat)
    requires SysOk(cfg, s) && i < |s.txns| && s.txns[i].pc.Locking? && !AwaitsLock(s, i)
    requires |s.txns[i].pc.got| < |AccountIds(s.txns[i].pc.lines)|
    ensures SysOk(cfg, StepPost(s, i)) && Refines(cfg, s, i, StepPost(s, i))
  {
    hide IndexOk, Plan, AccountIds, Validate, TxnOk, Holds, LocksOk, RowHeld, LinesOf, Settle;
    var pc := s.txns[i].pc;
    var id := AccountIds(pc.lines)[|pc.got|];
    OneMoreRead(cfg, s, i);
    var s' := StepPost(s, i);
    LocksTaken(s, i, s'.txns[i].pc, {AccountLock(id)}, s');
    OthersOk(cfg, s, i, s');
  }

  // ---------------------------------------------------------------- deciding and committing

  lemma {:induction false} ReadMapIs(ids: seq<int>, got: seq<int>)
    requires |got| <= |ids| && Ascending(ids)
    ensures forall id :: id in ReadMap(ids, got) <==> exists k :: 0 <= k < |got| && ids[k] == id
    ensures forall k :: 0 <= k < |got| ==> ids[k] in ReadMap(ids, got) && ReadMap(ids, got)[ids[k]] == got[k]
  {
    if got != [] {
      ReadMapIs(ids, Init(got));
    }
  }

  lemma {:induction false} OverdrawnSame(read: map<int, int>, read': map<int, int>, accounts: map<int, AccountKey>,
                                         lines: seq<Line>, ids: seq<int>)
    requires Known(read, accounts, ids) && Known(read', accounts, ids)
    requires forall id :: id in ids ==> read'[id] == read[id]
    ensures FirstOverdrawn(read', accounts, lines, ids) == FirstOverdrawn(read, accounts, lines, ids)
  {
    if ids != [] {
      assert forall id :: id in Init(ids) ==> id in ids;
      OverdrawnSame(read, read', accounts, lines, Init(ids));
    }
  }

  /** The decision depends on the locked rows only. */
  lemma SettleSame(read: map<int, int>, read': map<int, int>, accounts: map<int, AccountKey>, lines: seq<Line>)
    requires Known(read, accounts, AccountIds(lines)) && Known(read', accounts, AccountIds(lines))
    requires forall id :: id in AccountIds(lines) ==> read'[id] == read[id]
    ensures Settle(read', accounts, lines) == Settle(read, accounts, lines)
  {
    hide AccountIds, NewBalance;
    var ids := AccountIds(lines);
    OverdrawnSame(read, read', accounts, lines, ids);
    assert (map id | id in ids :: NewBalance(read'[id], lines, id)) == map id | id in ids :: NewBalance(read[id], lines, id);
  }

  /** Under the locks, what was read is what is committed. */
  lemma ReadIsCurrent(b: Books, legs: seq<Leg>, got: seq<int>)
    requires IndexOk(b) && forall leg :: leg in legs ==> leg.key in b.index
    requires var ids := AccountIds(LinesOf(b.index, legs));
             |got| == |ids| && forall k :: 0 <= k < |got| ==> ids[k] in b.balances && got[k] == b.balances[ids[k]]
    ensures var lines := LinesOf(b.index, legs);
            Settle(ReadMap(AccountIds(lines), got), b.accounts, lines) == Settle(b.balances, b.accounts, lines)
  {
    hide IndexOk, Settle, AccountIds, LinesOf, ReadMap, Ascending;
    var lines := LinesOf(b.index, legs);
    var ids := AccountIds(lines);
    PostedAccountsExist(b, legs);
    ReadMapIs(ids, got);
    var read := ReadMap(ids, got);
    forall id | id in ids ensures id in read && read[id] == b.balances[id] {
      var k :| 0 <= k < |ids| && ids[k] == id;
    }
    SettleSame(b.balances, read, b.accounts, lines);
  }

  lemma WrittenKeys(read: map<int, int>, accounts: map<int, AccountKey>, lines: seq<Line>)
    requires Settle(read, accounts, lines).Ok?
    ensures forall id :: id in Settle(read, accounts, lines).value ==> id in AccountIds(lines) && id in read
  {
  }

  /** Two transactions never hold the same lock. */
  lemma NotShared(s: Sys, i: nat, j: nat, r: Resource)
    requires LocksOk(s) && i < |s.txns| && j < |s.txns| && i != j && Holds(s.txns[i], r)
    ensures !Holds(s.txns[j], r)
  {
    assert r in s.locks && s.locks[r] == i;
  }

  /** A commit writes only rows its transaction holds, so nobody else's reading goes stale. */
  lemma CommitDisturbsNoOne(cfg: Config, s: Sys, i: nat, j: nat)
    requires SysOk(cfg, s) && i < |s.txns| && j < |s.txns| && i != j
    requires s.txns[i].pc.Locking? && |s.txns[i].pc.got| == |AccountIds(s.txns[i].pc.lines)|
    requires Settle(s.db.books.balances, s.db.books.accounts, s.txns[i].pc.lines).Ok?
    ensures var pc := s.txns[i].pc;
            var written := Settle(s.db.books.balances, s.db.books.accounts, pc.lines).value;
            Undisturbed(s.db, Write(s.db, pc.draft, WriteEntry(s.db.books, pc.draft.kind, pc.draft.ref, pc.lines, written)),
                        s.txns[j])
  {
    hide IndexOk, Plan, Settle, Validate, AccountIds;
    var pc, u := s.txns[i].pc, s.txns[j];
    var written := Settle(s.db.books.balances, s.db.books.accounts, pc.lines).value;
    var db' := Write(s.db, pc.draft, WriteEntry(s.db.books, pc.draft.kind, pc.draft.ref, pc.lines, written));
    WrittenKeys(s.db.books.balances, s.db.books.accounts, pc.lines);
    if HoldsRow(u) != {} || !WantsRow(u.op) {
      CommitKeepsRow(cfg, s, i, j);
    }
    if u.pc.Locking? {
      var ids, mine := AccountIds(u.pc.lines), AccountIds(pc.lines);
      forall k | 0 <= k < |u.pc.got| && k < |ids| && ids[k] in s.db.books.balances
        ensures ids[k] in db'.books.balances && db'.books.balances[ids[k]] == s.db.books.balances[ids[k]]
      {
        assert ids[k] in ids[..Min(|u.pc.got|, |ids|)];
        assert Holds(u, AccountLock(ids[k]));
        NotShared(s, j, i, AccountLock(ids[k]));
        assert mine[..Min(|pc.got|, |mine|)] == mine;
        assert ids[k] !in mine;
      }
    }
  }

  lemma CommitKeepsRow(cfg: Config, s: Sys, i: nat, j: nat)
    requires SysOk(cfg, s) && i < |s.txns| && j < |s.txns| && i != j && s.txns[i].pc.Locking?
    requires HoldsRow(s.txns[j]) != {} || !WantsRow(s.txns[j].op)
    ensures forall books, entry: nat, outbox ::
              RowOf(Db(books, ChangeOrders(s.db.orders, s.txns[i].pc.draft.change, entry),
                       ChangeRequests(s.db.requests, s.txns[i].pc.draft.change, entry), outbox), s.txns[j].op)
              == RowOf(s.db, s.txns[j].op)
  {
    hide IndexOk, Plan, Settle, Validate, AccountIds;
    var t, u := s.txns[i], s.txns[j];
    PlanTouchesOwnRow(cfg, t.op, t.pc.row);
    if WantsRow(u.op) {
      var r :| r in HoldsRow(u);
      NotShared(s, j, i, r);
    }
  }

  /** What posting a draft comes to once its lines validate and the decision on them is known. */
  lemma ExecuteSettled(db: Db, draft: Draft)
    requires forall leg :: leg in draft.legs ==> leg.key in db.books.index
    requires Validate(LinesOf(db.books.index, draft.legs)).None?
    ensures var lines := LinesOf(db.books.index, draft.legs);
            Execute(db, draft) ==
            match Settle(db.books.balances, db.books.accounts, lines)
            case Err(e) => (db, Failed(Posting(e)))
            case Ok(written) =>
              if !ChecksOk(draft.change) then (db, Failed(CheckViolation))
              else (Write(db, draft, WriteEntry(db.books, draft.kind, draft.ref, lines, written)),
                    Done(|db.books.journal|))
  {
  }

  lemma WrittenIndexOk(b: Books, kind: EntryType, ref: Ref, lines: seq<Line>)
    requires IndexOk(b) && Settle(b.balances, b.accounts, lines).Ok?
    ensures IndexOk(WriteEntry(b, kind, ref, lines, Settle(b.balances, b.accounts, lines).value))
  {
    SettleTouchesKnown(b, lines);
  }

  /** With every lock held, the transaction decides and commits exactly as the atomic operation would now. */
  lemma CommitKeeps(cfg: Config, s: Sys, i: nat)
    requires SysOk(cfg, s) && i < |s.txns| && s.txns[i].pc.Locking?
    requires |s.txns[i].pc.got| == |AccountIds(s.txns[i].pc.lines)|
    ensures SysOk(cfg, StepPost(s, i)) && Refines(cfg, s, i, StepPost(s, i))
  {
    hide IndexOk, Plan, Settle, Validate, AccountIds, Execute, Write, LocksOk;
    var pc := s.txns[i].pc;
    var s' := StepPost(s, i);
    ReadIsCurrent(s.db.books, pc.draft.legs, pc.got);
    ExecuteSettled(s.db, pc.draft);
    var settled := Settle(s.db.books.balances, s.db.books.accounts, pc.lines);
    if settled.Err? {
      FinishKeeps(cfg, s, i, Failed(Posting(settled.error)));
    } else if !ChecksOk(pc.draft.change) {
      FinishKeeps(cfg, s, i, Failed(CheckViolation));
    } else {
      forall j | 0 <= j < |s.txns| && j != i ensures Undisturbed(s.db, s'.db, s.txns[j]) {
        CommitDisturbsNoOne(cfg, s, i, j);
      }
      WrittenIndexOk(s.db.books, pc.draft.kind, pc.draft.ref, pc.lines);
      WriteBooks(s.db, pc.draft, WriteEntry(s.db.books, pc.draft.kind, pc.draft.ref, pc.lines, settled.value));
      LocksReleased(s, i, Finished(Done(|s.db.books.journal|)), s');
      OthersOk(cfg, s, i, s');
    }
  }

  lemma WriteBooks(db: Db, draft: Draft, books: Books)
    ensures Write(db, draft, books).books == books
  {
  }

  // ---------------------------------------------------------------- every step, every run

  /** Every step of every transaction keeps the system sound and refines the atomic operations. */
  lemma StepKeeps(cfg: Config, s: Sys, i: nat, s': Sys)
    requires SysOk(cfg, s) && StepBy(cfg, s, i, s')
    ensures SysOk(cfg, s') && |s'.txns| == |s.txns| && Refines(cfg, s, i, s')
  {
    hide SysOk, Refines, StepBegin, StepLockRow, StepPlan, StepOpen, StepPost;
    if s' == End(s, i, Aborted) {
      AbortKeeps(cfg, s, i);
      AbortRefines(cfg, s, i);
    } else {
      var uuid :| uuid !in s.db.books.accounts && s' == Advance(cfg, s, i, uuid);
      AdvanceKeeps(cfg, s, i, uuid);
      AdvanceKeepsCount(cfg, s, i, uuid);
    }
  }

  lemma AbortRefines(cfg: Config, s: Sys, i: nat)
    requires ConfigOk(cfg) && i < |s.txns|
    ensures Refines(cfg, s, i, End(s, i, Aborted))
  {
  }

  lemma AdvanceKeepsCount(cfg: Config, s: Sys, i: nat, uuid: int)
    requires ConfigOk(cfg) && i < |s.txns| && Enabled(s, i)
    ensures |Advance(cfg, s, i, uuid).txns| == |s.txns|
    ensures forall j :: 0 <= j < |s.txns| && j != i ==> Advance(cfg, s, i, uuid).txns[j] == s.txns[j]
    ensures Advance(cfg, s, i, uuid).txns[i].op == s.txns[i].op
  {
    hide Plan, Settle, Validate, OpenOne, LinesOf;
  }

  lemma AdvanceKeeps(cfg: Config, s: Sys, i: nat, uuid: int)
    requires SysOk(cfg, s) && i < |s.txns| && Enabled(s, i) && uuid !in s.db.books.accounts
    ensures SysOk(cfg, Advance(cfg, s, i, uuid))
    ensures |Advance(cfg, s, i, uuid).txns| == |s.txns| && Refines(cfg, s, i, Advance(cfg, s, i, uuid))
  {
    hide Refines, StepBegin, StepLockRow, StepPlan, StepOpen, StepPost, LocksOk, IndexOk;
    AdvanceKeepsCount(cfg, s, i, uuid);
    assert TxnOk(cfg, s.db, s.txns[i]);
    match s.txns[i].pc
    case Ready => BeginKeeps(cfg, s, i);
    case Begun => LockRowKeeps(cfg, s, i);
    case Locked(_) => PlanKeeps(cfg, s, i);
    case Opening(_, _, todo) =>
      if todo == [] {
        StartPostingKeeps(cfg, s, i, uuid);
      } else {
        OpenKeeps(cfg, s, i, uuid);
      }
    case Locking(_, _, lines, got) =>
      assert TxnOk(cfg, s.db, s.txns[i]);
      if |got| < |AccountIds(lines)| {
        LockAccountKeeps(cfg, s, i);
      } else {
        CommitKeeps(cfg, s, i);
      }
  }
}
