/**
 Whole runs.  A run starts from empty tables and takes any operations in any order.  That rows, journal and
 outbox agree, and that each row is resolved once, holds in every run; that balances are exact, in every run
 whose sums stay within twenty digits.
 */
module Runs {
  import opened Wrappers
  import opened Ledger
  import opened LedgerLaws
  import opened System
  import opened Invariant
  import opened Effects
  import opened Preservation
  import opened RowPreservation

  // ---------------------------------------------------------------- creating accounts

  lemma OpenSound(cfg: Config, before: Db, after: Db, keys: set<AccountKey>)
    requires Sound(cfg, before) && Opened(before, after, keys)
    ensures Sound(cfg, after)
  {
    hide IndexOk, NoDebt, HoldsOk, ResolvedOk, OutboxOk, OrderOk, RequestOk;
    EnsureKeepsIndex(before.books, after.books, keys);
    OpenNoDebt(before, after, keys);
    assert Grown(before.books, after.books);
    forall i | 0 <= i < |after.orders| ensures OrderOk(cfg, after.books, i, after.orders[i]) {
      OrderKept(cfg, before.books, after.books, i, before.orders[i]);
    }
    forall i | 0 <= i < |after.requests| ensures RequestOk(after.books, i, after.requests[i]) {
      RequestKept(before.books, after.books, i, before.requests[i]);
    }
    OpenKeepsLists(before, after, keys);
  }

  lemma OpenNoDebt(before: Db, after: Db, keys: set<AccountKey>)
    requires IndexOk(before.books) && NoDebt(before.books) && Opened(before, after, keys)
    ensures NoDebt(after.books)
  {
  }

  lemma OpenKeepsLists(before: Db, after: Db, keys: set<AccountKey>)
    requires HoldsOk(before) && ResolvedOk(before) && OutboxOk(before) && Opened(before, after, keys)
    ensures HoldsOk(after) && ResolvedOk(after) && OutboxOk(after)
  {
    assert after.books.journal == before.books.journal;
    forall e | 0 <= e < |after.books.journal| ensures RefKnown(after, after.books.journal[e].ref) {
      assert RefKnown(before, before.books.journal[e].ref);
    }
  }

  lemma OpenKeeps(cfg: Config, before: Db, after: Db, keys: set<AccountKey>)
    requires Inv(cfg, before) && Opened(before, after, keys)
    ensures Inv(cfg, after)
  {
    hide Sound, BooksOk;
    OpenSound(cfg, before, after, keys);
    EnsureKeepsBooks(before.books, after.books, keys);
    BooksIndexed(before.books);
    forall key: AccountKey ensures BalanceAt(after.books, key) == BalanceAt(before.books, key) {
      OpenedBalance(before, after, keys, key);
    }
  }

  lemma BooksIndexed(b: Books)
    requires BooksOk(b)
    ensures IndexOk(b)
  {
  }

  lemma OpenedBalance(before: Db, after: Db, keys: set<AccountKey>, key: AccountKey)
    requires IndexOk(before.books) && Opened(before, after, keys)
    ensures BalanceAt(after.books, key) == BalanceAt(before.books, key)
  {
    if key in after.books.index && key !in before.books.index {
      var id := after.books.index[key];
      assert id !in before.books.balances;
    }
  }

  // ---------------------------------------------------------------- one operation

  lemma PairsOk(cfg: Config, db: Db)
    requires ConfigOk(cfg) && RowsOk(cfg, db)
    ensures forall i :: 0 <= i < |db.orders| ==> PairOk(cfg, db.orders[i])
  {
    forall i | 0 <= i < |db.orders| ensures PairOk(cfg, db.orders[i]) {
      assert OrderOk(cfg, db.books, i, db.orders[i]);
    }
  }

  lemma PlanNeverDone(cfg: Config, op: Op, row: Row)
    requires ConfigOk(cfg)
    ensures Plan(cfg, op, row).Stop? ==> !Plan(cfg, op, row).outcome.Done?
  {
  }

  /** What a committed operation did: one planned entry with its rows. */
  ghost predicate Committed(cfg: Config, db: Db, step: Step, after: Db, outcome: Outcome)
    requires ConfigOk(cfg)
  {
    && step.Go? && outcome.Done?
    && Fits(cfg, db, step.draft)
    && Recorded(db, step.draft, after)
    && outcome.entry == |db.books.journal|
  }

  lemma PlanOfRowsFits(cfg: Config, db: Db, op: Op)
    requires Sound(cfg, db) && Plan(cfg, op, RowOf(db, op)).Go?
    ensures Fits(cfg, db, Plan(cfg, op, RowOf(db, op)).draft)
  {
    hide Fits, Plan;
    PairsOk(cfg, db);
    PlanFits(cfg, db, op);
  }

  lemma SoundParts(cfg: Config, db: Db)
    requires Sound(cfg, db)
    ensures ConfigOk(cfg) && IndexOk(db.books) && NoDebt(db.books) && RowsOk(cfg, db) && OutboxOk(db)
  {
  }

  lemma InvParts(cfg: Config, db: Db)
    requires Inv(cfg, db)
    ensures Sound(cfg, db) && ConfigOk(cfg) && BooksOk(db.books) && PoolsOk(cfg, db)
  {
  }

  /** An operation run alone either changes nothing or commits. */
  lemma ApplyCommits(cfg: Config, db: Db, op: Op)
    requires Sound(cfg, db) && Covered(db, Plan(cfg, op, RowOf(db, op)))
    ensures var (after, outcome) := Apply(cfg, db, op);
            if outcome.Done? then Committed(cfg, db, Plan(cfg, op, RowOf(db, op)), after, outcome) else after == db
  {
    hide Sound, Plan, Execute, Fits, Recorded, IndexOk, NoDebt;
    SoundParts(cfg, db);
    var step := Plan(cfg, op, RowOf(db, op));
    PlanNeverDone(cfg, op, RowOf(db, op));
    if step.Go? {
      PlanOfRowsFits(cfg, db, op);
      ExecuteRecords(db, step.draft);
    }
  }

  lemma RecordedSound(cfg: Config, db: Db, draft: Draft, after: Db)
    requires Sound(cfg, db) && Fits(cfg, db, draft) && Recorded(db, draft, after)
    ensures Sound(cfg, after)
  {
    RowsKept(cfg, db, draft, after);
    HoldsKept(cfg, db, draft, after);
    ResolvedKept(cfg, db, draft, after);
    OutboxKept(cfg, db, draft, after);
  }

  lemma ApplySound(cfg: Config, db: Db, op: Op)
    requires Sound(cfg, db) && Covered(db, Plan(cfg, op, RowOf(db, op)))
    ensures Sound(cfg, Apply(cfg, db, op).0)
  {
    hide Sound, Plan, Apply, Covered, Fits, Recorded;
    SoundParts(cfg, db);
    ApplyCommits(cfg, db, op);
    if Apply(cfg, db, op).1.Done? {
      RecordedSound(cfg, db, Plan(cfg, op, RowOf(db, op)).draft, Apply(cfg, db, op).0);
    }
  }

  /** Within twenty digits a committed operation also keeps every balance in step. */
  lemma ApplyKeeps(cfg: Config, db: Db, op: Op)
    requires Inv(cfg, db) && Covered(db, Plan(cfg, op, RowOf(db, op))) && Roomy(cfg, db, op)
    ensures Inv(cfg, Apply(cfg, db, op).0)
  {
    hide Sound, BooksOk, Plan, Fits, Execute, PoolsOk, Headroom;
    SoundParts(cfg, db);
    ApplySound(cfg, db, op);
    PlanNeverDone(cfg, op, RowOf(db, op));
    if Apply(cfg, db, op).1.Done? {
      var draft := Plan(cfg, op, RowOf(db, op)).draft;
      PlanOfRowsFits(cfg, db, op);
      ExecuteMoves(db, draft);
      PoolsKept(cfg, db, draft, Apply(cfg, db, op).0);
    } else {
      ApplyCommits(cfg, db, op);
    }
  }

  /** Creating accounts does not change the row an operation locks, so its plan stands and is covered. */
  lemma OpenCovers(cfg: Config, before: Db, mid: Db, op: Op)
    requires ConfigOk(cfg) && Opened(before, mid, KeysOf(Plan(cfg, op, RowOf(before, op))))
    ensures RowOf(mid, op) == RowOf(before, op)
    ensures Covered(mid, Plan(cfg, op, RowOf(mid, op)))
  {
  }

  lemma RanSound(cfg: Config, before: Db, mid: Db, op: Op, after: Db, outcome: Outcome)
    requires Sound(cfg, before) && RanVia(cfg, before, mid, op, after, outcome)
    ensures Sound(cfg, mid) && Sound(cfg, after)
  {
    hide Sound, Plan, Opened, Apply, KeysOf, Covered;
    OpenSound(cfg, before, mid, KeysOf(Plan(cfg, op, RowOf(before, op))));
    OpenCovers(cfg, before, mid, op);
    ApplySound(cfg, mid, op);
  }

  lemma RanKeeps(cfg: Config, before: Db, mid: Db, op: Op, after: Db, outcome: Outcome)
    requires Inv(cfg, before) && RoomyVia(cfg, before, mid, op, after, outcome)
    ensures Inv(cfg, after)
  {
    hide Inv, Plan, Opened, Roomy, Apply, KeysOf, Covered;
    OpenKeeps(cfg, before, mid, KeysOf(Plan(cfg, op, RowOf(before, op))));
    OpenCovers(cfg, before, mid, op);
    ApplyKeeps(cfg, mid, op);
  }

  // ---------------------------------------------------------------- runs

  ghost predicate Next(cfg: Config, before: Db, after: Db) {
    || (exists op, outcome :: Ran(cfg, before, op, after, outcome))
    || (exists keys :: Opened(before, after, keys))
  }

  /** Any operations in any order, from empty tables. */
  ghost predicate Run(cfg: Config, trace: seq<Db>) {
    && ConfigOk(cfg)
    && |trace| > 0
    && trace[0] == Empty()
    && forall i :: 0 < i < |trace| ==> Next(cfg, trace[i - 1], trace[i])
  }

  ghost predicate RoomyNext(cfg: Config, before: Db, after: Db) {
    || (exists op, outcome :: RanRoomy(cfg, before, op, after, outcome))
    || (exists keys :: Opened(before, after, keys))
  }

  /** The runs whose sums stay within twenty digits. */
  ghost predicate RoomyRun(cfg: Config, trace: seq<Db>) {
    && ConfigOk(cfg)
    && |trace| > 0
    && trace[0] == Empty()
    && forall i :: 0 < i < |trace| ==> RoomyNext(cfg, trace[i - 1], trace[i])
  }

  lemma EmptyIsFine(cfg: Config)
    requires ConfigOk(cfg)
    ensures Inv(cfg, Empty())
  {
  }

  lemma NextSound(cfg: Config, before: Db, after: Db)
    requires Sound(cfg, before) && Next(cfg, before, after)
    ensures Sound(cfg, after)
  {
    hide Sound, Opened, RanVia;
    if op, outcome :| Ran(cfg, before, op, after, outcome) {
      var mid :| RanVia(cfg, before, mid, op, after, outcome);
      RanSound(cfg, before, mid, op, after, outcome);
    } else {
      var keys :| Opened(before, after, keys);
      OpenSound(cfg, before, after, keys);
    }
  }

  lemma NextKeeps(cfg: Config, before: Db, after: Db)
    requires Inv(cfg, before) && RoomyNext(cfg, before, after)
    ensures Inv(cfg, after)
  {
    hide Inv, Opened, RoomyVia;
    if op, outcome :| RanRoomy(cfg, before, op, after, outcome) {
      var mid :| RoomyVia(cfg, before, mid, op, after, outcome);
      RanKeeps(cfg, before, mid, op, after, outcome);
    } else {
      var keys :| Opened(before, after, keys);
      OpenKeeps(cfg, before, after, keys);
    }
  }

  /** Rows, journal, outbox and account tables agree in every state of every run, at any magnitude. */
  lemma {:induction false} RunSound(cfg: Config, trace: seq<Db>, i: nat)
    requires Run(cfg, trace) && i < |trace|
    ensures Sound(cfg, trace[i])
  {
    hide Sound, Next;
    if i == 0 {
      EmptyIsFine(cfg);
      InvParts(cfg, trace[0]);
    } else {
      RunSound(cfg, trace, i - 1);
      assert Next(cfg, trace[i - 1], trace[i]);
      NextSound(cfg, trace[i - 1], trace[i]);
    }
  }

  /** Within twenty digits every balance is right too: the whole invariant holds in every state of every run. */
  lemma {:induction false} RunKeeps(cfg: Config, trace: seq<Db>, i: nat)
    requires RoomyRun(cfg, trace) && i < |trace|
    ensures Inv(cfg, trace[i])
  {
    hide Inv, RoomyNext;
    if i == 0 {
      EmptyIsFine(cfg);
    } else {
      RunKeeps(cfg, trace, i - 1);
      assert RoomyNext(cfg, trace[i - 1], trace[i]);
      NextKeeps(cfg, trace[i - 1], trace[i]);
    }
  }

  // ---------------------------------------------------------------- what every state says

  lemma {:induction false} HeldSumSign(cfg: Config, books: Books, orders: seq<Order>, c: Code)
    requires ConfigOk(cfg) && forall i :: 0 <= i < |orders| ==> OrderOk(cfg, books, i, orders[i])
    ensures SumHeld(cfg, orders, c) >= 0
  {
    if orders != [] {
      assert Last(orders) == orders[|orders| - 1];
      assert OrderOk(cfg, books, |orders| - 1, Last(orders));
      HeldSumSign(cfg, books, Init(orders), c);
    }
  }

  lemma {:induction false} PendingSumSign(books: Books, requests: seq<Request>, c: Code)
    requires forall i :: 0 <= i < |requests| ==> RequestOk(books, i, requests[i])
    ensures SumPending(requests, c) >= 0
  {
    if requests != [] {
      assert Last(requests) == requests[|requests| - 1];
      assert RequestOk(books, |requests| - 1, Last(requests));
      PendingSumSign(books, Init(requests), c);
    }
  }

  /** The pooled accounts have no overdraft check and still never go below zero. */
  lemma PoolsNonNegative(cfg: Config, db: Db, c: Code)
    requires Inv(cfg, db)
    ensures BalanceAt(db.books, Pool(c, TradeHold)) == SumHeld(cfg, db.orders, c) >= 0
    ensures BalanceAt(db.books, Pool(c, WithdrawalPending)) == SumPending(db.requests, c) >= 0
  {
    HeldSumSign(cfg, db.books, db.orders, c);
    PendingSumSign(db.books, db.requests, c);
  }

  /** Treasury absorbs the mirror image of what everyone else holds: it is never above zero. */
  lemma TreasuryNeverPositive(cfg: Config, db: Db, c: Code)
    requires Inv(cfg, db)
    ensures BalanceAt(db.books, Pool(c, Treasury)) <= 0
  {
    var b := db.books;
    var key := Pool(c, Treasury);
    if key in b.index {
      PoolsNonNegative(cfg, db, c);
      forall x | x in IdsOf(b.accounts, c) && x != b.index[key] ensures b.balances[x] >= 0 {
        OthersNonNegative(cfg, db, c, x);
      }
      MirrorAccount(b, c, b.index[key]);
    }
  }

  lemma OthersNonNegative(cfg: Config, db: Db, c: Code, x: int)
    requires Inv(cfg, db) && x in IdsOf(db.books.accounts, c) && db.books.accounts[x] != Pool(c, Treasury)
    ensures db.books.balances[x] >= 0
  {
    var b := db.books;
    var k := b.accounts[x];
    assert k in b.index && b.index[k] == x;
    PoolsNonNegative(cfg, db, c);
    assert BalanceAt(b, k) == b.balances[x];
    if k.owner.None? {
      assert k == Pool(c, k.kind);
      assert BalanceAt(b, Pool(c, Fees)) >= 0;
    }
  }

  // ---------------------------------------------------------------- what no step undoes

  /** Journal, rows and outbox only grow; a resolved row and everything else in it stays as it is. */
  ghost predicate Advances(before: Db, after: Db) {
    && before.books.journal <= after.books.journal
    && before.outbox <= after.outbox
    && |before.orders| <= |after.orders|
    && |before.requests| <= |after.requests|
    && (forall i :: 0 <= i < |before.orders| ==> OrderAdvances(before.orders[i], after.orders[i]))
    && (forall i :: 0 <= i < |before.requests| ==> RequestAdvances(before.requests[i], after.requests[i]))
  }

  /** An open limit order is cancelled or filled at its limit price, once; nothing else of it changes. */
  predicate OrderAdvances(o: Order, o': Order) {
    || o' == o
    || (o.status == Open && o' == o.(status := Cancelled))
    || (o.status == Open && o'.fillEntry.Some? && o'.filledAt.Some?
        && o' == o.(status := Filled, fillEntry := o'.fillEntry, filledPrice := o.limitPrice, filledAt := o'.filledAt))
  }

  /** A pending request is decided once; user, currency, amount and hold never change. */
  predicate RequestAdvances(r: Request, r': Request) {
    || r' == r
    || (r.status == Pending && r'.status != Pending && r'.decidedBy.Some? && r'.settleEntry.Some?
        && r' == r.(status := r'.status, decidedBy := r'.decidedBy, decidedAt := r'.decidedAt,
                    settleEntry := r'.settleEntry))
  }

  lemma RecordedAdvances(cfg: Config, db: Db, draft: Draft, after: Db)
    requires ConfigOk(cfg) && Fits(cfg, db, draft) && Recorded(db, draft, after)
    ensures Advances(db, after)
  {
    forall i | 0 <= i < |db.orders| ensures OrderAdvances(db.orders[i], after.orders[i]) {
    }
    forall i | 0 <= i < |db.requests| ensures RequestAdvances(db.requests[i], after.requests[i]) {
    }
  }

  lemma AdvancesSelf(db: Db)
    ensures Advances(db, db)
  {
  }

  lemma ApplyAdvances(cfg: Config, db: Db, op: Op)
    requires Sound(cfg, db) && Covered(db, Plan(cfg, op, RowOf(db, op)))
    ensures Advances(db, Apply(cfg, db, op).0)
  {
    hide Sound, Plan, Apply, Covered, Fits, Recorded, Advances;
    SoundParts(cfg, db);
    ApplyCommits(cfg, db, op);
    if Apply(cfg, db, op).1.Done? {
      RecordedAdvances(cfg, db, Plan(cfg, op, RowOf(db, op)).draft, Apply(cfg, db, op).0);
    } else {
      AdvancesSelf(db);
    }
  }

  lemma OpenAdvances(before: Db, after: Db, keys: set<AccountKey>)
    requires Opened(before, after, keys)
    ensures Advances(before, after)
  {
  }

  lemma RanAdvances(cfg: Config, before: Db, mid: Db, op: Op, after: Db, outcome: Outcome)
    requires Sound(cfg, before) && RanVia(cfg, before, mid, op, after, outcome)
    ensures Advances(before, after)
  {
    hide Sound, Plan, Opened, Apply, KeysOf, Covered, Advances;
    OpenCovers(cfg, before, mid, op);
    RanSound(cfg, before, mid, op, after, outcome);
    OpenAdvances(before, mid, KeysOf(Plan(cfg, op, RowOf(before, op))));
    ApplyAdvances(cfg, mid, op);
    AdvancesTransitive(before, mid, after);
  }

  lemma NextAdvances(cfg: Config, before: Db, after: Db)
    requires Sound(cfg, before) && Next(cfg, before, after)
    ensures Advances(before, after)
  {
    hide Sound, Advances, Opened, RanVia;
    if op, outcome :| Ran(cfg, before, op, after, outcome) {
      var mid :| RanVia(cfg, before, mid, op, after, outcome);
      RanAdvances(cfg, before, mid, op, after, outcome);
    } else {
      var keys :| Opened(before, after, keys);
      OpenAdvances(before, after, keys);
    }
  }

  lemma RunStepAdvances(cfg: Config, trace: seq<Db>, j: nat)
    requires Run(cfg, trace) && 0 < j < |trace|
    ensures Advances(trace[j - 1], trace[j])
  {
    hide Sound, Advances;
    RunSound(cfg, trace, j - 1);
    NextAdvances(cfg, trace[j - 1], trace[j]);
  }

  lemma AdvancesTransitive(a: Db, b: Db, c: Db)
    requires Advances(a, b) && Advances(b, c)
    ensures Advances(a, c)
  {
    forall i | 0 <= i < |a.orders| ensures OrderAdvances(a.orders[i], c.orders[i]) {
      assert OrderAdvances(a.orders[i], b.orders[i]) && OrderAdvances(b.orders[i], c.orders[i]);
    }
    forall i | 0 <= i < |a.requests| ensures RequestAdvances(a.requests[i], c.requests[i]) {
      assert RequestAdvances(a.requests[i], b.requests[i]) && RequestAdvances(b.requests[i], c.requests[i]);
    }
  }

  /** Between any two moments of a run: appended only, each order and request resolved at most once. */
  lemma {:induction false} RunAdvances(cfg: Config, trace: seq<Db>, i: nat, j: nat)
    requires Run(cfg, trace) && i <= j < |trace|
    ensures Advances(trace[i], trace[j])
    decreases j
  {
    hide Advances, Next;
    if i == j {
      AdvancesSelf(trace[i]);
    } else {
      RunAdvances(cfg, trace, i, j - 1);
      RunStepAdvances(cfg, trace, j);
      AdvancesTransitive(trace[i], trace[j - 1], trace[j]);
    }
  }
}
