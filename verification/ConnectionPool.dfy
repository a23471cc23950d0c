/**
 When the connection pool runs dry.  A transaction that needs a second connection while it keeps its own can
 wait for ever; what the calls are and how many connections there are decides whether that can happen.
 */
module ConnectionPool {
  import opened Wrappers
  import opened Sums
  import opened Ledger
  import opened LedgerLaws
  import opened System
  import opened Interleaving
  import opened Refinement
  import opened Concurrency

  // ---------------------------------------------------------------- states that are reached

  /** The calls, all about to begin, with `p` connections and nothing locked. */
  function StartOf(db: Db, ops: seq<Op>, p: nat): Sys {
    Sys(db, map[], seq(|ops|, i requires 0 <= i < |ops| => Txn(ops[i], Ready)), p)
  }

  ghost predicate Leads(cfg: Config, start: Sys, trace: seq<Sys>, who: seq<nat>, s: Sys) {
    SysRun(cfg, trace, who) && trace[0] == start && Last(trace) == s
  }

  ghost predicate Reaches(cfg: Config, start: Sys, s: Sys) {
    exists trace, who :: Leads(cfg, start, trace, who, s)
  }

  lemma ReachesItself(cfg: Config, start: Sys)
    requires SysOk(cfg, start) && PoolOk(start)
    requires forall i :: 0 <= i < |start.txns| ==> start.txns[i].pc == Ready
    ensures Reaches(cfg, start, start)
  {
    assert Leads(cfg, start, [start], [], start);
  }

  lemma ReachesNext(cfg: Config, start: Sys, s: Sys, i: nat, s': Sys)
    requires Reaches(cfg, start, s) && StepBy(cfg, s, i, s')
    ensures Reaches(cfg, start, s')
  {
    hide SysOk, PoolOk, StepBy;
    var trace, who :| Leads(cfg, start, trace, who, s);
    var trace', who' := trace + [s'], who + [i];
    forall k | 0 <= k < |who'| ensures StepBy(cfg, trace'[k], who'[k], trace'[k + 1]) {
      if k < |who| {
        assert StepBy(cfg, trace[k], who[k], trace[k + 1]);
      }
    }
    assert Leads(cfg, start, trace', who', s');
  }

  lemma ReachedOk(cfg: Config, start: Sys, s: Sys)
    requires Reaches(cfg, start, s)
    ensures SysOk(cfg, s) && PoolOk(s) && s.pool == start.pool && |s.txns| == |start.txns|
    ensures forall j :: 0 <= j < |s.txns| ==> s.txns[j].op == start.txns[j].op
  {
    hide SysOk, PoolOk, StepBy;
    var trace, who :| Leads(cfg, start, trace, who, s);
    RunOk(cfg, trace, who, |who|);
    RunOps(cfg, trace, who, |who|);
  }

  /** An enabled transaction takes its next step. */
  lemma Advanced(cfg: Config, start: Sys, s: Sys, i: nat, uuid: int)
    requires ConfigOk(cfg) && Reaches(cfg, start, s) && i < |s.txns| && Enabled(s, i) && uuid !in s.db.books.accounts
    ensures Reaches(cfg, start, Advance(cfg, s, i, uuid))
  {
    hide NeedsSpare, AwaitsLock, Advance, Reaches;
    assert StepBy(cfg, s, i, Advance(cfg, s, i, uuid));
    ReachesNext(cfg, start, s, i, Advance(cfg, s, i, uuid));
  }

  lemma UnusedId(db: Db) returns (uuid: int)
    ensures uuid !in db.books.accounts
  {
    FreshIdExists(db.books.accounts.Keys);
    uuid :| uuid !in db.books.accounts.Keys;
  }

  lemma StartReached(cfg: Config, db: Db, ops: seq<Op>, p: nat)
    requires ConfigOk(cfg) && IndexOk(db.books)
    ensures Reaches(cfg, StartOf(db, ops, p), StartOf(db, ops, p))
    ensures Total(StartOf(db, ops, p).txns, Connection) == 0
  {
    hide IndexOk;
    TotalEven(StartOf(db, ops, p).txns, Connection, 0);
    ReachesItself(cfg, StartOf(db, ops, p));
  }

  // ---------------------------------------------------------------- who can step

  /** Every connection is held by a transaction that needs a second one or waits for a lock. */
  predicate Starved(s: Sys) {
    Free(s) <= 0 && forall j :: 0 <= j < |s.txns| && Connected(s.txns[j]) ==> NeedsSpare(s, j) || AwaitsLock(s, j)
  }

  /** Work is left and nobody can take a step. */
  predicate Stuck(s: Sys) {
    && (exists i :: 0 <= i < |s.txns| && !Over(s.txns[i]))
    && forall k :: 0 <= k < |s.txns| ==> !Enabled(s, k)
  }

  lemma ConnectedUnlessSpare(s: Sys, k: nat)
    requires k < |s.txns| && !Over(s.txns[k]) && !NeedsSpare(s, k)
    ensures Connected(s.txns[k])
  {
    hide ReadsCurrencies, Posts;
  }

  lemma ConnectedIsRunning(t: Txn)
    requires Connected(t)
    ensures !Over(t)
  {
  }

  /** While work is left, somebody can take a step exactly when the connection pool is not starved. */
  lemma SomeoneCanStepIff(cfg: Config, s: Sys, i: nat)
    requires SysOk(cfg, s) && i < |s.txns| && !Over(s.txns[i])
    ensures (exists k :: 0 <= k < |s.txns| && Enabled(s, k)) <==> !Starved(s)
  {
    hide SysOk, NeedsSpare, Free, Connected, AwaitsLock;
    var u := SomeoneUnlocked(cfg, s, i);
    if Free(s) > 0 {
      assert Enabled(s, u);
    }
    if k :| 0 <= k < |s.txns| && Enabled(s, k) && Free(s) <= 0 {
      ConnectedUnlessSpare(s, k);
    }
    if j :| 0 <= j < |s.txns| && Connected(s.txns[j]) && !NeedsSpare(s, j) && !AwaitsLock(s, j) {
      ConnectedIsRunning(s.txns[j]);
      assert Enabled(s, j);
    }
  }

  lemma {:induction false} ConnectionsAtMost(txns: seq<Txn>)
    ensures Total(txns, Connection) <= |txns|
  {
    if txns != [] {
      ConnectionsAtMost(txns[..|txns| - 1]);
    }
  }

  /** With more connections than transactions somebody can step while work is left. */
  lemma SomeoneCanStep(cfg: Config, s: Sys, i: nat) returns (k: nat)
    requires SysOk(cfg, s) && |s.txns| < s.pool && i < |s.txns| && !Over(s.txns[i])
    ensures k < |s.txns| && Enabled(s, k)
  {
    hide SysOk, NeedsSpare, AwaitsLock, Total;
    ConnectionsAtMost(s.txns);
    k := SomeoneUnlocked(cfg, s, i);
  }

  // ---------------------------------------------------------------- fewer openers than connections

  /** Counts the operations that open their transaction before their accounts are there. */
  function Opener(op: Op): nat { if OpensFirst(op) then 1 else 0 }

  function OpenerOf(t: Txn): nat { Opener(t.op) }

  /** Whatever rows they lock, the two operations post to no account in common. */
  ghost predicate Strangers(cfg: Config, op: Op, op': Op)
    requires ConfigOk(cfg)
  {
    forall row, row' :: Plan(cfg, op, row).Go? && Plan(cfg, op', row').Go? ==>
      NoneShared(Plan(cfg, op, row).draft.legs, Plan(cfg, op', row').draft.legs)
  }

  predicate NoneShared(legs: seq<Leg>, legs': seq<Leg>) {
    forall a, b :: 0 <= a < |legs| && 0 <= b < |legs'| ==> legs[a].key != legs'[b].key
  }

  /** No call that looks up its user shares an account with one that does not; so, for one, if none looks up. */
  ghost predicate LookUpsApart(cfg: Config, ops: seq<Op>)
    requires ConfigOk(cfg)
  {
    forall i, j :: 0 <= i < |ops| && 0 <= j < |ops| && LooksUpUser(ops[i]) && !LooksUpUser(ops[j]) ==>
      Strangers(cfg, ops[i], ops[j])
  }

  function OpsOf(txns: seq<Txn>): (ops: seq<Op>)
    ensures |ops| == |txns| && forall i :: 0 <= i < |txns| ==> ops[i] == txns[i].op
  {
    seq(|txns|, i requires 0 <= i < |txns| => txns[i].op)
  }

  lemma NoAccountShared(b: Books, legs: seq<Leg>, legs': seq<Leg>)
    requires IndexOk(b) && NoneShared(legs, legs')
    requires (forall leg :: leg in legs ==> leg.key in b.index) && forall leg :: leg in legs' ==> leg.key in b.index
    ensures forall id :: id in AccountIds(LinesOf(b.index, legs)) ==> id !in AccountIds(LinesOf(b.index, legs'))
  {
    var lines, lines' := LinesOf(b.index, legs), LinesOf(b.index, legs');
    forall x, y | 0 <= x < |lines| && 0 <= y < |lines'| ensures lines[x].account != lines'[y].account {
      assert legs[x] in legs && legs'[y] in legs';
      assert b.accounts[b.index[legs[x].key]] == legs[x].key && b.accounts[b.index[legs'[y].key]] == legs'[y].key;
    }
  }

  /** Two posting transactions with an account in common both look up a user, or neither does. */
  lemma ShareAccount(cfg: Config, s: Sys, i: nat, j: nat, id: int)
    requires SysOk(cfg, s) && LookUpsApart(cfg, OpsOf(s.txns)) && i < |s.txns| && j < |s.txns|
    requires s.txns[i].pc.Locking? && s.txns[j].pc.Locking? && !LooksUpUser(s.txns[j].op)
    requires id in AccountIds(s.txns[i].pc.lines) && id in AccountIds(s.txns[j].pc.lines)
    ensures !LooksUpUser(s.txns[i].op)
  {
    hide Plan, LocksOk, IndexOk, AccountIds, NoneShared, Strangers, LooksUpUser, Validate, LinesOf;
    assert TxnOk(cfg, s.db, s.txns[i]) && TxnOk(cfg, s.db, s.txns[j]);
    if LooksUpUser(s.txns[i].op) {
      assert Strangers(cfg, OpsOf(s.txns)[i], OpsOf(s.txns)[j]);
      StrangersShareNone(cfg, s.txns[i].op, s.txns[i].pc.row, s.txns[j].op, s.txns[j].pc.row);
      NoAccountShared(s.db.books, s.txns[i].pc.draft.legs, s.txns[j].pc.draft.legs);
    }
  }

  lemma StrangersShareNone(cfg: Config, op: Op, row: Row, op': Op, row': Row)
    requires ConfigOk(cfg) && Strangers(cfg, op, op') && Plan(cfg, op, row).Go? && Plan(cfg, op', row').Go?
    ensures NoneShared(Plan(cfg, op, row).draft.legs, Plan(cfg, op', row').draft.legs)
  {
    hide Plan, NoneShared;
  }

  /** For one: a conversion and a deposit of a third currency. */
  lemma DepositIsStranger(cfg: Config, swap: Op, deposit: Op)
    requires ConfigOk(cfg) && swap.Convert? && deposit.Deposit?
    requires GetCurrency(cfg, deposit.code) != GetCurrency(cfg, swap.from)
    requires GetCurrency(cfg, deposit.code) != GetCurrency(cfg, swap.to)
    ensures Strangers(cfg, swap, deposit)
  {
    hide GetCurrency, ConvertedAmount;
  }

  /** Following holders upwards from a transaction that looks up nobody leads to one that looks up nobody and waits for no lock. */
  lemma {:induction false} ClimbApart(cfg: Config, s: Sys, i: nat, bound: int) returns (k: nat)
    requires SysOk(cfg, s) && LookUpsApart(cfg, OpsOf(s.txns)) && i < |s.txns|
    requires s.txns[i].pc.Locking? && !LooksUpUser(s.txns[i].op)
    requires forall j :: 0 <= j < |s.txns| && Awaits(s, j).Some? && Awaits(s, j).value.AccountLock? ==>
               Awaits(s, j).value.account < bound
    ensures k < |s.txns| && s.txns[k].pc.Locking? && !LooksUpUser(s.txns[k].op) && !AwaitsLock(s, k)
    decreases if Awaits(s, i).Some? then bound - Awaits(s, i).value.account else 0
  {
    hide Plan, IndexOk, TxnOk, AccountIds, LookUpsApart, LooksUpUser;
    if !AwaitsLock(s, i) {
      k := i;
    } else {
      var r := Awaits(s, i).value;
      var h := s.locks[r];
      assert Holds(s.txns[h], r);
      ShareAccount(cfg, s, h, i, r.account);
      if !AwaitsLock(s, h) {
        k := h;
      } else {
        WaitsUpwards(s.txns[h], r.account);
        k := ClimbApart(cfg, s, h, bound);
      }
    }
  }

  lemma LockingCanMove(s: Sys, k: nat)
    requires k < |s.txns| && s.txns[k].pc.Locking? && !LooksUpUser(s.txns[k].op) && !AwaitsLock(s, k)
    ensures Enabled(s, k)
  {
    hide AwaitsLock, Posts;
  }

  lemma ConnectedNotFirst(cfg: Config, s: Sys, j: nat)
    requires SysOk(cfg, s) && j < |s.txns| && Connection(s.txns[j]) > OpenerOf(s.txns[j])
    ensures s.txns[j].pc.Locking? && !LooksUpUser(s.txns[j].op)
  {
    hide Plan, IndexOk, LocksOk;
    assert TxnOk(cfg, s.db, s.txns[j]);
  }

  /**
   Calls none of which looks up a user -- deposits, transfers, withdrawal requests, placements, cancellations -- or
   whose look-ups share no account with the others never get stuck while fewer of them open first than there are
   connections.
   */
  lemma FewOpenersCanStep(cfg: Config, s: Sys, i: nat) returns (k: nat)
    requires SysOk(cfg, s) && i < |s.txns| && !Over(s.txns[i])
    requires LookUpsApart(cfg, OpsOf(s.txns)) && Total(s.txns, OpenerOf) < s.pool
    ensures k < |s.txns| && Enabled(s, k)
  {
    hide SysOk, NeedsSpare, AwaitsLock, Total, Connection, OpenerOf, LookUpsApart, Awaits;
    if Free(s) > 0 {
      k := SomeoneUnlocked(cfg, s, i);
    } else {
      var j := TotalGap(s.txns, Connection, s.txns, OpenerOf);
      ConnectedNotFirst(cfg, s, j);
      var bound := AwaitBound(s, |s.txns|);
      k := ClimbApart(cfg, s, j, bound);
      LockingCanMove(s, k);
    }
  }

  // ---------------------------------------------------------------- as many openers as connections

  /** The transaction has its connection and waits for another one, or for its row. */
  predicate Hanging(s: Sys, i: nat)
    requires i < |s.txns|
  {
    var t := s.txns[i];
    && Connected(t)
    && ((t.pc.Begun? && AwaitsLock(s, i)) || (t.pc.Locked? && NeedsSpare(s, i)) || (t.pc.Opening? && t.pc.todo != []))
  }

  /** Nothing has happened to the tables; whoever has begun hangs. */
  predicate AllHang(db: Db, s: Sys) {
    s.db == db && forall i :: 0 <= i < |s.txns| ==> s.txns[i].pc.Ready? || Hanging(s, i)
  }

  lemma PlanHasLegs(cfg: Config, op: Op, row: Row)
    requires ConfigOk(cfg) && Plan(cfg, op, row).Go?
    ensures Plan(cfg, op, row).draft.legs != []
  {
    hide GetCurrency, ResolvePair, Held, ConfigOk;
  }

  /** Others go on hanging when one transaction moves and only takes locks. */
  lemma OthersHang(s: Sys, i: nat, s': Sys)
    requires i < |s.txns| == |s'.txns| && s'.txns == s.txns[i := s'.txns[i]]
    requires s'.db == s.db && s.locks.Keys <= s'.locks.Keys
    ensures forall j :: 0 <= j < |s.txns| && j != i && Hanging(s, j) ==> Hanging(s', j)
  {
  }

  /** Without a row to lock: the currencies are read, the transaction opens, and its accounts are still to find. */
  lemma HangPlain(cfg: Config, db: Db, start: Sys, s: Sys, i: nat) returns (s': Sys)
    requires ConfigOk(cfg) && Reaches(cfg, start, s) && AllHang(db, s) && i < |s.txns| && Free(s) > 0
    requires s.txns[i].pc.Ready? && OpensFirst(s.txns[i].op) && !WantsRow(s.txns[i].op)
    requires Plan(cfg, s.txns[i].op, NoRow).Go?
    ensures Reaches(cfg, start, s') && AllHang(db, s') && Total(s'.txns, Connection) == Total(s.txns, Connection) + 1
  {
    hide Plan, Reaches, ReadsCurrencies, Posts, Hanging, Total;
    var op := s.txns[i].op;
    var uuid := UnusedId(db);
    Advanced(cfg, start, s, i, uuid);
    var s1 := Advance(cfg, s, i, uuid);
    TotalUpdate(s.txns, Connection, i, s1.txns[i]);
    Advanced(cfg, start, s1, i, uuid);
    s' := Advance(cfg, s1, i, uuid);
    TotalUpdate(s1.txns, Connection, i, s'.txns[i]);
    PlanHasLegs(cfg, op, NoRow);
    OpeningHangs(s', i);
    assert s'.txns == s.txns[i := s'.txns[i]];
    OthersHang(s, i, s');
  }

  lemma OpeningHangs(s: Sys, i: nat)
    requires i < |s.txns| && s.txns[i].pc.Opening? && s.txns[i].pc.todo != [] && OpensFirst(s.txns[i].op)
    ensures Hanging(s, i) && Connection(s.txns[i]) == 1
  {
  }

  /** The transaction opens and goes for its row. */
  lemma BeginRow(cfg: Config, db: Db, start: Sys, s: Sys, i: nat) returns (s': Sys)
    requires ConfigOk(cfg) && Reaches(cfg, start, s) && AllHang(db, s) && i < |s.txns| && Free(s) > 0
    requires s.txns[i].pc.Ready? && WantsRow(s.txns[i].op)
    ensures Reaches(cfg, start, s') && s' == Move1(s, i, Begun)
    ensures Total(s'.txns, Connection) == Total(s.txns, Connection) + 1
  {
    hide Plan, Reaches, Hanging, Total;
    var uuid := UnusedId(db);
    Advanced(cfg, start, s, i, uuid);
    s' := Advance(cfg, s, i, uuid);
    TotalUpdate(s.txns, Connection, i, s'.txns[i]);
  }

  /** With its row free it locks it, and then needs a second connection at once or once it has planned. */
  lemma HangOnRow(cfg: Config, db: Db, start: Sys, s: Sys, i: nat) returns (s': Sys)
    requires ConfigOk(cfg) && Reaches(cfg, start, s) && s.db == db && i < |s.txns|
    requires forall j :: 0 <= j < |s.txns| && j != i ==> s.txns[j].pc.Ready? || Hanging(s, j)
    requires s.txns[i].pc.Begun? && WantsRow(s.txns[i].op) && !AwaitsLock(s, i)
    requires Plan(cfg, s.txns[i].op, RowOf(db, s.txns[i].op)).Go?
    ensures Reaches(cfg, start, s') && AllHang(db, s') && Total(s'.txns, Connection) == Total(s.txns, Connection)
  {
    hide Plan, Reaches, ReadsCurrencies, Posts, Hanging, Total;
    var op := s.txns[i].op;
    var uuid := UnusedId(db);
    RowThere(cfg, db, op);
    Advanced(cfg, start, s, i, uuid);
    s' := Advance(cfg, s, i, uuid);
    TotalUpdate(s.txns, Connection, i, s'.txns[i]);
    OthersHang(s, i, s');
    if NeedsSpare(s', i) {
      LockedHangs(s', i);
    } else {
      var s1 := s';
      Advanced(cfg, start, s1, i, uuid);
      s' := Advance(cfg, s1, i, uuid);
      TotalUpdate(s1.txns, Connection, i, s'.txns[i]);
      PlanHasLegs(cfg, op, RowOf(db, op));
      OpeningHangs(s', i);
      assert s'.txns == s1.txns[i := s'.txns[i]];
      OthersHang(s1, i, s');
    }
  }

  lemma RowThere(cfg: Config, db: Db, op: Op)
    requires ConfigOk(cfg) && WantsRow(op) && Plan(cfg, op, RowOf(db, op)).Go?
    ensures RowResource(db, op).Some?
  {
    hide Plan;
    if RowOf(db, op) == NoRow {
      NoRowNoDraft(cfg, op);
    }
  }

  lemma LockedHangs(s: Sys, i: nat)
    requires i < |s.txns| && s.txns[i].pc.Locked? && WantsRow(s.txns[i].op) && NeedsSpare(s, i)
    ensures Hanging(s, i)
  {
  }

  lemma BegunHangs(s: Sys, i: nat)
    requires i < |s.txns| && s.txns[i].pc.Begun? && AwaitsLock(s, i)
    ensures Hanging(s, i)
  {
  }

  /** One more call that opens first can be brought to hang while a connection is free. */
  lemma HangOne(cfg: Config, db: Db, start: Sys, s: Sys, i: nat) returns (s': Sys)
    requires ConfigOk(cfg) && Reaches(cfg, start, s) && AllHang(db, s) && i < |s.txns| && Free(s) > 0
    requires s.txns[i].pc.Ready? && OpensFirst(s.txns[i].op)
    requires Plan(cfg, s.txns[i].op, RowOf(db, s.txns[i].op)).Go?
    ensures Reaches(cfg, start, s') && AllHang(db, s') && Total(s'.txns, Connection) == Total(s.txns, Connection) + 1
  {
    hide Plan, Reaches, Hanging, Total, Free, Connection;
    if !WantsRow(s.txns[i].op) {
      s' := HangPlain(cfg, db, start, s, i);
    } else {
      s' := BeginRow(cfg, db, start, s, i);
      OthersHang(s, i, s');
      if AwaitsLock(s', i) {
        BegunHangs(s', i);
      } else {
        s' := HangOnRow(cfg, db, start, s', i);
      }
    }
  }

  lemma ReadyUnlessHanging(s: Sys, i: nat)
    requires i < |s.txns| && Connection(s.txns[i]) == 0
    ensures !Hanging(s, i)
  {
  }

  /** With as many openers as connections all connections can be taken by calls that hang. */
  lemma {:induction false} HangAll(cfg: Config, db: Db, ops: seq<Op>, p: nat, s: Sys) returns (s': Sys)
    requires ConfigOk(cfg) && Reaches(cfg, StartOf(db, ops, p), s) && AllHang(db, s)
    requires forall i :: 0 <= i < |ops| && OpensFirst(ops[i]) ==> Plan(cfg, ops[i], RowOf(db, ops[i])).Go?
    requires p <= Total(ops, Opener)
    ensures Reaches(cfg, StartOf(db, ops, p), s') && AllHang(db, s') && Free(s') <= 0
    decreases Free(s)
  {
    hide Plan, Reaches, Hanging, Total, AllHang, Connection;
    ReachedOk(cfg, StartOf(db, ops, p), s);
    if Free(s) <= 0 {
      s' := s;
    } else {
      var i := TotalGap(ops, Opener, s.txns, Connection);
      ReadyUnlessHanging(s, i);
      IsReady(db, s, i);
      s' := HangOne(cfg, db, StartOf(db, ops, p), s, i);
      ReachedOk(cfg, StartOf(db, ops, p), s');
      s' := HangAll(cfg, db, ops, p, s');
    }
  }

  lemma IsReady(db: Db, s: Sys, i: nat)
    requires AllHang(db, s) && i < |s.txns| && !Hanging(s, i)
    ensures s.txns[i].pc.Ready?
  {
  }

  /** With no connection free and everybody about to begin or hanging, nobody can step. */
  lemma AllHangStuck(db: Db, s: Sys)
    requires AllHang(db, s) && Free(s) <= 0 && s.txns != []
    ensures Stuck(s)
  {
    forall k | 0 <= k < |s.txns| ensures !Enabled(s, k) && !Over(s.txns[k]) {
      HangingIsDisabled(s, k);
    }
    assert !Over(s.txns[0]);
  }

  lemma HangingIsDisabled(s: Sys, k: nat)
    requires k < |s.txns| && Free(s) <= 0 && (s.txns[k].pc.Ready? || Hanging(s, k))
    ensures !Enabled(s, k) && !Over(s.txns[k])
  {
    hide ReadsCurrencies, Posts;
  }

  lemma StartHangs(db: Db, ops: seq<Op>, p: nat)
    ensures AllHang(db, StartOf(db, ops, p))
  {
  }

  /** So it can get stuck. */
  lemma OpenersGetStuck(cfg: Config, db: Db, ops: seq<Op>, p: nat) returns (s: Sys)
    requires ConfigOk(cfg) && IndexOk(db.books) && ops != []
    requires forall i :: 0 <= i < |ops| && OpensFirst(ops[i]) ==> Plan(cfg, ops[i], RowOf(db, ops[i])).Go?
    requires p <= Total(ops, Opener)
    ensures Reaches(cfg, StartOf(db, ops, p), s) && Stuck(s)
  {
    hide Plan, Reaches, IndexOk, AllHang, Total, Stuck;
    StartReached(cfg, db, ops, p);
    StartHangs(db, ops, p);
    s := HangAll(cfg, db, ops, p, StartOf(db, ops, p));
    ReachedOk(cfg, StartOf(db, ops, p), s);
    AllHangStuck(db, s);
  }

  // ---------------------------------------------------------------- the condition

  lemma OpsOfTxns(ops: seq<Op>, txns: seq<Txn>)
    requires |txns| == |ops| && forall i :: 0 <= i < |ops| ==> txns[i].op == ops[i]
    ensures Total(txns, OpenerOf) == Total(ops, Opener)
  {
    if Total(txns, OpenerOf) > Total(ops, Opener) {
      var i := TotalGap(txns, OpenerOf, ops, Opener);
    }
    if Total(ops, Opener) > Total(txns, OpenerOf) {
      var i := TotalGap(ops, Opener, txns, OpenerOf);
    }
  }

  lemma NotStuck(s: Sys, k: nat)
    requires k < |s.txns| && Enabled(s, k)
    ensures !Stuck(s)
  {
  }

  /** Fewer openers than connections: no reachable state is stuck. */
  lemma FewOpenersNeverStuck(cfg: Config, db: Db, ops: seq<Op>, p: nat, s: Sys)
    requires ConfigOk(cfg) && Reaches(cfg, StartOf(db, ops, p), s) && Total(ops, Opener) < p
    requires LookUpsApart(cfg, ops) || forall i :: 0 <= i < |ops| ==> OpensFirst(ops[i])
    ensures !Stuck(s)
  {
    hide Reaches, Total, SysOk, Enabled, Opener, LookUpsApart;
    ReachedOk(cfg, StartOf(db, ops, p), s);
    if Stuck(s) {
      var i :| 0 <= i < |s.txns| && !Over(s.txns[i]);
      if LookUpsApart(cfg, ops) {
        OpsOfTxns(ops, s.txns);
        assert OpsOf(s.txns) == ops;
        var k := FewOpenersCanStep(cfg, s, i);
        NotStuck(s, k);
      } else {
        AllOpeners(ops);
        var k := SomeoneCanStep(cfg, s, i);
        NotStuck(s, k);
      }
    }
  }

  lemma AllOpeners(ops: seq<Op>)
    requires forall i :: 0 <= i < |ops| ==> OpensFirst(ops[i])
    ensures Total(ops, Opener) == |ops|
  {
    TotalEven(ops, Opener, 1);
  }

  /**
   Exactly when calls made at once can run the pool dry and stop for good, told before they begin: when at least
   as many of them as there are connections open their transaction before their accounts are there.  This is for
   calls in any mixture that look up no user, or whose look-ups share no account with the others, and for calls
   that all open first.
   */
  lemma PoolRunsDryIff(cfg: Config, db: Db, ops: seq<Op>, p: nat)
    requires ConfigOk(cfg) && IndexOk(db.books) && ops != []
    requires forall i :: 0 <= i < |ops| && OpensFirst(ops[i]) ==> Plan(cfg, ops[i], RowOf(db, ops[i])).Go?
    requires LookUpsApart(cfg, ops) || forall i :: 0 <= i < |ops| ==> OpensFirst(ops[i])
    ensures (exists s :: Reaches(cfg, StartOf(db, ops, p), s) && Stuck(s)) <==> p <= Total(ops, Opener)
  {
    hide Plan, Reaches, IndexOk, Stuck, Total, OpensFirst, LooksUpUser, LookUpsApart;
    if p <= Total(ops, Opener) {
      var s := OpenersGetStuck(cfg, db, ops, p);
    } else {
      forall s | Reaches(cfg, StartOf(db, ops, p), s) ensures !Stuck(s) {
        FewOpenersNeverStuck(cfg, db, ops, p, s);
      }
    }
  }

  // ---------------------------------------------------------------- calls that look up a user

  /** All accounts are there; the transaction only has to find them. */
  lemma {:induction false} FindAccounts(cfg: Config, start: Sys, s: Sys, i: nat) returns (s': Sys)
    requires ConfigOk(cfg) && Reaches(cfg, start, s) && i < |s.txns| && s.txns[i].pc.Opening? && Free(s) > 0
    requires forall k :: k in s.txns[i].pc.todo ==> k in s.db.books.index
    ensures Reaches(cfg, start, s') && s' == Move1(s, i, s.txns[i].pc.(todo := []))
    ensures Total(s'.txns, Connection) == Total(s.txns, Connection)
    decreases |s.txns[i].pc.todo|
  {
    hide Reaches, Total, Posts, ReadsCurrencies, OpensFirst;
    var pc := s.txns[i].pc;
    if pc.todo == [] {
      s' := s;
      assert s.txns[i := s.txns[i].(pc := pc)] == s.txns;
    } else {
      var uuid := UnusedId(s.db);
      Advanced(cfg, start, s, i, uuid);
      var s1 := Advance(cfg, s, i, uuid);
      assert pc.todo[0] in pc.todo && forall k :: k in pc.todo[1..] ==> k in pc.todo;
      assert s1 == Move1(s, i, pc.(todo := pc.todo[1..]));
      TotalUpdate(s.txns, Connection, i, s1.txns[i]);
      s' := FindAccounts(cfg, start, s1, i);
      assert s1.txns[i := s'.txns[i]] == s.txns[i := s'.txns[i]];
    }
  }

  /** What an operation without a row to lock plans, its lines, and the accounts it will lock. */
  function LinesFor(cfg: Config, db: Db, op: Op): seq<Line>
    requires ConfigOk(cfg) && Plan(cfg, op, NoRow).Go? && Covered(db, Plan(cfg, op, NoRow))
  {
    LinesOf(db.books.index, Plan(cfg, op, NoRow).draft.legs)
  }

  /** The operation plans an entry that is valid, on accounts that are there. */
  predicate WillPost(cfg: Config, db: Db, op: Op)
    requires ConfigOk(cfg)
  {
    && !WantsRow(op) && Plan(cfg, op, NoRow).Go? && Covered(db, Plan(cfg, op, NoRow))
    && Validate(LinesFor(cfg, db, op)).None?
  }

  function PostingPc(cfg: Config, db: Db, op: Op, got: seq<int>): Pc
    requires ConfigOk(cfg) && WillPost(cfg, db, op)
  {
    Locking(NoRow, Plan(cfg, op, NoRow).draft, LinesFor(cfg, db, op), got)
  }

  /** With a connection free a call plans and comes to looking for its accounts. */
  lemma StartOpening(cfg: Config, start: Sys, s: Sys, i: nat) returns (s': Sys)
    requires ConfigOk(cfg) && Reaches(cfg, start, s) && i < |s.txns| && s.txns[i].pc.Ready?
    requires WillPost(cfg, s.db, s.txns[i].op) && Free(s) > if OpensFirst(s.txns[i].op) then 1 else 0
    ensures Reaches(cfg, start, s')
    ensures var op := s.txns[i].op;
            var draft := Plan(cfg, op, NoRow).draft;
            && s' == Move1(s, i, Opening(NoRow, draft, KeysInOrder(draft.legs)))
            && Total(s'.txns, Connection) == Total(s.txns, Connection) + if OpensFirst(op) then 1 else 0
  {
    hide Plan, Reaches, Total, Posts, ReadsCurrencies, Validate, OpensFirst, LinesOf;
    var uuid := UnusedId(s.db);
    Advanced(cfg, start, s, i, uuid);
    var s1 := Advance(cfg, s, i, uuid);
    TotalUpdate(s.txns, Connection, i, s1.txns[i]);
    Advanced(cfg, start, s1, i, uuid);
    s' := Advance(cfg, s1, i, uuid);
    TotalUpdate(s1.txns, Connection, i, s'.txns[i]);
    assert s'.txns == s.txns[i := s'.txns[i]];
  }

  /** With two connections free a call gets as far as locking its accounts, and keeps one of them. */
  lemma StartPosting(cfg: Config, start: Sys, s: Sys, i: nat) returns (s': Sys)
    requires ConfigOk(cfg) && Reaches(cfg, start, s) && i < |s.txns| && s.txns[i].pc.Ready?
    requires WillPost(cfg, s.db, s.txns[i].op) && Free(s) > if OpensFirst(s.txns[i].op) then 1 else 0
    ensures Reaches(cfg, start, s') && s' == Move1(s, i, PostingPc(cfg, s.db, s.txns[i].op, []))
    ensures Total(s'.txns, Connection) == Total(s.txns, Connection) + 1
  {
    hide Plan, Reaches, Total, Posts, ReadsCurrencies, Validate, OpensFirst, LinesOf;
    var s2 := StartOpening(cfg, start, s, i);
    KeysCovered(s.db, Plan(cfg, s.txns[i].op, NoRow).draft);
    var s3 := FindAccounts(cfg, start, s2, i);
    var uuid := UnusedId(s.db);
    Advanced(cfg, start, s3, i, uuid);
    s' := Advance(cfg, s3, i, uuid);
    TotalUpdate(s3.txns, Connection, i, s'.txns[i]);
    assert s'.txns == s.txns[i := s'.txns[i]];
  }

  lemma KeysCovered(db: Db, draft: Draft)
    requires Covered(db, Go(draft))
    ensures forall k :: k in KeysInOrder(draft.legs) ==> k in db.books.index
  {
    forall k | k in KeysInOrder(draft.legs) ensures k in db.books.index {
      var n :| 0 <= n < |draft.legs| && KeysInOrder(draft.legs)[n] == k;
      assert draft.legs[n] in draft.legs;
    }
  }

  /** The next account's row is there and its lock is free: the transaction takes it. */
  lemma TakeLock(cfg: Config, start: Sys, s: Sys, i: nat) returns (s': Sys)
    requires ConfigOk(cfg) && Reaches(cfg, start, s) && i < |s.txns| && s.txns[i].pc.Locking?
    requires |s.txns[i].pc.got| < |AccountIds(s.txns[i].pc.lines)| && !AwaitsLock(s, i)
    ensures Reaches(cfg, start, s') && |s'.txns| == |s.txns|
    ensures var pc := s.txns[i].pc;
            var id := AccountIds(pc.lines)[|pc.got|];
            && id in s.db.books.balances
            && s' == Move1(s, i, pc.(got := pc.got + [s.db.books.balances[id]])).(locks := s.locks[AccountLock(id) := i])
  {
    hide Plan, Reaches, Total, Validate, AccountIds, IndexOk, LocksOk;
    ReachedOk(cfg, start, s);
    assert TxnOk(cfg, s.db, s.txns[i]);
    var pc := s.txns[i].pc;
    var ids := AccountIds(pc.lines);
    PostedAccountsExist(s.db.books, pc.draft.legs);
    assert ids[|pc.got|] in ids;
    var uuid := UnusedId(s.db);
    Advanced(cfg, start, s, i, uuid);
    s' := Advance(cfg, s, i, uuid);
  }

  /** The transaction holds a lock on each of the first `n` accounts it touches. */
  predicate HasLocks(s: Sys, lines: seq<Line>, n: nat) {
    n <= |AccountIds(lines)| && forall k :: 0 <= k < n ==> AccountLock(AccountIds(lines)[k]) in s.locks
  }

  /** With nobody in its way a posting transaction gets all its locks. */
  lemma {:induction false} TakeLocks(cfg: Config, start: Sys, s: Sys, i: nat) returns (s': Sys)
    requires ConfigOk(cfg) && Reaches(cfg, start, s) && i < |s.txns| && s.txns[i].pc.Locking?
    requires HasLocks(s, s.txns[i].pc.lines, |s.txns[i].pc.got|)
    requires forall k :: |s.txns[i].pc.got| <= k < |AccountIds(s.txns[i].pc.lines)| ==>
               AccountLock(AccountIds(s.txns[i].pc.lines)[k]) !in s.locks
    ensures Reaches(cfg, start, s') && s'.db == s.db && s'.pool == s.pool && |s'.txns| == |s.txns|
    ensures s'.txns == s.txns[i := s'.txns[i]] && Total(s'.txns, Connection) == Total(s.txns, Connection)
    ensures s'.txns[i].pc.Locking? && |s'.txns[i].pc.got| == |AccountIds(s.txns[i].pc.lines)|
    ensures s'.txns[i] == s.txns[i].(pc := s.txns[i].pc.(got := s'.txns[i].pc.got))
    ensures HasLocks(s', s.txns[i].pc.lines, |AccountIds(s.txns[i].pc.lines)|)
    decreases |AccountIds(s.txns[i].pc.lines)| - |s.txns[i].pc.got|
  {
    hide Reaches, Total, AccountIds;
    var pc := s.txns[i].pc;
    var ids := AccountIds(pc.lines);
    if |pc.got| == |ids| {
      s' := s;
    } else {
      var s1 := TakeLock(cfg, start, s, i);
      TotalUpdate(s.txns, Connection, i, s1.txns[i]);
      assert s1.txns == s.txns[i := s1.txns[i]];
      LaterIds(pc.lines, |pc.got|);
      s' := TakeLocks(cfg, start, s1, i);
      assert s'.txns == s.txns[i := s'.txns[i]];
    }
  }

  lemma LaterIds(lines: seq<Line>, n: nat)
    requires n < |AccountIds(lines)|
    ensures forall k :: n < k < |AccountIds(lines)| ==> AccountIds(lines)[k] != AccountIds(lines)[n]
  {
  }

  /** With every lock held, the entry posts if the operation run alone would be done. */
  lemma WillCommit(cfg: Config, start: Sys, s: Sys, i: nat)
    requires ConfigOk(cfg) && Reaches(cfg, start, s) && i < |s.txns| && s.txns[i].pc.Locking?
    requires |s.txns[i].pc.got| == |AccountIds(s.txns[i].pc.lines)|
    requires Covered(s.db, Go(s.txns[i].pc.draft)) && Execute(s.db, s.txns[i].pc.draft).1.Done?
    ensures Posts(s, i)
  {
    hide Plan, Reaches, Validate, Settle, AccountIds, IndexOk, LocksOk, Write, ReadMap;
    ReachedOk(cfg, start, s);
    assert TxnOk(cfg, s.db, s.txns[i]);
    ReadIsCurrent(s.db.books, s.txns[i].pc.draft.legs, s.txns[i].pc.got);
    ExecuteSettled(s.db, s.txns[i].pc.draft);
  }

  lemma DoneWillPost(cfg: Config, db: Db, op: Op)
    requires ConfigOk(cfg) && !WantsRow(op) && Covered(db, Plan(cfg, op, RowOf(db, op))) && Apply(cfg, db, op).1.Done?
    ensures WillPost(cfg, db, op) && Execute(db, Plan(cfg, op, NoRow).draft).1.Done?
  {
    hide Plan, Validate, Settle;
    PlanStops(cfg, op, NoRow);
  }

  lemma PlanStops(cfg: Config, op: Op, row: Row)
    requires ConfigOk(cfg)
    ensures Plan(cfg, op, row).Stop? ==> !Plan(cfg, op, row).outcome.Done?
  {
  }

  /** The first call has posted and needs to look up its user; whoever else has begun waits for a lock. */
  predicate Queued(db: Db, s: Sys) {
    && s.db == db && s.txns != []
    && s.txns[0].pc.Locking? && LooksUpUser(s.txns[0].op) && Posts(s, 0)
    && HasLocks(s, s.txns[0].pc.lines, |AccountIds(s.txns[0].pc.lines)|)
    && forall j :: 0 < j < |s.txns| ==> s.txns[j].pc.Ready? || (s.txns[j].pc.Locking? && AwaitsLock(s, j))
  }

  /** A call that opens late and locks an account of the other call before any other account. */
  ghost predicate Follows(cfg: Config, db: Db, op: Op, first: Op)
    requires ConfigOk(cfg) && WillPost(cfg, db, first)
  {
    && !OpensFirst(op) && WillPost(cfg, db, op)
    && AccountIds(LinesFor(cfg, db, op)) != []
    && AccountIds(LinesFor(cfg, db, op))[0] in AccountIds(LinesFor(cfg, db, first))
  }

  /** The calls: one that looks up its user and would be done alone, others whose first account is one of its own. */
  ghost predicate Contend(cfg: Config, db: Db, ops: seq<Op>)
    requires ConfigOk(cfg)
  {
    && ops != [] && LooksUpUser(ops[0]) && !WantsRow(ops[0])
    && Covered(db, Plan(cfg, ops[0], RowOf(db, ops[0]))) && Apply(cfg, db, ops[0]).1.Done?
    && WillPost(cfg, db, ops[0])
    && forall j :: 0 < j < |ops| ==> Follows(cfg, db, ops[j], ops[0])
  }

  lemma SmallestFirst(lines: seq<Line>, k: nat)
    requires k < |lines| && forall j :: 0 <= j < |lines| ==> lines[k].account <= lines[j].account
    ensures AccountIds(lines) != [] && AccountIds(lines)[0] == lines[k].account
  {
    var ids := AccountIds(lines);
    assert lines[k].account in ids;
    var n :| 0 <= n < |ids| && ids[n] == lines[k].account;
    assert ids[0] in ids;
  }

  /** For one: deposits of the currency a conversion sells, to wallets whose ids come after the treasury's. */
  lemma DepositContends(cfg: Config, db: Db, swap: Op, deposit: Op, c: Code)
    requires ConfigOk(cfg) && WillPost(cfg, db, swap) && WillPost(cfg, db, deposit)
    requires swap.Convert? && GetCurrency(cfg, swap.from) == Some(c)
    requires deposit.Deposit? && GetCurrency(cfg, deposit.code) == Some(c)
    requires Pool(c, Treasury) in db.books.index && Wallet(deposit.user, c) in db.books.index
    requires db.books.index[Pool(c, Treasury)] < db.books.index[Wallet(deposit.user, c)]
    ensures Follows(cfg, db, deposit, swap)
  {
    hide Validate, ConvertedAmount;
    var d, l := LinesFor(cfg, db, deposit), LinesFor(cfg, db, swap);
    assert d[0].account == db.books.index[Pool(c, Treasury)] == l[1].account;
    assert d[1].account == db.books.index[Wallet(deposit.user, c)];
    SmallestFirst(d, 0);
  }

  lemma FirstPosts(cfg: Config, db: Db, ops: seq<Op>, p: nat) returns (s: Sys)
    requires ConfigOk(cfg) && IndexOk(db.books) && Contend(cfg, db, ops) && p >= 2
    ensures Reaches(cfg, StartOf(db, ops, p), s) && Queued(db, s) && Free(s) == p - 1
    ensures s.txns[0].pc.lines == LinesFor(cfg, db, ops[0])
  {
    hide Plan, Reaches, IndexOk, Total, AccountIds, Execute, Apply, Validate, LinesOf, Covered, Posts;
    var start := StartOf(db, ops, p);
    StartReached(cfg, db, ops, p);
    DoneWillPost(cfg, db, ops[0]);
    var s1 := StartPosting(cfg, start, start, 0);
    s := TakeLocks(cfg, start, s1, 0);
    CoveredPlan(cfg, db, ops[0]);
    WillCommit(cfg, start, s, 0);
  }

  lemma CoveredPlan(cfg: Config, db: Db, op: Op)
    requires ConfigOk(cfg) && WillPost(cfg, db, op)
    ensures Covered(db, Go(Plan(cfg, op, NoRow).draft))
  {
    hide Plan;
  }

  lemma JoinQueue(cfg: Config, db: Db, ops: seq<Op>, start: Sys, s: Sys, j: nat) returns (s': Sys)
    requires ConfigOk(cfg) && Contend(cfg, db, ops) && Reaches(cfg, start, s) && Queued(db, s) && Free(s) > 0
    requires |s.txns| == |ops| && 0 < j < |ops| && s.txns[j] == Txn(ops[j], Ready)
    requires s.txns[0].pc.lines == LinesFor(cfg, db, ops[0])
    ensures Reaches(cfg, start, s') && Queued(db, s') && s'.txns[0] == s.txns[0]
    ensures Total(s'.txns, Connection) == Total(s.txns, Connection) + 1
  {
    hide Plan, Reaches, Total, AccountIds, LinesOf, LooksUpUser, OpensFirst, WillPost, Covered, Apply, Posts, HasLocks, Validate;
    s' := StartPosting(cfg, start, s, j);
    FirstIsLocked(cfg, db, ops, s, j);
    QueueGrows(cfg, db, s, j, PostingPc(cfg, db, ops[j], []), s');
  }

  lemma FirstIsLocked(cfg: Config, db: Db, ops: seq<Op>, s: Sys, j: nat)
    requires ConfigOk(cfg) && Contend(cfg, db, ops) && Queued(db, s) && 0 < j < |ops|
    requires s.txns[0].pc.lines == LinesFor(cfg, db, ops[0])
    ensures AccountIds(LinesFor(cfg, db, ops[j])) != []
    ensures AccountLock(AccountIds(LinesFor(cfg, db, ops[j]))[0]) in s.locks
  {
    hide Plan, AccountIds, LinesOf, LooksUpUser, OpensFirst, Posts, Covered, Apply, Validate;
    var ids := AccountIds(LinesFor(cfg, db, ops[0]));
    var k :| 0 <= k < |ids| && ids[k] == AccountIds(LinesFor(cfg, db, ops[j]))[0];
    assert AccountLock(ids[k]) in s.locks;
  }

  /** A call that has come to wait for a lock joins the queue. */
  lemma QueueGrows(cfg: Config, db: Db, s: Sys, j: nat, pc: Pc, s': Sys)
    requires Queued(db, s) && 0 < j < |s.txns| && s' == Move1(s, j, pc)
    requires pc.Locking? && |pc.got| < |AccountIds(pc.lines)| && AccountLock(AccountIds(pc.lines)[|pc.got|]) in s.locks
    ensures Queued(db, s')
  {
    hide AccountIds, Settle, ReadMap, ChecksOk, LooksUpUser;
  }

  function Each(t: Txn): nat { 1 }

  lemma EachCounts(txns: seq<Txn>)
    ensures Total(txns, Each) == |txns|
  {
    TotalEven(txns, Each, 1);
  }

  lemma QueuedNotConnected(db: Db, s: Sys, j: nat)
    requires Queued(db, s) && j < |s.txns| && Connection(s.txns[j]) < 1
    ensures j > 0 && s.txns[j].pc.Ready?
  {
  }

  /** One after another joins the queue until no connection is left. */
  lemma {:induction false} FillQueue(cfg: Config, db: Db, ops: seq<Op>, p: nat, s: Sys) returns (s': Sys)
    requires ConfigOk(cfg) && Contend(cfg, db, ops) && p <= |ops|
    requires Reaches(cfg, StartOf(db, ops, p), s) && Queued(db, s)
    requires s.txns[0].pc.lines == LinesFor(cfg, db, ops[0])
    ensures Reaches(cfg, StartOf(db, ops, p), s') && Queued(db, s') && Free(s') <= 0
    decreases Free(s)
  {
    hide Plan, Reaches, Total, Contend, Queued, Connection, LinesFor;
    ReachedOk(cfg, StartOf(db, ops, p), s);
    if Free(s) <= 0 {
      s' := s;
    } else {
      EachCounts(s.txns);
      var j := TotalGap(s.txns, Each, s.txns, Connection);
      QueuedNotConnected(db, s, j);
      s' := JoinQueue(cfg, db, ops, StartOf(db, ops, p), s, j);
      ReachedOk(cfg, StartOf(db, ops, p), s');
      s' := FillQueue(cfg, db, ops, p, s');
    }
  }

  /** The queue starves once it has the last connection: its head needs a second one, all others wait for locks. */
  lemma QueuedStarved(db: Db, s: Sys)
    requires Queued(db, s) && Free(s) <= 0
    ensures Starved(s) && !Over(s.txns[0])
  {
    hide Posts, HasLocks;
  }

  lemma StarvedStuck(cfg: Config, s: Sys, i: nat)
    requires SysOk(cfg, s) && i < |s.txns| && !Over(s.txns[i]) && Starved(s)
    ensures Stuck(s)
  {
    hide SysOk, Enabled, Starved;
    SomeoneCanStepIff(cfg, s, i);
  }

  /**
   Exactly when one call that looks up a user after posting -- a conversion or a market order -- among others that
   post to one of its accounts can run the pool dry: when there are at least as many calls as connections, be it
   the only one that opens first.
   */
  lemma LookUpRunsDryIff(cfg: Config, db: Db, ops: seq<Op>, p: nat)
    requires ConfigOk(cfg) && IndexOk(db.books) && Contend(cfg, db, ops)
    ensures (exists s :: Reaches(cfg, StartOf(db, ops, p), s) && Stuck(s)) <==> p <= |ops|
  {
    hide Plan, Reaches, IndexOk, Stuck, Starved, Total, LinesFor, Apply, Covered, Validate, SysOk;
    if p >= 2 && p <= |ops| {
      var s := FirstPosts(cfg, db, ops, p);
      s := FillQueue(cfg, db, ops, p, s);
      QueuedStarved(db, s);
      ReachedOk(cfg, StartOf(db, ops, p), s);
      StarvedStuck(cfg, s, 0);
    } else if p <= |ops| {
      TotalAtLeast(ops, Opener, 0);
      FirstPlans(cfg, db, ops);
      var s := OpenersGetStuck(cfg, db, ops, p);
    } else {
      forall s | Reaches(cfg, StartOf(db, ops, p), s) ensures !Stuck(s) {
        ReachedOk(cfg, StartOf(db, ops, p), s);
        ManyConnections(cfg, s);
      }
    }
  }

  lemma FirstPlans(cfg: Config, db: Db, ops: seq<Op>)
    requires ConfigOk(cfg) && Contend(cfg, db, ops)
    ensures Opener(ops[0]) == 1
    ensures forall i :: 0 <= i < |ops| && OpensFirst(ops[i]) ==> Plan(cfg, ops[i], RowOf(db, ops[i])).Go?
  {
    hide Plan, LinesFor, Apply, Validate, AccountIds, Covered;
  }

  lemma ManyConnections(cfg: Config, s: Sys)
    requires SysOk(cfg, s) && |s.txns| < s.pool
    ensures !Stuck(s)
  {
    hide SysOk, Enabled;
    if Stuck(s) {
      var i :| 0 <= i < |s.txns| && !Over(s.txns[i]);
      var k := SomeoneCanStep(cfg, s, i);
      NotStuck(s, k);
    }
  }
}
