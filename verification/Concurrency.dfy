/**
 Whole concurrent runs: every interleaving is serializable in the order transactions finish, keeps the
 invariant of the tables, never deadlocks, and ends.
 */
module Concurrency {
  import opened Wrappers
  import opened Sums
  import opened Ledger
  import opened LedgerLaws
  import opened System
  import opened Invariant
  import Runs
  import opened Interleaving
  import opened Refinement

  // ---------------------------------------------------------------- runs

  /** A run and the transaction that took each step, from sound tables and transactions about to begin. */
  ghost predicate SysRun(cfg: Config, trace: seq<Sys>, who: seq<nat>) {
    && |trace| == |who| + 1
    && SysOk(cfg, trace[0]) && PoolOk(trace[0])
    && (forall i :: 0 <= i < |trace[0].txns| ==> trace[0].txns[i].pc == Ready)
    && forall k :: 0 <= k < |who| ==> StepBy(cfg, trace[k], who[k], trace[k + 1])
  }

  /** A transaction that gets a connection to keep took it from the free ones. */
  lemma ConnectsFromFree(cfg: Config, s: Sys, i: nat, uuid: int)
    requires SysOk(cfg, s) && i < |s.txns| && Enabled(s, i)
    ensures i < |Advance(cfg, s, i, uuid).txns|
    ensures Connected(Advance(cfg, s, i, uuid).txns[i]) ==> Connected(s.txns[i]) || NeedsSpare(s, i)
  {
    hide Plan, Settle, Validate, OpenOne, IndexOk, LocksOk, ReadsCurrencies, Posts, AccountIds;
    assert TxnOk(cfg, s.db, s.txns[i]);
  }

  lemma AdvanceUpdates(cfg: Config, s: Sys, i: nat, uuid: int)
    requires ConfigOk(cfg) && i < |s.txns| && Enabled(s, i)
    ensures var s' := Advance(cfg, s, i, uuid); s'.txns == s.txns[i := s'.txns[i]] && s'.pool == s.pool
  {
    hide Plan, Settle, Validate, OpenOne, LinesOf, AccountIds, ReadMap, NeedsSpare;
  }

  lemma StepKeepsPool(cfg: Config, s: Sys, i: nat, s': Sys)
    requires SysOk(cfg, s) && PoolOk(s) && StepBy(cfg, s, i, s')
    ensures PoolOk(s') && s'.pool == s.pool && |s'.txns| == |s.txns|
  {
    hide SysOk, Advance, Total, NeedsSpare, Connected;
    if s' == End(s, i, Aborted) {
      TotalUpdate(s.txns, Connection, i, s'.txns[i]);
      AbortDisconnects(s'.txns[i]);
    } else {
      var uuid :| uuid !in s.db.books.accounts && s' == Advance(cfg, s, i, uuid);
      AdvanceUpdates(cfg, s, i, uuid);
      TotalUpdate(s.txns, Connection, i, s'.txns[i]);
      ConnectsFromFree(cfg, s, i, uuid);
    }
  }

  lemma AbortDisconnects(t: Txn)
    requires t.pc.Aborted?
    ensures !Connected(t)
  {
  }

  /** What every state of every run keeps: locks, knowledge and connections are in order. */
  lemma {:induction false} RunOk(cfg: Config, trace: seq<Sys>, who: seq<nat>, n: nat)
    requires SysRun(cfg, trace, who) && n < |trace|
    ensures SysOk(cfg, trace[n]) && PoolOk(trace[n])
    ensures |trace[n].txns| == |trace[0].txns| && trace[n].pool == trace[0].pool
  {
    hide SysOk, PoolOk, StepBy;
    if n > 0 {
      RunOk(cfg, trace, who, n - 1);
      assert StepBy(cfg, trace[n - 1], who[n - 1], trace[n - 1 + 1]);
      StepKeeps(cfg, trace[n - 1], who[n - 1], trace[n]);
      StepKeepsPool(cfg, trace[n - 1], who[n - 1], trace[n]);
    }
  }

  lemma StepKeepsOps(cfg: Config, s: Sys, i: nat, s': Sys)
    requires SysOk(cfg, s) && StepBy(cfg, s, i, s')
    ensures |s'.txns| == |s.txns| && forall j :: 0 <= j < |s.txns| ==> s'.txns[j].op == s.txns[j].op
  {
    hide SysOk, Advance;
    if s' != End(s, i, Aborted) {
      var uuid :| uuid !in s.db.books.accounts && s' == Advance(cfg, s, i, uuid);
      AdvanceKeepsCount(cfg, s, i, uuid);
    }
  }

  /** Every transaction keeps the operation it began with. */
  lemma {:induction false} RunOps(cfg: Config, trace: seq<Sys>, who: seq<nat>, n: nat)
    requires SysRun(cfg, trace, who) && n < |trace|
    ensures |trace[n].txns| == |trace[0].txns|
    ensures forall j :: 0 <= j < |trace[0].txns| ==> trace[n].txns[j].op == trace[0].txns[j].op
  {
    hide SysOk, PoolOk, StepBy;
    if n > 0 {
      RunOps(cfg, trace, who, n - 1);
      RunOk(cfg, trace, who, n - 1);
      assert StepBy(cfg, trace[n - 1], who[n - 1], trace[n - 1 + 1]);
      StepKeepsOps(cfg, trace[n - 1], who[n - 1], trace[n]);
    }
  }

  lemma RunIndices(cfg: Config, trace: seq<Sys>, who: seq<nat>)
    requires SysRun(cfg, trace, who)
    ensures ConfigOk(cfg)
    ensures forall k :: 0 <= k < |who| ==> who[k] < |trace[k].txns| && |trace[k + 1].txns| == |trace[k].txns|
  {
    hide Advance;
    forall k | 0 <= k < |who|
      ensures who[k] < |trace[k].txns| && |trace[k + 1].txns| == |trace[k].txns|
    {
      assert StepBy(cfg, trace[k], who[k], trace[k + 1]);
      RunOk(cfg, trace, who, k);
      RunOk(cfg, trace, who, k + 1);
    }
  }

  // ---------------------------------------------------------------- what the tables keep

  /** An outcome other than a commit leaves the tables alone. */
  lemma NotDoneSame(cfg: Config, db: Db, op: Op)
    requires ConfigOk(cfg) && Covered(db, Plan(cfg, op, RowOf(db, op)))
    ensures !Apply(cfg, db, op).1.Done? ==> Apply(cfg, db, op).0 == db
  {
    hide Plan;
  }

  lemma StepSound(cfg: Config, s: Sys, i: nat, s': Sys)
    requires SysOk(cfg, s) && Sound(cfg, s.db) && StepBy(cfg, s, i, s')
    ensures SysOk(cfg, s') && Sound(cfg, s'.db) && Runs.Advances(s.db, s'.db)
  {
    hide SysOk, Sound, Plan, Apply, Covered, Advance, Opened, Runs.Advances;
    StepKeeps(cfg, s, i, s');
    Runs.AdvancesSelf(s.db);
    if s'.txns[i].pc.Finished? {
      Runs.ApplySound(cfg, s.db, s.txns[i].op);
      Runs.ApplyAdvances(cfg, s.db, s.txns[i].op);
    } else if s'.db != s.db {
      var key :| Opened(s.db, s'.db, {key});
      Runs.OpenSound(cfg, s.db, s'.db, {key});
      Runs.OpenAdvances(s.db, s'.db, {key});
    }
  }

  /** In every interleaved run rows, journal, outbox and accounts keep agreeing, at any magnitude. */
  lemma {:induction false} RunSound(cfg: Config, trace: seq<Sys>, who: seq<nat>, n: nat)
    requires SysRun(cfg, trace, who) && Sound(cfg, trace[0].db) && n < |trace|
    ensures Sound(cfg, trace[n].db)
  {
    hide SysOk, PoolOk, Sound, StepBy, Runs.Advances;
    if n > 0 {
      RunSound(cfg, trace, who, n - 1);
      RunOk(cfg, trace, who, n - 1);
      assert StepBy(cfg, trace[n - 1], who[n - 1], trace[n - 1 + 1]);
      StepSound(cfg, trace[n - 1], who[n - 1], trace[n]);
    }
  }

  /**
   However cancellations, fills, approvals and rejections interleave, between any two moments each order
   leaves OPEN and each request PENDING at most once, and journal and outbox only grow.
   */
  lemma {:induction false} ResolvedOnce(cfg: Config, trace: seq<Sys>, who: seq<nat>, n: nat, m: nat)
    requires SysRun(cfg, trace, who) && Sound(cfg, trace[0].db) && n <= m < |trace|
    ensures Runs.Advances(trace[n].db, trace[m].db)
    decreases m
  {
    hide SysOk, PoolOk, Sound, StepBy, Runs.Advances;
    if n == m {
      Runs.AdvancesSelf(trace[n].db);
    } else {
      ResolvedOnce(cfg, trace, who, n, m - 1);
      RunSound(cfg, trace, who, m - 1);
      RunOk(cfg, trace, who, m - 1);
      assert StepBy(cfg, trace[m - 1], who[m - 1], trace[m - 1 + 1]);
      StepSound(cfg, trace[m - 1], who[m - 1], trace[m]);
      Runs.AdvancesTransitive(trace[n].db, trace[m - 1].db, trace[m].db);
    }
  }

  /** The posting this step commits, if it commits one, stays within twenty digits. */
  ghost predicate CommitRoomy(cfg: Config, s: Sys, i: nat, s': Sys)
    requires ConfigOk(cfg) && i < |s.txns| && i < |s'.txns|
  {
    s'.txns[i].pc.Finished? && s'.txns[i].pc.outcome.Done?
    && Covered(s.db, Plan(cfg, s.txns[i].op, RowOf(s.db, s.txns[i].op))) ==>
      Roomy(cfg, s.db, s.txns[i].op)
  }

  ghost predicate RoomySteps(cfg: Config, trace: seq<Sys>, who: seq<nat>) {
    && ConfigOk(cfg) && |trace| == |who| + 1
    && forall k :: 0 <= k < |who| ==>
         && who[k] < |trace[k].txns| && who[k] < |trace[k + 1].txns|
         && CommitRoomy(cfg, trace[k], who[k], trace[k + 1])
  }

  lemma StepSafe(cfg: Config, s: Sys, i: nat, s': Sys)
    requires SysOk(cfg, s) && Inv(cfg, s.db) && StepBy(cfg, s, i, s')
    requires i < |s'.txns| && CommitRoomy(cfg, s, i, s')
    ensures Inv(cfg, s'.db)
  {
    hide SysOk, Inv, Plan, Apply, Covered, Roomy, Advance, Opened;
    StepKeeps(cfg, s, i, s');
    if s'.txns[i].pc.Finished? {
      NotDoneSame(cfg, s.db, s.txns[i].op);
      if s'.txns[i].pc.outcome.Done? {
        Runs.ApplyKeeps(cfg, s.db, s.txns[i].op);
      }
    } else if s'.db != s.db {
      var key :| Opened(s.db, s'.db, {key});
      Runs.OpenKeeps(cfg, s.db, s'.db, {key});
    }
  }

  /** In every state of every interleaved run within twenty digits the tables satisfy the whole invariant. */
  lemma {:induction false} RunSafe(cfg: Config, trace: seq<Sys>, who: seq<nat>, n: nat)
    requires SysRun(cfg, trace, who) && Inv(cfg, trace[0].db) && RoomySteps(cfg, trace, who) && n < |trace|
    ensures Inv(cfg, trace[n].db)
  {
    hide SysOk, PoolOk, Inv, StepBy, CommitRoomy;
    if n > 0 {
      RunSafe(cfg, trace, who, n - 1);
      RunOk(cfg, trace, who, n - 1);
      assert StepBy(cfg, trace[n - 1], who[n - 1], trace[n - 1 + 1]);
      assert CommitRoomy(cfg, trace[n - 1], who[n - 1], trace[n - 1 + 1]);
      StepSafe(cfg, trace[n - 1], who[n - 1], trace[n]);
    }
  }

  // ---------------------------------------------------------------- serializability

  /** One act of a serial execution: an account created, or a whole operation with its outcome. */
  datatype Act = Opens(key: AccountKey) | Runs(op: Op, outcome: Outcome)

  ghost predicate ActStep(cfg: Config, before: Db, act: Act, after: Db)
    requires ConfigOk(cfg)
  {
    match act
    case Opens(key) => Opened(before, after, {key})
    case Runs(op, outcome) =>
      && Covered(before, Plan(cfg, op, RowOf(before, op)))
      && (after, outcome) == Apply(cfg, before, op)
  }

  /** The acts, one after another and each alone, lead from one database to the other. */
  ghost predicate Serial(cfg: Config, before: Db, acts: seq<Act>, after: Db)
    requires ConfigOk(cfg)
    decreases |acts|
  {
    if acts == [] then after == before
    else exists mid :: Serial(cfg, before, Init(acts), mid) && ActStep(cfg, mid, Last(acts), after)
  }

  /** The operations among the acts, in order. */
  function RunsOf(acts: seq<Act>): seq<(Op, Outcome)> {
    if acts == [] then []
    else RunsOf(Init(acts)) + if Last(acts).Runs? then [(Last(acts).op, Last(acts).outcome)] else []
  }

  /** The operations that finished in the first `n` steps, in the order they finished. */
  function FinishedIn(trace: seq<Sys>, who: seq<nat>, n: nat): seq<(Op, Outcome)>
    requires |trace| == |who| + 1 && n <= |who|
    requires forall k :: 0 <= k < |who| ==> who[k] < |trace[k].txns| && |trace[k + 1].txns| == |trace[k].txns|
  {
    if n == 0 then []
    else
      var t := trace[n].txns[who[n - 1]];
      assert trace[n] == trace[n - 1 + 1];
      FinishedIn(trace, who, n - 1) + if t.pc.Finished? then [(trace[n - 1].txns[who[n - 1]].op, t.pc.outcome)] else []
  }

  lemma SerialSnoc(cfg: Config, before: Db, acts: seq<Act>, mid: Db, act: Act, after: Db)
    requires ConfigOk(cfg) && Serial(cfg, before, acts, mid) && ActStep(cfg, mid, act, after)
    ensures Serial(cfg, before, acts + [act], after)
    ensures RunsOf(acts + [act]) == RunsOf(acts) + if act.Runs? then [(act.op, act.outcome)] else []
  {
    hide ActStep;
    assert Init(acts + [act]) == acts && Last(acts + [act]) == act;
  }

  /**
   Whatever the interleaving, the tables are those of running the finished operations one at a time, in
   the order they finished, with the same outcomes, and account creations in between.
   */
  lemma {:induction false} Serializable(cfg: Config, trace: seq<Sys>, who: seq<nat>, n: nat) returns (acts: seq<Act>)
    requires SysRun(cfg, trace, who) && n <= |who|
    ensures ConfigOk(cfg)
    ensures forall k :: 0 <= k < |who| ==> who[k] < |trace[k].txns| && |trace[k + 1].txns| == |trace[k].txns|
    ensures Serial(cfg, trace[0].db, acts, trace[n].db)
    ensures RunsOf(acts) == FinishedIn(trace, who, n)
  {
    hide SysOk, PoolOk, StepBy, Serial, RunsOf;
    RunIndices(cfg, trace, who);
    if n == 0 {
      acts := [];
      SerialNothing(cfg, trace[0].db);
    } else {
      var before := Serializable(cfg, trace, who, n - 1);
      RunOk(cfg, trace, who, n - 1);
      assert trace[n] == trace[n - 1 + 1];
      assert StepBy(cfg, trace[n - 1], who[n - 1], trace[n]);
      acts := SerialStep(cfg, trace[0].db, before, trace[n - 1], who[n - 1], trace[n]);
    }
  }

  lemma SerialNothing(cfg: Config, db: Db)
    requires ConfigOk(cfg)
    ensures Serial(cfg, db, [], db) && RunsOf([]) == []
  {
  }

  lemma SerialStep(cfg: Config, start: Db, before: seq<Act>, s: Sys, i: nat, s': Sys) returns (acts: seq<Act>)
    requires SysOk(cfg, s) && StepBy(cfg, s, i, s') && |s'.txns| == |s.txns|
    requires Serial(cfg, start, before, s.db)
    ensures Serial(cfg, start, acts, s'.db)
    ensures RunsOf(acts) ==
            RunsOf(before) + if s'.txns[i].pc.Finished? then [(s.txns[i].op, s'.txns[i].pc.outcome)] else []
  {
    hide SysOk, Apply, Plan, Covered, Opened, Advance, Serial, RunsOf;
    StepKeeps(cfg, s, i, s');
    if s'.txns[i].pc.Finished? {
      var act := Runs(s.txns[i].op, s'.txns[i].pc.outcome);
      SerialSnoc(cfg, start, before, s.db, act, s'.db);
      acts := before + [act];
    } else if s'.db == s.db {
      acts := before;
    } else {
      var key :| Opened(s.db, s'.db, {key});
      SerialSnoc(cfg, start, before, s.db, Opens(key), s'.db);
      acts := before + [Opens(key)];
    }
  }

  // ---------------------------------------------------------------- locks tie no knot

  /** The account a posting transaction waits for is above every account it holds. */
  lemma WaitsUpwards(t: Txn, a: int)
    requires t.pc.Locking? && |t.pc.got| < |AccountIds(t.pc.lines)| && Holds(t, AccountLock(a))
    ensures a < AccountIds(t.pc.lines)[|t.pc.got|]
  {
    var ids := AccountIds(t.pc.lines);
    assert a in ids[..|t.pc.got|];
  }

  /** A bound on every account id somebody waits for. */
  lemma {:induction false} AwaitBound(s: Sys, n: nat) returns (bound: int)
    requires n <= |s.txns|
    ensures forall i :: 0 <= i < n && Awaits(s, i).Some? && Awaits(s, i).value.AccountLock? ==>
              Awaits(s, i).value.account < bound
  {
    if n == 0 {
      bound := 0;
    } else {
      bound := AwaitBound(s, n - 1);
      var r := Awaits(s, n - 1);
      if r.Some? && r.value.AccountLock? && bound <= r.value.account {
        bound := r.value.account + 1;
      }
    }
  }

  /** Following holders from a transaction past its row lock leads upwards to one that waits for no lock. */
  lemma {:induction false} Climb(cfg: Config, s: Sys, i: nat, bound: int) returns (k: nat)
    requires SysOk(cfg, s) && i < |s.txns| && !Over(s.txns[i]) && !s.txns[i].pc.Ready? && !s.txns[i].pc.Begun?
    requires forall j :: 0 <= j < |s.txns| && Awaits(s, j).Some? && Awaits(s, j).value.AccountLock? ==>
               Awaits(s, j).value.account < bound
    ensures k < |s.txns| && !Over(s.txns[k]) && !AwaitsLock(s, k)
    ensures s.txns[i].pc.Locking? ==> s.txns[k].pc.Locking?
    decreases if Awaits(s, i).Some? && Awaits(s, i).value.AccountLock? then bound - Awaits(s, i).value.account else 0
  {
    hide Plan, IndexOk, TxnOk, AccountIds;
    if !AwaitsLock(s, i) {
      k := i;
    } else {
      var r := Awaits(s, i).value;
      var h := s.locks[r];
      assert Holds(s.txns[h], r);
      if !AwaitsLock(s, h) {
        k := h;
      } else {
        WaitsUpwards(s.txns[h], r.account);
        k := Climb(cfg, s, h, bound);
      }
    }
  }

  /** The locks never tie a knot: while some transaction is not over, some one waits for no lock. */
  lemma SomeoneUnlocked(cfg: Config, s: Sys, i: nat) returns (k: nat)
    requires SysOk(cfg, s) && i < |s.txns| && !Over(s.txns[i])
    ensures k < |s.txns| && !Over(s.txns[k]) && !AwaitsLock(s, k)
  {
    hide Plan, IndexOk, TxnOk;
    if !AwaitsLock(s, i) {
      k := i;
    } else {
      var bound := AwaitBound(s, |s.txns|);
      var h := s.locks[Awaits(s, i).value];
      assert Holds(s.txns[h], Awaits(s, i).value);
      k := Climb(cfg, s, h, bound);
    }
  }

  // ---------------------------------------------------------------- every run ends

  /** At most this many steps are left to a transaction. */
  function Left(t: Txn): nat {
    match t.pc
    case Ready => 13
    case Begun => 12
    case Locked(_) => 11
    case Opening(_, draft, todo) => |todo| + |draft.legs| + 2
    case Locking(_, _, lines, got) => |AccountIds(lines)| - Min(|got|, |AccountIds(lines)|) + 1
    case _ => 0
  }

  /** Each step uses up at least one of the steps a transaction has left. */
  lemma AdvanceShrinks(cfg: Config, s: Sys, i: nat, uuid: int)
    requires SysOk(cfg, s) && i < |s.txns| && Enabled(s, i)
    ensures i < |Advance(cfg, s, i, uuid).txns|
    ensures Advance(cfg, s, i, uuid).txns == s.txns[i := Advance(cfg, s, i, uuid).txns[i]]
    ensures Left(Advance(cfg, s, i, uuid).txns[i]) < Left(s.txns[i])
  {
    hide Plan, Settle, Validate, OpenOne, IndexOk, LocksOk, StepBegin, StepLockRow, StepPlan, StepOpen, StepPost, Left, TxnOk;
    var t := s.txns[i];
    assert TxnOk(cfg, s.db, t) && RowHeld(t);
    match t.pc
    case Ready => BeginShrinks(s, i);
    case Begun => WantedRow(cfg, s.db, t); LockRowShrinks(cfg, s, i);
    case Locked(_) => PlanShrinks(cfg, s, i);
    case Opening(_, _, _) => OpenShrinks(cfg, s, i, uuid);
    case Locking(_, _, _, _) => PostShrinks(cfg, s, i);
  }

  lemma BeginShrinks(s: Sys, i: nat)
    requires i < |s.txns| && s.txns[i].pc.Ready?
    ensures var s' := StepBegin(s, i); s'.txns == s.txns[i := s'.txns[i]] && Left(s'.txns[i]) < Left(s.txns[i])
  {
  }

  lemma WantedRow(cfg: Config, db: Db, t: Txn)
    requires ConfigOk(cfg) && TxnOk(cfg, db, t) && t.pc.Begun?
    ensures WantsRow(t.op)
  {
  }

  lemma LockRowShrinks(cfg: Config, s: Sys, i: nat)
    requires ConfigOk(cfg) && i < |s.txns| && s.txns[i].pc.Begun? && WantsRow(s.txns[i].op)
    ensures var s' := StepLockRow(cfg, s, i); s'.txns == s.txns[i := s'.txns[i]] && Left(s'.txns[i]) < Left(s.txns[i])
  {
    hide Plan;
    NoRowNoDraft(cfg, s.txns[i].op);
  }

  lemma PlanShrinks(cfg: Config, s: Sys, i: nat)
    requires ConfigOk(cfg) && i < |s.txns| && s.txns[i].pc.Locked?
    requires TxnOk(cfg, s.db, s.txns[i])
    ensures var s' := StepPlan(cfg, s, i); s'.txns == s.txns[i := s'.txns[i]] && Left(s'.txns[i]) < Left(s.txns[i])
  {
    hide Plan;
    var t := s.txns[i];
    if Plan(cfg, t.op, t.pc.row).Go? {
      PlanShapely(cfg, t.op, t.pc.row);
    }
  }

  lemma OpenShrinks(cfg: Config, s: Sys, i: nat, uuid: int)
    requires ConfigOk(cfg) && i < |s.txns| && s.txns[i].pc.Opening?
    requires TxnOk(cfg, s.db, s.txns[i])
    ensures var s' := StepOpen(s, i, uuid); s'.txns == s.txns[i := s'.txns[i]] && Left(s'.txns[i]) < Left(s.txns[i])
  {
    hide Plan, Validate, OpenOne;
  }

  lemma GotAtMostIds(cfg: Config, db: Db, t: Txn)
    requires ConfigOk(cfg) && TxnOk(cfg, db, t) && t.pc.Locking?
    ensures |t.pc.got| <= |AccountIds(t.pc.lines)|
  {
    hide Plan, LinesOf, Validate, AccountIds;
  }

  lemma PostShrinks(cfg: Config, s: Sys, i: nat)
    requires ConfigOk(cfg) && i < |s.txns| && s.txns[i].pc.Locking?
    requires TxnOk(cfg, s.db, s.txns[i])
    ensures var s' := StepPost(s, i); s'.txns == s.txns[i := s'.txns[i]] && Left(s'.txns[i]) < Left(s.txns[i])
  {
    hide Plan, Settle, Validate, AccountIds, ReadMap, LinesOf, Write, WriteEntry, ChecksOk, TxnOk;
    GotAtMostIds(cfg, s.db, s.txns[i]);
  }

  lemma StepShrinks(cfg: Config, s: Sys, i: nat, s': Sys)
    requires SysOk(cfg, s) && StepBy(cfg, s, i, s')
    ensures Total(s'.txns, Left) < Total(s.txns, Left)
  {
    hide SysOk, Advance, Total;
    if s' == End(s, i, Aborted) {
      TotalUpdate(s.txns, Left, i, s'.txns[i]);
      RunningHasSteps(s.txns[i]);
    } else {
      var uuid :| uuid !in s.db.books.accounts && s' == Advance(cfg, s, i, uuid);
      AdvanceShrinks(cfg, s, i, uuid);
      TotalUpdate(s.txns, Left, i, s'.txns[i]);
    }
  }

  lemma RunningHasSteps(t: Txn)
    requires !Over(t)
    ensures Left(t) > 0
  {
  }

  /** Termination: no run has more than thirteen steps per transaction. */
  lemma {:induction false} RunEnds(cfg: Config, trace: seq<Sys>, who: seq<nat>, n: nat)
    requires SysRun(cfg, trace, who) && n <= |who|
    ensures n + Total(trace[n].txns, Left) <= 13 * |trace[0].txns|
  {
    hide SysOk, PoolOk, StepBy, Total;
    if n == 0 {
      TotalEven(trace[0].txns, Left, 13);
    } else {
      RunEnds(cfg, trace, who, n - 1);
      RunOk(cfg, trace, who, n - 1);
      assert StepBy(cfg, trace[n - 1], who[n - 1], trace[n - 1 + 1]);
      StepShrinks(cfg, trace[n - 1], who[n - 1], trace[n]);
    }
  }
}
