/**
 A key's calls and the ledger together: a handler is one transfer or one conversion, and what it commits is the
 entry its transaction posts, while any other transactions interleave with it statement by statement.
 */
module KeyedLedger {
  import opened Wrappers
  import opened Ledger
  import opened System
  import opened Invariant
  import Runs
  import Interleaving
  import Refinement
  import Concurrency
  import Idempotency

  /** The ledger's transactions and tables, and all that the calls with one key did so far. */
  datatype Joint = Joint(sys: Interleaving.Sys, calls: Idempotency.Run)

  /** The operations that run under a key. */
  predicate Keyed(op: Op) { op.Transfer? || op.Convert? }

  /** The key's calls made this move, and no other. */
  ghost predicate Moves(stale: int, j: Joint, j': Joint, m: Idempotency.Move) {
    && j'.calls.Then? && j'.calls.before == j.calls && j'.calls.move == m
    && j'.calls.i < |Idempotency.Now(j.calls).callers|
    && Idempotency.Step(stale, Idempotency.Now(j.calls), j'.calls.i, m) == Some(j'.calls.after)
  }

  /** A step of some transaction that is not a commit for this key. */
  ghost predicate OtherStep(cfg: Config, j: Joint, j': Joint) {
    (exists i :: Interleaving.StepBy(cfg, j.sys, i, j'.sys)) && j'.calls == j.calls
  }

  ghost predicate CallStep(stale: int, j: Joint, j': Joint) {
    j'.sys == j.sys && j'.calls.Then? && !j'.calls.move.Commit? && Moves(stale, j, j', j'.calls.move)
  }

  /** A handler's transaction commits its entry. */
  ghost predicate HandlerStep(cfg: Config, stale: int, j: Joint, j': Joint) {
    exists i, entry :: HandlerCommits(cfg, stale, j, j', i, entry)
  }

  ghost predicate HandlerCommits(cfg: Config, stale: int, j: Joint, j': Joint, i: nat, entry: nat) {
    && Interleaving.StepBy(cfg, j.sys, i, j'.sys)
    && i < |j'.sys.txns| && Keyed(j.sys.txns[i].op) && j'.sys.txns[i].pc == Interleaving.Finished(Done(entry))
    && Moves(stale, j, j', Idempotency.Commit(entry))
  }

  /** From sound tables, transactions at any point, and a key nobody has used. */
  ghost predicate JointRun(cfg: Config, stale: int, trace: seq<Joint>) {
    && |trace| > 0
    && Interleaving.SysOk(cfg, trace[0].sys) && Sound(cfg, trace[0].sys.db)
    && trace[0].calls.Begun?
    && Idempotency.Fair(trace[0].calls.start) && trace[0].calls.start.row.None?
    && forall i :: 0 < i < |trace| ==>
         || OtherStep(cfg, trace[i - 1], trace[i])
         || CallStep(stale, trace[i - 1], trace[i])
         || HandlerStep(cfg, stale, trace[i - 1], trace[i])
  }

  /** The ids name different journal entries of transfers and conversions. */
  predicate AreEntries(ids: seq<nat>, journal: seq<Entry>) {
    && (forall a, b :: 0 <= a < b < |ids| ==> ids[a] < ids[b])
    && forall a :: 0 <= a < |ids| ==> ids[a] < |journal| && journal[ids[a]].kind in {TransferEntry, FxConvertEntry}
  }

  ghost predicate JointOk(cfg: Config, stale: int, j: Joint) {
    && Interleaving.SysOk(cfg, j.sys) && Sound(cfg, j.sys.db)
    && Idempotency.IsRun(stale, j.calls) && Idempotency.First(j.calls).row.None?
    && AreEntries(Idempotency.PostedBy(j.calls), j.sys.db.books.journal)
  }

  /** A transaction that is done has appended its one entry. */
  lemma DoneAppends(cfg: Config, s: Interleaving.Sys, i: nat, s': Interleaving.Sys, entry: nat)
    requires Interleaving.SysOk(cfg, s) && Sound(cfg, s.db) && Interleaving.StepBy(cfg, s, i, s')
    requires i < |s.txns| && i < |s'.txns| && Keyed(s.txns[i].op)
    requires s'.txns[i].pc == Interleaving.Finished(Done(entry))
    ensures entry == |s.db.books.journal| && |s'.db.books.journal| == entry + 1
    ensures s.db.books.journal <= s'.db.books.journal
    ensures s'.db.books.journal[entry].kind in {TransferEntry, FxConvertEntry}
  {
    hide Sound, Apply, Covered, Plan, Interleaving.SysOk, Interleaving.StepBy;
    Refinement.StepKeeps(cfg, s, i, s');
    Runs.SoundParts(cfg, s.db);
    Runs.ApplyCommits(cfg, s.db, s.txns[i].op);
    KeyedKind(cfg, s.txns[i].op, RowOf(s.db, s.txns[i].op));
  }

  lemma KeyedKind(cfg: Config, op: Op, row: Row)
    requires ConfigOk(cfg) && Keyed(op) && Plan(cfg, op, row).Go?
    ensures Plan(cfg, op, row).draft.kind in {TransferEntry, FxConvertEntry}
  {
  }

  lemma HandlerStepKeeps(cfg: Config, stale: int, j: Joint, j': Joint)
    requires JointOk(cfg, stale, j) && HandlerStep(cfg, stale, j, j')
    ensures JointOk(cfg, stale, j')
  {
    hide Sound, Idempotency.Step, Interleaving.SysOk, Interleaving.StepBy, Runs.Advances, AreEntries;
    var i, entry :| HandlerCommits(cfg, stale, j, j', i, entry);
    StepIndex(cfg, j.sys, i, j'.sys);
    DoneAppends(cfg, j.sys, i, j'.sys, entry);
    Concurrency.StepSound(cfg, j.sys, i, j'.sys);
    OneMoreEntry(Idempotency.PostedBy(j.calls), j.sys.db.books.journal, entry, j'.sys.db.books.journal);
  }

  lemma OneMoreEntry(ids: seq<nat>, journal: seq<Entry>, entry: nat, journal': seq<Entry>)
    requires AreEntries(ids, journal) && journal <= journal' && entry == |journal| < |journal'|
    requires journal'[entry].kind in {TransferEntry, FxConvertEntry}
    ensures AreEntries(ids + [entry], journal')
  {
  }

  lemma StepIndex(cfg: Config, s: Interleaving.Sys, i: nat, s': Interleaving.Sys)
    requires Interleaving.StepBy(cfg, s, i, s')
    ensures i < |s.txns|
  {
  }

  lemma OtherStepKeeps(cfg: Config, stale: int, j: Joint, j': Joint)
    requires JointOk(cfg, stale, j) && OtherStep(cfg, j, j')
    ensures JointOk(cfg, stale, j')
  {
    hide Sound, Idempotency.IsRun, Interleaving.SysOk, Interleaving.StepBy;
    var i :| Interleaving.StepBy(cfg, j.sys, i, j'.sys);
    Concurrency.StepSound(cfg, j.sys, i, j'.sys);
  }

  lemma CallStepKeeps(cfg: Config, stale: int, j: Joint, j': Joint)
    requires JointOk(cfg, stale, j) && CallStep(stale, j, j')
    ensures JointOk(cfg, stale, j')
  {
    hide Sound, Idempotency.Step, Interleaving.SysOk;
  }

  lemma {:induction false} JointSound(cfg: Config, stale: int, trace: seq<Joint>, n: nat)
    requires JointRun(cfg, stale, trace) && n < |trace|
    ensures JointOk(cfg, stale, trace[n])
  {
    hide OtherStep, CallStep, HandlerStep, Sound, Interleaving.SysOk;
    if n == 0 {
      assert Idempotency.PostedBy(trace[0].calls) == [];
    } else {
      JointSound(cfg, stale, trace, n - 1);
      if HandlerStep(cfg, stale, trace[n - 1], trace[n]) {
        HandlerStepKeeps(cfg, stale, trace[n - 1], trace[n]);
      } else if CallStep(stale, trace[n - 1], trace[n]) {
        CallStepKeeps(cfg, stale, trace[n - 1], trace[n]);
      } else {
        OtherStepKeeps(cfg, stale, trace[n - 1], trace[n]);
      }
    }
  }

  /**
   The entries a key's handlers posted are journal entries, all different, at most as many as handlers were
   started, and at most one if nobody reclaimed the key and nothing failed unexpectedly.
   */
  lemma KeyEntries(cfg: Config, stale: int, trace: seq<Joint>, n: nat)
    requires JointRun(cfg, stale, trace) && n < |trace|
    ensures Idempotency.IsRun(stale, trace[n].calls)
    ensures var posted := Idempotency.PostedBy(trace[n].calls);
            && AreEntries(posted, trace[n].sys.db.books.journal)
            && |posted| <= Idempotency.Starts(trace[n].calls)
            && (Idempotency.Calm(stale, trace[n].calls) ==> |posted| <= 1)
  {
    hide JointRun, Sound, Interleaving.SysOk, Idempotency.IsRun, Idempotency.Calm;
    JointSound(cfg, stale, trace, n);
    Idempotency.PostsAtMostStarts(stale, trace[n].calls);
    if Idempotency.Calm(stale, trace[n].calls) {
      Idempotency.AtMostOnce(stale, trace[n].calls);
    }
  }

  /** The entry id stored with a response, and with a response about to be replayed, is a posted journal entry. */
  lemma StoredEntryInJournal(cfg: Config, stale: int, trace: seq<Joint>, n: nat, row: Idempotency.Row)
    requires JointRun(cfg, stale, trace) && n < |trace|
    requires var s := Idempotency.Now(trace[n].calls);
             s.row == Some(row) || exists j :: 0 <= j < |s.callers| && s.callers[j].pc == Idempotency.Seen(row)
    requires row.entry.Some?
    ensures row.entry.value in Idempotency.PostedBy(trace[n].calls)
    ensures var journal := trace[n].sys.db.books.journal;
            row.entry.value < |journal| && journal[row.entry.value].kind in {TransferEntry, FxConvertEntry}
  {
    hide JointRun, Sound, Interleaving.SysOk, Idempotency.IsRun;
    JointSound(cfg, stale, trace, n);
    Idempotency.StoredEntryWasPosted(stale, trace[n].calls);
    var s := Idempotency.Now(trace[n].calls);
    if s.row != Some(row) {
      var j :| 0 <= j < |s.callers| && s.callers[j].pc == Idempotency.Seen(row);
      assert Idempotency.Named(s.callers[j], Idempotency.PostedBy(trace[n].calls));
    }
  }
}
