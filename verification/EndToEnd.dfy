/**
 Ledger and messaging together: operations interleave statement by statement, and the events of one that commits
 appear in the publishers' table at its commit.
 */
module EndToEnd {
  import opened Wrappers
  import opened System
  import opened Invariant
  import opened Outcomes
  import Runs
  import Interleaving
  import Concurrency
  import opened Messaging

  /** The ledger's transactions and tables, and all that publishers, broker and consumers did so far. */
  datatype Joint = Joint(sys: Interleaving.Sys, mail: Run)

  function EventsOf(rows: seq<OutboxRow>): seq<Event> {
    seq(|rows|, i requires 0 <= i < |rows| => rows[i].event)
  }

  predicate Unsent(rows: seq<OutboxRow>) {
    forall i :: 0 <= i < |rows| ==> !rows[i].published
  }

  function AppendAll(h: Run, rows: seq<OutboxRow>): Run
    decreases |rows|
  {
    if rows == [] then h
    else
      var before := AppendAll(h, rows[..|rows| - 1]);
      var w := Now(before);
      Then(before, Append(rows[|rows| - 1]), w.(rows := w.rows + [rows[|rows| - 1]]))
  }

  /** A transaction takes its next step; if it commits, with whatever rows that adds to the outbox. */
  ghost predicate LedgerStep(cfg: Config, j: Joint, j': Joint) {
    && (exists i :: Interleaving.StepBy(cfg, j.sys, i, j'.sys))
    && exists rows :: Unsent(rows) && j'.sys.db.outbox == j.sys.db.outbox + EventsOf(rows) && j'.mail == AppendAll(j.mail, rows)
  }

  /** A publisher or consumer makes a move. */
  ghost predicate MailStep(j: Joint, j': Joint) {
    && j'.sys == j.sys
    && j'.mail.Then? && j'.mail.before == j.mail && !j'.mail.move.Append?
    && Messaging.Step(Now(j.mail), j'.mail.move) == Some(j'.mail.after)
  }

  /** Tables that are sound, transactions at any point, and every outbox row still to be published. */
  ghost predicate JointStart(cfg: Config, j: Joint) {
    && Interleaving.SysOk(cfg, j.sys) && Sound(cfg, j.sys.db)
    && j.mail.Begun? && Fresh(j.mail.start) && SameOutbox(j.mail.start, j.sys.db)
  }

  ghost predicate JointRun(cfg: Config, trace: seq<Joint>) {
    && |trace| > 0
    && JointStart(cfg, trace[0])
    && forall i :: 0 < i < |trace| ==> LedgerStep(cfg, trace[i - 1], trace[i]) || MailStep(trace[i - 1], trace[i])
  }

  /** What every joint state keeps. */
  ghost predicate JointOk(cfg: Config, j: Joint) {
    && Interleaving.SysOk(cfg, j.sys) && Sound(cfg, j.sys.db)
    && IsRun(j.mail) && SameOutbox(Now(j.mail), j.sys.db)
  }

  lemma {:induction false} AppendedAll(h: Run, rows: seq<OutboxRow>)
    requires IsRun(h) && Unsent(rows)
    ensures IsRun(AppendAll(h, rows))
    ensures Now(AppendAll(h, rows)) == Now(h).(rows := Now(h).rows + rows)
  {
    if rows != [] {
      var n := |rows| - 1;
      AppendedAll(h, rows[..n]);
      assert Now(h).rows + rows[..n] + [rows[n]] == Now(h).rows + rows;
    } else {
      assert Now(h).rows + rows == Now(h).rows;
    }
  }

  lemma LedgerStepKeeps(cfg: Config, j: Joint, j': Joint)
    requires JointOk(cfg, j) && LedgerStep(cfg, j, j')
    ensures JointOk(cfg, j')
  {
    hide Sound, IsRun, Interleaving.SysOk, Interleaving.StepBy, Runs.Advances;
    var i :| Interleaving.StepBy(cfg, j.sys, i, j'.sys);
    Concurrency.StepSound(cfg, j.sys, i, j'.sys);
    var rows :| Unsent(rows) && j'.sys.db.outbox == j.sys.db.outbox + EventsOf(rows) && j'.mail == AppendAll(j.mail, rows);
    AppendedAll(j.mail, rows);
  }

  lemma MailStepKeeps(cfg: Config, j: Joint, j': Joint)
    requires JointOk(cfg, j) && MailStep(j, j')
    ensures JointOk(cfg, j')
  {
    hide PublisherStep, ConsumerStep, Sound, Interleaving.SysOk;
    NothingDropped(j.mail, j'.mail);
    OnlyAppendAdds(Now(j.mail), j'.mail.move, j'.mail.after);
  }

  lemma OnlyAppendAdds(w: World, m: Move, w': World)
    requires Messaging.Step(w, m) == Some(w') && !m.Append?
    ensures |w'.rows| == |w.rows|
  {
  }

  /** Every step of a transaction can be taken here: its new events always extend the outbox. */
  lemma LedgerNeverBlocked(cfg: Config, j: Joint, i: nat, after: Interleaving.Sys) returns (j': Joint)
    requires JointOk(cfg, j) && Interleaving.StepBy(cfg, j.sys, i, after)
    ensures j'.sys == after && LedgerStep(cfg, j, j')
  {
    hide Sound, IsRun, Interleaving.SysOk, Interleaving.StepBy;
    Concurrency.StepSound(cfg, j.sys, i, after);
    var news := after.db.outbox[|j.sys.db.outbox|..];
    var rows := seq(|news|, n requires 0 <= n < |news| => OutboxRow(news[n], None, 0, false));
    assert EventsOf(rows) == news;
    j' := Joint(after, AppendAll(j.mail, rows));
    assert Unsent(rows) && j'.sys.db.outbox == j.sys.db.outbox + EventsOf(rows);
  }

  /** In every joint run the ledger's tables are sound and the publishers see exactly the ledger's outbox. */
  lemma {:induction false} JointSound(cfg: Config, trace: seq<Joint>, n: nat)
    requires JointRun(cfg, trace) && n < |trace|
    ensures JointOk(cfg, trace[n])
  {
    hide LedgerStep, MailStep, Sound, Interleaving.SysOk;
    if n > 0 {
      JointSound(cfg, trace, n - 1);
      if LedgerStep(cfg, trace[n - 1], trace[n]) {
        LedgerStepKeeps(cfg, trace[n - 1], trace[n]);
      } else {
        MailStepKeeps(cfg, trace[n - 1], trace[n]);
      }
    }
  }

  /** Every email ever sent announces one journal entry of an announced kind; no entry is announced twice. */
  lemma EmailsAnnounceEntries(cfg: Config, trace: seq<Joint>, n: nat, id: nat)
    requires JointRun(cfg, trace) && n < |trace| && id in Now(trace[n].mail).mails
    ensures var db, mails := trace[n].sys.db, Now(trace[n].mail).mails;
            && id < |db.outbox| && mails[id] == 1
            && var e := AnnouncedEntry(db.orders, db.outbox[id]);
               && e.Some? && e.value < |db.books.journal| && db.books.journal[e.value].kind in NOTIFYING
               && forall other :: other in mails && other < |db.outbox| && AnnouncedEntry(db.orders, db.outbox[other]) == e ==>
                    other == id
  {
    hide Sound, JointRun, IsRun, Interleaving.SysOk;
    JointSound(cfg, trace, n);
    Runs.SoundParts(cfg, trace[n].sys.db);
    EmailAnnouncesOneEntry(trace[n].mail, trace[n].sys.db, id);
  }

  /** No announced entry is forgotten: its row is there and, whatever crashed, can still be sent and marked. */
  lemma NoEntryForgotten(cfg: Config, trace: seq<Joint>, n: nat, e: nat) returns (id: nat, mail: Run)
    requires JointRun(cfg, trace) && n < |trace| && |Now(trace[n].mail).publishers| > 0
    requires e < |trace[n].sys.db.books.journal| && trace[n].sys.db.books.journal[e].kind in NOTIFYING
    ensures id < |trace[n].sys.db.outbox| && AnnouncedEntry(trace[n].sys.db.orders, trace[n].sys.db.outbox[id]) == Some(e)
    ensures IsRun(mail) && Earlier(trace[n].mail, mail)
    ensures id < |Now(mail).rows| && Now(mail).rows[id].published && id in Now(mail).sent
  {
    hide Sound, JointRun, IsRun, Interleaving.SysOk;
    JointSound(cfg, trace, n);
    Runs.SoundParts(cfg, trace[n].sys.db);
    OutboxBijection(trace[n].sys.db);
    id :| id < |trace[n].sys.db.outbox| && AnnouncedEntry(trace[n].sys.db.orders, trace[n].sys.db.outbox[id]) == Some(e);
    mail := Publishable(trace[n].mail, id);
  }
}
