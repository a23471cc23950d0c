/** `publishBatch` and `handleMessage` as the services write them; each is a run of the messaging machine. */
module Delivery {
  import opened Wrappers
  import opened Sums
  import opened Messaging

  const BATCH_SIZE: nat := 100

  /** How the send of one row, and then the commit of its mark, will end. */
  datatype Attempt = Attempt(send: Fate, mark: Fate)

  // ---------------------------------------------------------------- the batch

  function InsertByAge(rows: seq<OutboxRow>, ids: seq<nat>, id: nat): (r: seq<nat>)
    requires id < |rows| && forall k :: 0 <= k < |ids| ==> ids[k] < |rows|
    ensures multiset(r) == multiset(ids) + multiset{id}
    ensures forall k :: 0 <= k < |r| ==> r[k] < |rows|
  {
    if ids == [] then [id]
    else if rows[ids[|ids| - 1]].createdAt <= rows[id].createdAt then ids + [id]
    else
      var init := ids[..|ids| - 1];
      assert ids == init + [ids[|ids| - 1]];
      InsertByAge(rows, init, id) + [ids[|ids| - 1]]
  }

  /** The unpublished rows among the first `n`, oldest first. */
  function Unpublished(rows: seq<OutboxRow>, n: nat): (ids: seq<nat>)
    requires n <= |rows|
    ensures forall k :: 0 <= k < |ids| ==> ids[k] < |rows|
  {
    if n == 0 then []
    else if rows[n - 1].published then Unpublished(rows, n - 1)
    else InsertByAge(rows, Unpublished(rows, n - 1), n - 1)
  }

  /** The batch: the hundred oldest unpublished rows. */
  function Candidates(rows: seq<OutboxRow>): (ids: seq<nat>)
    ensures forall k :: 0 <= k < |ids| ==> ids[k] < |rows|
  {
    var all := Unpublished(rows, |rows|);
    if |all| <= BATCH_SIZE then all else all[..BATCH_SIZE]
  }

  predicate OldestFirst(rows: seq<OutboxRow>, ids: seq<nat>)
    requires forall k :: 0 <= k < |ids| ==> ids[k] < |rows|
  {
    forall i, k :: 0 <= i < k < |ids| ==> rows[ids[i]].createdAt <= rows[ids[k]].createdAt
  }

  lemma {:induction false} InsertKeepsOrder(rows: seq<OutboxRow>, ids: seq<nat>, id: nat)
    requires id < |rows| && forall k :: 0 <= k < |ids| ==> ids[k] < |rows|
    requires OldestFirst(rows, ids)
    ensures OldestFirst(rows, InsertByAge(rows, ids, id))
  {
    if ids != [] && rows[ids[|ids| - 1]].createdAt > rows[id].createdAt {
      var init, last := ids[..|ids| - 1], ids[|ids| - 1];
      InsertKeepsOrder(rows, init, id);
      var r := InsertByAge(rows, init, id);
      forall i | 0 <= i < |r| ensures rows[r[i]].createdAt <= rows[last].createdAt {
        assert r[i] in multiset(r);
        assert r[i] == id || r[i] in init;
      }
    }
  }

  lemma UnpublishedUnfolds(rows: seq<OutboxRow>, n: nat)
    requires n <= |rows|
    ensures n == 0 ==> Unpublished(rows, n) == []
    ensures n > 0 ==>
              Unpublished(rows, n) ==
              if rows[n - 1].published then Unpublished(rows, n - 1) else InsertByAge(rows, Unpublished(rows, n - 1), n - 1)
  {
    hide InsertByAge;
  }

  lemma {:induction false} UnpublishedOrdered(rows: seq<OutboxRow>, n: nat)
    requires n <= |rows|
    ensures OldestFirst(rows, Unpublished(rows, n))
  {
    hide InsertByAge, OldestFirst, Unpublished;
    UnpublishedUnfolds(rows, n);
    if n > 0 {
      UnpublishedOrdered(rows, n - 1);
      if !rows[n - 1].published {
        InsertKeepsOrder(rows, Unpublished(rows, n - 1), n - 1);
      }
    } else {
      NoneIsOrdered(rows);
    }
  }

  lemma NoneIsOrdered(rows: seq<OutboxRow>)
    ensures OldestFirst(rows, [])
  {
  }

  lemma {:induction false} UnpublishedOnce(rows: seq<OutboxRow>, n: nat, id: nat)
    requires n <= |rows|
    ensures multiset(Unpublished(rows, n))[id] == if id < n && !rows[id].published then 1 else 0
  {
    hide InsertByAge, Unpublished;
    UnpublishedUnfolds(rows, n);
    if n > 0 {
      UnpublishedOnce(rows, n - 1, id);
    }
  }

  lemma OccursOnce(ids: seq<nat>, i: nat, k: nat)
    requires i < k < |ids| && multiset(ids)[ids[i]] <= 1
    ensures ids[i] != ids[k]
  {
    assert ids == ids[..k] + ids[k..];
    assert ids[..k][i] == ids[i] && ids[k..][0] == ids[k];
    assert ids[i] in multiset(ids[..k]) && ids[k] in multiset(ids[k..]);
  }

  /** The candidates are distinct and unpublished, oldest first. */
  lemma CandidatesSound(rows: seq<OutboxRow>)
    ensures var ids := Candidates(rows);
            && (forall i, k :: 0 <= i < k < |ids| ==> ids[i] != ids[k])
            && (forall i :: 0 <= i < |ids| ==> !rows[ids[i]].published)
            && OldestFirst(rows, ids)
  {
    hide Unpublished;
    var all := Unpublished(rows, |rows|);
    UnpublishedOrdered(rows, |rows|);
    forall i, k | 0 <= i < k < |all| ensures all[i] != all[k] {
      UnpublishedOnce(rows, |rows|, all[i]);
      OccursOnce(all, i, k);
    }
    forall i | 0 <= i < |all| ensures !rows[all[i]].published {
      UnpublishedOnce(rows, |rows|, all[i]);
      assert all[i] in multiset(all);
    }
  }

  lemma InFront(ids: seq<nat>, k: nat, n: nat)
    requires k < |ids| && n <= |ids|
    ensures k < n ==> ids[k] in ids[..n]
  {
    assert k < n ==> ids[..n][k] == ids[k];
  }

  /** A row is left out of the batch only behind a hundred rows at least as old. */
  lemma LeftOutIsYounger(rows: seq<OutboxRow>, id: nat)
    requires id < |rows| && !rows[id].published && id !in Candidates(rows)
    ensures var ids := Candidates(rows);
            |ids| == 100 && forall i :: 0 <= i < |ids| ==> rows[ids[i]].createdAt <= rows[id].createdAt
  {
    hide Unpublished;
    var all := Unpublished(rows, |rows|);
    UnpublishedOnce(rows, |rows|, id);
    UnpublishedOrdered(rows, |rows|);
    assert id in multiset(all);
    var k :| 0 <= k < |all| && all[k] == id;
    InFront(all, k, |Candidates(rows)|);
  }

  // ---------------------------------------------------------------- what a batch does

  datatype BatchEffect = BatchEffect(rows: seq<OutboxRow>, sent: multiset<nat>, count: nat)

  /** One row: sent and marked, or left as it was for the next batch. */
  function AfterOne(rows: seq<OutboxRow>, sent: multiset<nat>, id: nat, a: Attempt): BatchEffect {
    if id >= |rows| || rows[id].published || a.send == FailsWithoutEffect then BatchEffect(rows, sent, 0)
    else if a.send == FailsAfterEffect || a.mark == FailsWithoutEffect then BatchEffect(rows, sent + multiset{id}, 0)
    else BatchEffect(rows[id := rows[id].(published := true)], sent + multiset{id}, if a.mark == Works then 1 else 0)
  }

  function AfterBatch(rows: seq<OutboxRow>, sent: multiset<nat>, ids: seq<nat>, fates: nat -> Attempt): BatchEffect {
    if ids == [] then BatchEffect(rows, sent, 0)
    else
      var id := ids[|ids| - 1];
      var before := AfterBatch(rows, sent, ids[..|ids| - 1], fates);
      var one := AfterOne(before.rows, before.sent, id, fates(id));
      one.(count := before.count + one.count)
  }

  lemma NoneYet(rows: seq<OutboxRow>, sent: multiset<nat>, fates: nat -> Attempt)
    ensures AfterBatch(rows, sent, [], fates) == BatchEffect(rows, sent, 0)
  {
  }

  lemma CountsOne(rows: seq<OutboxRow>, sent: multiset<nat>, id: nat, a: Attempt)
    ensures AfterOne(rows, sent, id, a).count <= 1
  {
  }

  lemma OneMore(rows: seq<OutboxRow>, sent: multiset<nat>, ids: seq<nat>, i: nat, fates: nat -> Attempt)
    requires i < |ids|
    ensures var before := AfterBatch(rows, sent, ids[..i], fates);
            var one := AfterOne(before.rows, before.sent, ids[i], fates(ids[i]));
            AfterBatch(rows, sent, ids[..i + 1], fates) == one.(count := before.count + one.count)
  {
    hide AfterOne;
    assert ids[..i + 1][..i] == ids[..i];
  }

  /** Whether a row's attempt reaches the broker, and whether it gets marked. */
  predicate Reaches(a: Attempt) { a.send != FailsWithoutEffect }
  predicate Marks(a: Attempt) { a.send == Works && a.mark != FailsWithoutEffect }

  /** What one attempt does to a row. */
  lemma OneRow(rows: seq<OutboxRow>, sent: multiset<nat>, one: nat, a: Attempt, id: nat)
    requires one < |rows| && !rows[one].published && id < |rows|
    ensures var r := AfterOne(rows, sent, one, a);
            && |r.rows| == |rows|
            && r.rows[id] == rows[id].(published := rows[id].published || (id == one && Marks(a)))
            && r.sent[id] == sent[id] + if id == one && Reaches(a) then 1 else 0
  {
  }

  /** Each row of a batch fares by its own attempt alone; a failing row stops no other. */
  lemma {:induction false} BatchRowByRow(rows: seq<OutboxRow>, sent: multiset<nat>, ids: seq<nat>, fates: nat -> Attempt, id: nat)
    requires id < |rows|
    requires forall i :: 0 <= i < |ids| ==> ids[i] < |rows| && !rows[ids[i]].published
    requires forall i, k :: 0 <= i < k < |ids| ==> ids[i] != ids[k]
    ensures var r := AfterBatch(rows, sent, ids, fates);
            && |r.rows| == |rows|
            && r.rows[id] == rows[id].(published := rows[id].published || (id in ids && Marks(fates(id))))
            && r.sent[id] == sent[id] + if id in ids && Reaches(fates(id)) then 1 else 0
  {
    hide AfterOne, Marks, Reaches;
    if ids != [] {
      var k := |ids| - 1;
      var before := AfterBatch(rows, sent, ids[..k], fates);
      BatchRowByRow(rows, sent, ids[..k], fates, id);
      BatchRowByRow(rows, sent, ids[..k], fates, ids[k]);
      assert id in ids <==> id in ids[..k] || id == ids[k];
      assert ids[k] !in ids[..k];
      OneRow(before.rows, before.sent, ids[k], fates(ids[k]), id);
    }
  }

  function Backlog(row: OutboxRow): nat { if row.published then 0 else 1 }

  lemma {:induction false} UnpublishedCounted(rows: seq<OutboxRow>, n: nat)
    requires n <= |rows|
    ensures |Unpublished(rows, n)| == Total(rows[..n], Backlog)
  {
    if n > 0 {
      UnpublishedCounted(rows, n - 1);
      assert rows[..n][..n - 1] == rows[..n - 1];
      assert |multiset(Unpublished(rows, n))| == |Unpublished(rows, n)|;
      assert |multiset(Unpublished(rows, n - 1))| == |Unpublished(rows, n - 1)|;
    }
  }

  /** The count returned never exceeds the rows newly marked, and is that number unless a commit loses its answer. */
  lemma {:induction false} CountedRows(rows: seq<OutboxRow>, sent: multiset<nat>, ids: seq<nat>, fates: nat -> Attempt)
    ensures var r := AfterBatch(rows, sent, ids, fates);
            && r.count + Total(r.rows, Backlog) <= Total(rows, Backlog)
            && ((forall i :: 0 <= i < |ids| ==> fates(ids[i]).mark != FailsAfterEffect) ==>
                  r.count + Total(r.rows, Backlog) == Total(rows, Backlog))
  {
    if ids != [] {
      var k := |ids| - 1;
      CountedRows(rows, sent, ids[..k], fates);
      var before := AfterBatch(rows, sent, ids[..k], fates);
      if ids[k] < |before.rows| {
        TotalUpdate(before.rows, Backlog, ids[k], before.rows[ids[k]].(published := true));
      }
    }
  }

  /** With broker and database working, a batch publishes a hundred rows or all there are. */
  lemma HealthyBatchDrains(rows: seq<OutboxRow>, sent: multiset<nat>, fates: nat -> Attempt)
    requires forall id: nat :: fates(id) == Attempt(Works, Works)
    ensures var r := AfterBatch(rows, sent, Candidates(rows), fates);
            && r.count == (if Total(rows, Backlog) < 100 then Total(rows, Backlog) else 100)
            && Total(r.rows, Backlog) == Total(rows, Backlog) - r.count
  {
    var ids := Candidates(rows);
    UnpublishedCounted(rows, |rows|);
    assert rows[..|rows|] == rows;
    CandidatesSound(rows);
    CountedRows(rows, sent, ids, fates);
    AllCounted(rows, sent, ids, fates);
  }

  lemma {:induction false} AllCounted(rows: seq<OutboxRow>, sent: multiset<nat>, ids: seq<nat>, fates: nat -> Attempt)
    requires forall id: nat :: fates(id) == Attempt(Works, Works)
    requires forall i :: 0 <= i < |ids| ==> ids[i] < |rows| && !rows[ids[i]].published
    requires forall i, k :: 0 <= i < k < |ids| ==> ids[i] != ids[k]
    ensures AfterBatch(rows, sent, ids, fates).count == |ids|
  {
    if ids != [] {
      var k := |ids| - 1;
      AllCounted(rows, sent, ids[..k], fates);
      BatchRowByRow(rows, sent, ids[..k], fates, ids[k]);
      assert ids[k] !in ids[..k];
    }
  }

  // ---------------------------------------------------------------- the publisher

  class OutboxPublisher {
    var rows: seq<OutboxRow>
    var sent: multiset<nat>

    constructor (rows: seq<OutboxRow>)
      ensures this.rows == rows && sent == multiset{}
    {
      this.rows := rows;
      sent := multiset{};
    }

    /** One transaction: an error or a lost answer shows as `Err`, as when it throws. */
    method PublishOne(id: nat, a: Attempt) returns (published: Result<bool, ()>)
      modifies this
      ensures var r := AfterOne(old(rows), old(sent), id, a);
              rows == r.rows && sent == r.sent && (r.count == 1 <==> published == Ok(true))
    {
      if id >= |rows| || rows[id].published {
        return Ok(false);
      }
      if a.send != FailsWithoutEffect {
        sent := sent + multiset{id};
      }
      if a.send != Works {
        return Err(());
      }
      if a.mark != FailsWithoutEffect {
        rows := rows[id := rows[id].(published := true)];
      }
      return if a.mark == Works then Ok(true) else Err(());
    }

    /** `publishBatch`; `fates` says how each row's attempt will end. */
    method PublishBatch(fates: nat -> Attempt) returns (publishedCount: nat)
      modifies this
      ensures AfterBatch(old(rows), old(sent), Candidates(old(rows)), fates) == BatchEffect(rows, sent, publishedCount)
    {
      var candidates := Candidates(rows);
      publishedCount := 0;
      hide AfterBatch, AfterOne, Candidates;
      NoneYet(rows, sent, fates);
      for i := 0 to |candidates|
        invariant AfterBatch(old(rows), old(sent), candidates[..i], fates) == BatchEffect(rows, sent, publishedCount)
      {
        ghost var before := BatchEffect(rows, sent, publishedCount);
        var published := PublishOne(candidates[i], fates(candidates[i]));
        if published == Ok(true) {
          publishedCount := publishedCount + 1;
        }
        CountsOne(before.rows, before.sent, candidates[i], fates(candidates[i]));
        OneMore(old(rows), old(sent), candidates, i, fates);
      }
      assert candidates[..|candidates|] == candidates;
    }
  }

  /** One row's attempt, made by the only publisher, is a run of the machine. */
  lemma OneIsRun(h: Run, id: nat, a: Attempt) returns (h': Run)
    requires IsRun(h) && Now(h).publishers == [Resting] && id < |Now(h).rows| && !Now(h).rows[id].published
    ensures var r := AfterOne(Now(h).rows, Now(h).sent, id, a);
            && IsRun(h') && Earlier(h, h')
            && Now(h') == Now(h).(rows := r.rows, sent := r.sent)
  {
    hide IsRun, ConsumerStep;
    var taken := TakeRow(h, id);
    h' := Do(taken, Send(0, a.send));
    EarlierTransitive(h, taken, h');
    if a.send == Works {
      var marked := Do(h', Mark(0, a.mark));
      EarlierTransitive(h, h', marked);
      h' := marked;
    }
  }

  /** So is a whole batch. */
  lemma {:induction false} BatchIsRun(h: Run, ids: seq<nat>, fates: nat -> Attempt) returns (h': Run)
    requires IsRun(h) && Now(h).publishers == [Resting]
    requires forall i :: 0 <= i < |ids| ==> ids[i] < |Now(h).rows| && !Now(h).rows[ids[i]].published
    requires forall i, k :: 0 <= i < k < |ids| ==> ids[i] != ids[k]
    ensures var r := AfterBatch(Now(h).rows, Now(h).sent, ids, fates);
            && IsRun(h') && Earlier(h, h')
            && Now(h') == Now(h).(rows := r.rows, sent := r.sent)
  {
    hide IsRun;
    if ids == [] {
      h' := h;
    } else {
      var k := |ids| - 1;
      var before := BatchIsRun(h, ids[..k], fates);
      BatchRowByRow(Now(h).rows, Now(h).sent, ids[..k], fates, ids[k]);
      assert ids[k] !in ids[..k];
      h' := OneIsRun(before, ids[k], fates(ids[k]));
      EarlierTransitive(h, before, h');
    }
  }

  // ---------------------------------------------------------------- the consumer

  /** The consumer's message: unparseable, or an event id and what its email needs. */
  datatype Message = Garbage | EventMessage(id: nat, template: bool, recipient: Option<string>)

  datatype Handled = Handled(processed: set<nat>, mails: multiset<nat>)

  predicate Sendable(m: Message) {
    m.EventMessage? && m.template && m.recipient.Some? && m.recipient.value != ""
  }

  /** What the consumer's tables and the mail server hold after a message. */
  function AfterMessage(processed: set<nat>, mails: multiset<nat>, m: Message, claim: Fate, mail: Fate): Handled {
    if m.Garbage? || claim == FailsWithoutEffect then Handled(processed, mails)
    else if claim == Works && m.id !in processed && Sendable(m) && mail != FailsWithoutEffect
    then Handled(processed + {m.id}, mails + multiset{m.id})
    else Handled(processed + {m.id}, mails)
  }

  class NotificationsConsumer {
    var processed: set<nat>
    var mails: multiset<nat>

    constructor ()
      ensures processed == {} && mails == multiset{}
    {
      processed := {};
      mails := multiset{};
    }

    method ClaimEvent(id: nat, fate: Fate) returns (claimed: Result<bool, ()>)
      modifies this`processed
      ensures processed == if fate == FailsWithoutEffect then old(processed) else old(processed) + {id}
      ensures claimed == if fate == Works then Ok(id !in old(processed)) else Err(())
    {
      var inserted := id !in processed;
      if fate != FailsWithoutEffect {
        processed := processed + {id};
      }
      return if fate == Works then Ok(inserted) else Err(());
    }

    /** `handleMessage`; `threw` is what the broker sees and redelivers on. */
    method HandleMessage(m: Message, claim: Fate, mail: Fate) returns (threw: bool)
      modifies this
      ensures AfterMessage(old(processed), old(mails), m, claim, mail) == Handled(processed, mails)
      ensures threw <==> m.EventMessage? &&
                         (claim != Works || (m.id !in old(processed) && Sendable(m) && mail != Works))
    {
      match m {
        case Garbage => return false;
        case EventMessage(id, template, recipient) =>
          var claimed := ClaimEvent(id, claim);
          if claimed != Ok(true) {
            return claimed.Err?;
          }
          if !template || recipient.None? || recipient.value == "" {
            return false;
          }
          if mail != FailsWithoutEffect {
            mails := mails + multiset{id};
          }
          return mail != Works;
      }
    }
  }

  /** Handling a delivered message is a run of the machine. */
  lemma HandlingIsRun(h: Run, id: nat, claim: Fate, mail: Fate) returns (h': Run)
    requires IsRun(h) && Now(h).consumers == [Messaging.Waiting] && id in Now(h).sent && id < |Now(h).rows|
    ensures var message := EventMessage(id, true, Now(h).rows[id].recipient);
            var r := AfterMessage(Now(h).processed, Now(h).mails, message, claim, mail);
            && IsRun(h') && Earlier(h, h')
            && Now(h') == Now(h).(processed := r.processed, mails := r.mails)
  {
    hide IsRun, PublisherStep;
    var delivered := Do(h, Deliver(0, id));
    h' := Do(delivered, Messaging.Claim(0, claim));
    EarlierTransitive(h, delivered, h');
    if Now(h').consumers[0].Claimed? {
      var mailed := Do(h', Messaging.Mail(0, mail));
      EarlierTransitive(h, h', mailed);
      h' := mailed;
    }
  }
}
