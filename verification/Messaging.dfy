/**
 From outbox row to email: publishers that lock a row, send it and mark it, a broker that may deliver any
 message it has any number of times, and consumers that claim an event before mailing it.  Each call may
 work, fail, or take effect and still report failure, and everybody may crash between two calls.
 */
module Messaging {
  import opened Wrappers
  import opened Sums
  import opened System
  import opened Invariant
  import opened Outcomes

  /** A committed `outbox_events` row; its position is its id. */
  datatype OutboxRow = OutboxRow(event: Event, recipient: Option<string>, createdAt: int, published: bool)

  /** `publishOne`: about to lock a candidate, holding its lock unpublished, told that it was sent. */
  datatype Publisher = Resting | Chosen(id: nat) | Holding(id: nat) | Acknowledged(id: nat)

  /** `handleMessage`: handed a message, or having claimed its event. */
  datatype Consumer = Waiting | Delivered(id: nat) | Claimed(id: nat)

  /** `sent` are the messages the broker has, `mails` the emails handed to the mail server. */
  datatype World = World(
    rows: seq<OutboxRow>,
    sent: multiset<nat>,
    processed: set<nat>,
    mails: multiset<nat>,
    publishers: seq<Publisher>,
    consumers: seq<Consumer>)

  datatype Move =
    | Append(row: OutboxRow)       // a domain transaction commits, and its row with it
    | Pick(i: nat, id: nat)        // an unpublished candidate of the batch
    | Lock(i: nat)
    | Send(i: nat, fate: Fate)
    | Mark(i: nat, fate: Fate)     // set published_at and commit
    | PublisherDies(i: nat)
    | Deliver(j: nat, id: nat)
    | Claim(j: nat, fate: Fate)
    | Mail(j: nat, fate: Fate)
    | ConsumerDies(j: nat)

  /** Every event type has a template, so an email goes out when there is a recipient. */
  predicate Mailable(row: OutboxRow) {
    row.recipient.Some? && row.recipient.value != ""
  }

  predicate HoldsRow(p: Publisher, id: nat) {
    (p.Holding? || p.Acknowledged?) && p.id == id
  }

  predicate RowLocked(publishers: seq<Publisher>, id: nat) {
    exists k :: 0 <= k < |publishers| && HoldsRow(publishers[k], id)
  }

  // ---------------------------------------------------------------- steps

  predicate ByPublisher(m: Move) {
    m.Pick? || m.Lock? || m.Send? || m.Mark? || m.PublisherDies?
  }

  predicate ByConsumer(m: Move) {
    m.Deliver? || m.Claim? || m.Mail? || m.ConsumerDies?
  }

  function PublisherStep(w: World, m: Move): Option<World>
    requires ByPublisher(m)
  {
    if m.i >= |w.publishers| then None
    else
      var p := w.publishers[m.i];
      match m
      case Pick(i, id) =>
        if p.Resting? && id < |w.rows| && !w.rows[id].published then Some(w.(publishers := w.publishers[i := Chosen(id)]))
        else None
      case Lock(i) =>
        if !p.Chosen? || p.id >= |w.rows| || RowLocked(w.publishers, p.id) then None
        else if w.rows[p.id].published then Some(w.(publishers := w.publishers[i := Resting]))
        else Some(w.(publishers := w.publishers[i := Holding(p.id)]))
      case Send(i, fate) =>
        if !p.Holding? then None
        else Some(w.(sent := if fate == FailsWithoutEffect then w.sent else w.sent + multiset{p.id},
                     publishers := w.publishers[i := if fate == Works then Acknowledged(p.id) else Resting]))
      case Mark(i, fate) =>
        if !p.Acknowledged? || p.id >= |w.rows| then None
        else Some(w.(rows := if fate == FailsWithoutEffect then w.rows else w.rows[p.id := w.rows[p.id].(published := true)],
                     publishers := w.publishers[i := Resting]))
      case PublisherDies(i) => Some(w.(publishers := w.publishers[i := Resting]))
  }

  function ConsumerStep(w: World, m: Move): Option<World>
    requires ByConsumer(m)
  {
    if m.j >= |w.consumers| then None
    else
      var c := w.consumers[m.j];
      match m
      case Deliver(j, id) =>
        if c.Waiting? && id in w.sent then Some(w.(consumers := w.consumers[j := Delivered(id)])) else None
      case Claim(j, fate) =>
        if !c.Delivered? then None
        else
          Some(w.(processed := if fate == FailsWithoutEffect then w.processed else w.processed + {c.id},
                  consumers := w.consumers[j := if fate == Works && c.id !in w.processed then Claimed(c.id) else Waiting]))
      case Mail(j, fate) =>
        if !c.Claimed? || c.id >= |w.rows| then None
        else
          Some(w.(mails := if fate == FailsWithoutEffect || !Mailable(w.rows[c.id]) then w.mails else w.mails + multiset{c.id},
                  consumers := w.consumers[j := Waiting]))
      case ConsumerDies(j) => Some(w.(consumers := w.consumers[j := Waiting]))
  }

  function Step(w: World, m: Move): Option<World> {
    if ByPublisher(m) then PublisherStep(w, m)
    else if ByConsumer(m) then ConsumerStep(w, m)
    else if m.row.published then None
    else Some(w.(rows := w.rows + [m.row]))
  }

  // ---------------------------------------------------------------- runs

  datatype Run = Begun(start: World) | Then(before: Run, move: Move, after: World)

  function Now(h: Run): World {
    match h
    case Begun(w) => w
    case Then(_, _, w) => w
  }

  /** No message yet; rows may be waiting to be published. */
  predicate Fresh(w: World) {
    && w.sent == multiset{} && w.processed == {} && w.mails == multiset{}
    && (forall id :: 0 <= id < |w.rows| ==> !w.rows[id].published)
    && (forall i :: 0 <= i < |w.publishers| ==> w.publishers[i] == Resting)
    && (forall j :: 0 <= j < |w.consumers| ==> w.consumers[j] == Waiting)
  }

  predicate IsRun(h: Run) {
    match h
    case Begun(w) => Fresh(w)
    case Then(before, m, w) => IsRun(before) && Step(Now(before), m) == Some(w)
  }

  predicate Earlier(h: Run, h': Run) {
    h == h' || (h'.Then? && Earlier(h, h'.before))
  }

  // ---------------------------------------------------------------- publishing

  /** Every message belongs to a committed row, and every row marked published was sent. */
  predicate SentOk(w: World) {
    && (forall id :: id in w.sent ==> id < |w.rows|)
    && (forall id :: 0 <= id < |w.rows| && w.rows[id].published ==> id in w.sent)
  }

  predicate PublisherOk(w: World, p: Publisher) {
    match p
    case Resting => true
    case Chosen(id) => id < |w.rows|
    case Holding(id) => id < |w.rows| && !w.rows[id].published
    case Acknowledged(id) => id < |w.rows| && !w.rows[id].published && id in w.sent
  }

  /** A row is in the hands of one publisher at most. */
  ghost predicate OneHolder(publishers: seq<Publisher>) {
    forall i, k, id |
      0 <= i < |publishers| && 0 <= k < |publishers| && HoldsRow(publishers[i], id) && HoldsRow(publishers[k], id) ::
      i == k
  }

  ghost predicate PublishersOk(w: World) {
    && OneHolder(w.publishers)
    && forall i :: 0 <= i < |w.publishers| ==> PublisherOk(w, w.publishers[i])
  }

  /** The lock goes to nobody else while it is held. */
  lemma HoldersStep(w: World, m: Move, w': World)
    requires OneHolder(w.publishers) && ByPublisher(m) && PublisherStep(w, m) == Some(w')
    ensures OneHolder(w'.publishers)
  {
    forall i, k, id |
      0 <= i < |w'.publishers| && 0 <= k < |w'.publishers| && HoldsRow(w'.publishers[i], id) && HoldsRow(w'.publishers[k], id)
      ensures i == k
    {
      assert i != m.i ==> HoldsRow(w.publishers[i], id);
      assert k != m.i ==> HoldsRow(w.publishers[k], id);
    }
  }

  lemma OtherPublisherOk(w: World, m: Move, w': World, k: nat)
    requires OneHolder(w.publishers) && ByPublisher(m) && PublisherStep(w, m) == Some(w')
    requires k < |w.publishers| && k != m.i && PublisherOk(w, w.publishers[k])
    ensures PublisherOk(w', w'.publishers[k])
  {
    hide OneHolder;
    if m.Mark? {
      MarkedIsNotHeld(w, m.i, k);
    }
  }

  lemma MarkedIsNotHeld(w: World, i: nat, k: nat)
    requires OneHolder(w.publishers) && i < |w.publishers| && k < |w.publishers| && i != k
    requires w.publishers[i].Acknowledged?
    ensures !HoldsRow(w.publishers[k], w.publishers[i].id)
  {
    assert HoldsRow(w.publishers[i], w.publishers[i].id);
  }

  lemma OwnPublisherOk(w: World, m: Move, w': World)
    requires SentOk(w) && ByPublisher(m) && PublisherStep(w, m) == Some(w')
    requires PublisherOk(w, w.publishers[m.i])
    ensures PublisherOk(w', w'.publishers[m.i]) && SentOk(w')
  {
  }

  lemma PublishingStep(w: World, m: Move, w': World)
    requires SentOk(w) && PublishersOk(w) && ByPublisher(m) && PublisherStep(w, m) == Some(w')
    ensures SentOk(w') && PublishersOk(w')
  {
    hide OneHolder, PublisherOk, SentOk;
    assert |w'.publishers| == |w.publishers|;
    HoldersStep(w, m, w');
    OwnPublisherOk(w, m, w');
    forall k | 0 <= k < |w'.publishers| ensures PublisherOk(w', w'.publishers[k]) {
      if k != m.i {
        OtherPublisherOk(w, m, w', k);
      }
    }
  }

  lemma ConsumersPublishNothing(w: World, m: Move, w': World)
    requires ByConsumer(m)
    requires ConsumerStep(w, m) == Some(w')
    ensures w'.rows == w.rows && w'.sent == w.sent && w'.publishers == w.publishers
  {
  }

  /** In every run: no phantom message, no row marked published unsent, no row held twice. */
  lemma {:induction false} PublishingSound(h: Run)
    requires IsRun(h)
    ensures SentOk(Now(h)) && PublishersOk(Now(h))
  {
    if h.Then? {
      PublishingSound(h.before);
      var m := h.move;
      if ByPublisher(m) {
        PublishingStep(Now(h.before), m, h.after);
      } else if !m.Append? {
        ConsumersPublishNothing(Now(h.before), m, h.after);
        SamePublishing(Now(h.before), h.after);
      } else {
        AppendedPublishing(Now(h.before), m.row, h.after);
      }
    }
  }

  lemma SamePublishing(w: World, w': World)
    requires SentOk(w) && PublishersOk(w) && w'.rows == w.rows && w'.sent == w.sent && w'.publishers == w.publishers
    ensures SentOk(w') && PublishersOk(w')
  {
    forall i | 0 <= i < |w'.publishers| ensures PublisherOk(w', w'.publishers[i]) {
      assert PublisherOk(w, w.publishers[i]);
    }
  }

  lemma AppendedPublishing(w: World, row: OutboxRow, w': World)
    requires SentOk(w) && PublishersOk(w) && !row.published && w' == w.(rows := w.rows + [row])
    ensures SentOk(w') && PublishersOk(w')
  {
    forall i | 0 <= i < |w'.publishers| ensures PublisherOk(w', w'.publishers[i]) {
      assert PublisherOk(w, w.publishers[i]);
    }
  }

  /** Rows are never dropped or altered, published only once and only for good; messages stay. */
  predicate Onward(w: World, w': World) {
    && |w.rows| <= |w'.rows|
    && (forall id :: 0 <= id < |w.rows| ==> w'.rows[id].(published := w.rows[id].published) == w.rows[id])
    && (forall id :: 0 <= id < |w.rows| && w.rows[id].published ==> w'.rows[id].published)
    && w.sent <= w'.sent && w.processed <= w'.processed && w.mails <= w'.mails
    && |w'.publishers| == |w.publishers| && |w'.consumers| == |w.consumers|
  }

  lemma StepOnward(w: World, m: Move, w': World)
    requires Step(w, m) == Some(w')
    ensures Onward(w, w')
  {
  }

  lemma {:induction false} NothingDropped(h: Run, h': Run)
    requires IsRun(h') && Earlier(h, h')
    ensures IsRun(h) && Onward(Now(h), Now(h'))
  {
    if h != h' {
      hide Step;
      NothingDropped(h, h'.before);
      StepOnward(Now(h'.before), h'.move, h'.after);
    }
  }

  // ---------------------------------------------------------------- claiming and mailing

  predicate MailsOk(w: World) {
    && (forall id :: id in w.processed ==> id in w.sent)
    && (forall id :: id in w.mails ==> id < |w.rows| && Mailable(w.rows[id]))
    && (forall j :: 0 <= j < |w.consumers| && !w.consumers[j].Waiting? ==> w.consumers[j].id in w.sent)
  }

  lemma {:induction false} MailingSound(h: Run)
    requires IsRun(h)
    ensures MailsOk(Now(h))
  {
    if h.Then? {
      hide Step, Onward, MailsOk, SentOk, PublishersOk;
      MailingSound(h.before);
      PublishingSound(h.before);
      MailingStep(Now(h.before), h.move, h.after);
    } else {
      NoMailYet(h);
    }
  }

  lemma NoMailYet(h: Run)
    requires IsRun(h) && h.Begun?
    ensures MailsOk(Now(h))
  {
  }

  lemma MailingStep(w: World, m: Move, w': World)
    requires Step(w, m) == Some(w') && MailsOk(w) && SentOk(w)
    ensures MailsOk(w')
  {
    StepOnward(w, m, w');
    if !ByConsumer(m) {
      assert w'.mails == w.mails && w'.processed == w.processed && w'.consumers == w.consumers;
    } else {
      MailingByConsumer(w, m, w');
    }
  }

  lemma MailingByConsumer(w: World, m: Move, w': World)
    requires ByConsumer(m)
    requires ConsumerStep(w, m) == Some(w') && MailsOk(w) && SentOk(w)
    ensures MailsOk(w')
  {
    assert w'.consumers == w.consumers[m.j := w'.consumers[m.j]];
  }

  /** One for a consumer that has claimed this event and not yet mailed it. */
  function InFlight(id: nat): Consumer -> nat {
    (c: Consumer) => if c == Claimed(id) then 1 else 0
  }

  /** A move that gives up a claim on the event without an email. */
  predicate Loses(w: World, m: Move, id: nat) {
    match m
    case Claim(j, FailsAfterEffect) => j < |w.consumers| && w.consumers[j] == Delivered(id) && id !in w.processed
    case Mail(j, fate) =>
      && j < |w.consumers| && w.consumers[j] == Claimed(id) && id < |w.rows|
      && (fate == FailsWithoutEffect || !Mailable(w.rows[id]))
    case ConsumerDies(j) => j < |w.consumers| && w.consumers[j] == Claimed(id)
    case _ => false
  }

  function Losses(h: Run, id: nat): nat {
    match h
    case Begun(_) => 0
    case Then(before, m, _) => Losses(before, id) + if Loses(Now(before), m, id) then 1 else 0
  }

  lemma AccountStep(w: World, m: Move, w': World, id: nat)
    requires Step(w, m) == Some(w')
    ensures w'.mails[id] + Total(w'.consumers, InFlight(id)) + (if Loses(w, m, id) then 1 else 0)
            + (if id in w.processed then 1 else 0)
            == w.mails[id] + Total(w.consumers, InFlight(id)) + if id in w'.processed then 1 else 0
  {
    hide Total;
    if ByConsumer(m) {
      assert w'.consumers == w.consumers[m.j := w'.consumers[m.j]];
      TotalUpdate(w.consumers, InFlight(id), m.j, w'.consumers[m.j]);
      AccountByConsumer(w, m, w', id);
    } else {
      assert w'.consumers == w.consumers;
    }
  }

  lemma AccountByConsumer(w: World, m: Move, w': World, id: nat)
    requires ByConsumer(m)
    requires ConsumerStep(w, m) == Some(w')
    ensures m.j < |w.consumers| == |w'.consumers|
    ensures w'.mails[id] + InFlight(id)(w'.consumers[m.j]) + (if Loses(w, m, id) then 1 else 0)
            + (if id in w.processed then 1 else 0)
            == w.mails[id] + InFlight(id)(w.consumers[m.j]) + if id in w'.processed then 1 else 0
  {
  }

  /** Every claim of an event is one email, one consumer about to mail, or one loss; never two of them. */
  lemma {:induction false} ClaimsAccounted(h: Run, id: nat)
    requires IsRun(h)
    ensures Now(h).mails[id] + Total(Now(h).consumers, InFlight(id)) + Losses(h, id) ==
            if id in Now(h).processed then 1 else 0
  {
    hide Step, Loses, InFlight;
    match h
    case Begun(w) =>
      NobodyInFlight(w, id);
      TotalEven(w.consumers, InFlight(id), 0);
    case Then(before, m, w) =>
      ClaimsAccounted(before, id);
      AccountStep(Now(before), m, w, id);
  }

  lemma NobodyInFlight(w: World, id: nat)
    requires Fresh(w)
    ensures forall j :: 0 <= j < |w.consumers| ==> InFlight(id)(w.consumers[j]) == 0
  {
  }

  /** At most one email per event, and only for a committed row with a recipient that was sent. */
  lemma AtMostOneEmail(h: Run, id: nat)
    requires IsRun(h)
    ensures Now(h).mails[id] <= 1
    ensures Now(h).mails[id] > 0 ==>
              id < |Now(h).rows| && Mailable(Now(h).rows[id]) && id in Now(h).sent && id in Now(h).processed
  {
    hide Losses, IsRun, Total;
    ClaimsAccounted(h, id);
    MailingSound(h);
    assert Now(h).mails[id] > 0 ==> id in Now(h).mails;
  }

  /** Once nobody is mailing an event, it had its one email exactly when it was claimed and no claim was lost. */
  lemma ExactlyOneIff(h: Run, id: nat)
    requires IsRun(h) && forall j :: 0 <= j < |Now(h).consumers| ==> Now(h).consumers[j] != Claimed(id)
    ensures Now(h).mails[id] == 1 <==> id in Now(h).processed && Losses(h, id) == 0
  {
    hide Losses, IsRun;
    ClaimsAccounted(h, id);
    TotalEven(Now(h).consumers, InFlight(id), 0);
  }

  // ---------------------------------------------------------------- what can still happen

  /** One more move of a run. */
  function Do(h: Run, m: Move): (h': Run)
    requires IsRun(h) && Step(Now(h), m).Some?
    ensures IsRun(h') && Earlier(h, h') && Now(h') == Step(Now(h), m).value
  {
    Then(h, m, Step(Now(h), m).value)
  }

  lemma {:induction false} EarlierTransitive(h: Run, h1: Run, h2: Run)
    requires Earlier(h, h1) && Earlier(h1, h2)
    ensures Earlier(h, h2)
  {
    if h1 != h2 {
      EarlierTransitive(h, h1, h2.before);
    }
  }

  /** Only publishers have moved. */
  predicate MailSideSame(w: World, w': World) {
    && w'.processed == w.processed && w'.mails == w.mails && w'.consumers == w.consumers
    && |w'.publishers| == |w.publishers| && |w'.rows| == |w.rows|
  }

  /** A publisher that holds a row can die, which frees the row. */
  lemma FreeRow(h: Run, id: nat) returns (h': Run)
    requires IsRun(h)
    ensures IsRun(h') && Earlier(h, h') && !RowLocked(Now(h').publishers, id)
    ensures MailSideSame(Now(h), Now(h')) && Now(h').rows == Now(h).rows
  {
    hide ConsumerStep;
    h' := h;
    if RowLocked(Now(h).publishers, id) {
      var k :| 0 <= k < |Now(h).publishers| && HoldsRow(Now(h).publishers[k], id);
      PublishingSound(h);
      h' := Do(h, PublisherDies(k));
    }
  }

  /** The first publisher, restarted, takes an unlocked unpublished row. */
  lemma TakeRow(h: Run, id: nat) returns (h': Run)
    requires IsRun(h) && |Now(h).publishers| > 0 && id < |Now(h).rows| && !Now(h).rows[id].published
    requires !RowLocked(Now(h).publishers, id)
    ensures IsRun(h') && Earlier(h, h') && Now(h') == Now(h).(publishers := Now(h).publishers[0 := Holding(id)])
  {
    hide IsRun, ConsumerStep;
    var h1 := Do(h, PublisherDies(0));
    var h2 := Do(h1, Pick(0, id));
    assert !RowLocked(Now(h2).publishers, id);
    h' := Do(h2, Lock(0));
    assert Now(h').publishers == Now(h).publishers[0 := Holding(id)];
    EarlierTransitive(h, h1, h2);
    EarlierTransitive(h, h2, h');
  }

  /** An unlocked unpublished row is published by the next publisher whose calls work. */
  lemma PublishFree(h: Run, id: nat) returns (h': Run)
    requires IsRun(h) && |Now(h).publishers| > 0 && id < |Now(h).rows| && !Now(h).rows[id].published
    requires !RowLocked(Now(h).publishers, id)
    ensures IsRun(h') && Earlier(h, h') && MailSideSame(Now(h), Now(h')) && Now(h').rows[id].published
  {
    hide IsRun, ConsumerStep, RowLocked;
    var h1 := TakeRow(h, id);
    var h2 := Do(h1, Send(0, Works));
    h' := Do(h2, Mark(0, Works));
    EarlierTransitive(h, h1, h2);
    EarlierTransitive(h, h2, h');
  }

  /** However the run went so far, every committed row can still get published. */
  lemma Publishable(h: Run, id: nat) returns (h': Run)
    requires IsRun(h) && |Now(h).publishers| > 0 && id < |Now(h).rows|
    ensures IsRun(h') && Earlier(h, h') && MailSideSame(Now(h), Now(h'))
    ensures Now(h').rows[id].published && id in Now(h').sent
  {
    hide Step, PublishersOk;
    if Now(h).rows[id].published {
      h' := h;
    } else {
      var free := FreeRow(h, id);
      h' := PublishFree(free, id);
      EarlierTransitive(h, free, h');
    }
    PublishingSound(h');
  }

  /** The first consumer, restarted, is handed the message (again) and tries to claim it. */
  lemma TakeMessage(h: Run, id: nat) returns (h': Run)
    requires IsRun(h) && |Now(h).consumers| > 0 && id in Now(h).sent
    ensures IsRun(h') && Earlier(h, h')
    ensures var c := if id in Now(h).processed then Waiting else Claimed(id);
            Now(h') == Now(h).(processed := Now(h).processed + {id}, consumers := Now(h).consumers[0 := c])
  {
    hide IsRun, PublisherStep;
    var h1 := Do(h, ConsumerDies(0));
    var h2 := Do(h1, Deliver(0, id));
    h' := Do(h2, Claim(0, Works));
    assert Now(h').consumers == Now(h).consumers[0 := Now(h').consumers[0]];
    EarlierTransitive(h, h1, h2);
    EarlierTransitive(h, h2, h');
  }

  lemma MailUnclaimed(h: Run, id: nat) returns (h': Run)
    requires IsRun(h) && |Now(h).consumers| > 0 && id < |Now(h).rows| && Mailable(Now(h).rows[id])
    requires id in Now(h).sent && id !in Now(h).processed
    ensures IsRun(h') && Earlier(h, h') && Now(h').mails[id] == Now(h).mails[id] + 1
  {
    hide IsRun, PublisherStep;
    var h1 := TakeMessage(h, id);
    h' := Do(h1, Mail(0, Works));
    EarlierTransitive(h, h1, h');
  }

  /** The event's email may still be sent. */
  predicate Open(w: World, id: nat)
    requires id < |w.rows|
  {
    Mailable(w.rows[id]) && (id !in w.processed || exists j :: 0 <= j < |w.consumers| && w.consumers[j] == Claimed(id))
  }

  lemma StillMailed(h: Run, id: nat) returns (h': Run)
    requires IsRun(h) && |Now(h).publishers| > 0 && |Now(h).consumers| > 0
    requires id < |Now(h).rows| && Open(Now(h), id)
    ensures IsRun(h') && Earlier(h, h') && Now(h').mails[id] == Now(h).mails[id] + 1
  {
    if id in Now(h).processed {
      var j :| 0 <= j < |Now(h).consumers| && Now(h).consumers[j] == Claimed(id);
      h' := Do(h, Mail(j, Works));
    } else {
      var published := Publishable(h, id);
      NothingDropped(h, published);
      h' := MailUnclaimed(published, id);
      EarlierTransitive(h, published, h');
    }
  }

  lemma {:induction false} LossesGrow(h: Run, h': Run, id: nat)
    requires Earlier(h, h')
    ensures Losses(h, id) <= Losses(h', id)
  {
    if h != h' {
      LossesGrow(h, h'.before, id);
    }
  }

  lemma NoMoreMail(h: Run, h': Run, id: nat)
    requires IsRun(h') && Earlier(h, h') && id < |Now(h).rows| && !Open(Now(h), id)
    ensures Now(h').mails[id] == Now(h).mails[id]
  {
    hide Losses, IsRun, Total;
    NothingDropped(h, h');
    AtMostOneEmail(h', id);
    AtMostOneEmail(h, id);
    if Mailable(Now(h).rows[id]) {
      ClaimsAccounted(h, id);
      ClaimsAccounted(h', id);
      LossesGrow(h, h', id);
      TotalEven(Now(h).consumers, InFlight(id), 0);
    }
  }

  /**
   Exactly when an event's email can still be sent, whatever publishers and consumers do: it has a
   recipient, and nobody has claimed it or the consumer that did is still at it.
   */
  lemma MailStillComesIff(h: Run, id: nat)
    requires IsRun(h) && |Now(h).publishers| > 0 && |Now(h).consumers| > 0 && id < |Now(h).rows|
    ensures (exists h' :: IsRun(h') && Earlier(h, h') && Now(h').mails[id] > Now(h).mails[id]) <==> Open(Now(h), id)
  {
    hide IsRun, Open;
    if Open(Now(h), id) {
      var h' := StillMailed(h, id);
      assert Now(h').mails[id] > Now(h).mails[id];
    } else {
      forall h' | IsRun(h') && Earlier(h, h') ensures Now(h').mails[id] == Now(h).mails[id] {
        NoMoreMail(h, h', id);
      }
    }
  }

  /** "Exactly one email" fails: a claim whose email fails is never mailed, though the message comes again. */
  lemma EmailLost(event: Event, recipient: string) returns (h: Run)
    requires recipient != ""
    ensures IsRun(h) && Now(h).rows == [OutboxRow(event, Some(recipient), 0, true)] && Mailable(Now(h).rows[0])
    ensures Now(h).sent[0] == 1 && forall h' :: IsRun(h') && Earlier(h, h') ==> Now(h').mails[0] == 0
  {
    var w := World([OutboxRow(event, Some(recipient), 0, false)], multiset{}, {}, multiset{}, [Resting], [Waiting]);
    var published := PublishedOnce(w);
    h := ClaimedInVain(published, 0);
  }

  lemma PublishedOnce(w: World) returns (h: Run)
    requires Fresh(w) && |w.rows| == 1 && w.publishers == [Resting]
    ensures IsRun(h) && Now(h) == w.(rows := [w.rows[0].(published := true)], sent := multiset{0})
  {
    hide ConsumerStep;
    var taken := TakeRow(Begun(w), 0);
    var sent := Do(taken, Send(0, Works));
    h := Do(sent, Mark(0, Works));
    assert Now(h).publishers == w.publishers;
  }

  /** A message claimed, its mail failed, and the message delivered once more. */
  lemma ClaimedInVain(h: Run, id: nat) returns (h': Run)
    requires IsRun(h) && |Now(h).consumers| == 1 && id < |Now(h).rows|
    requires id in Now(h).sent && id !in Now(h).processed
    ensures IsRun(h') && Now(h').rows == Now(h).rows && Now(h').sent == Now(h).sent
    ensures forall h2 :: IsRun(h2) && Earlier(h', h2) ==> Now(h2).mails[id] == Now(h).mails[id]
  {
    hide IsRun, PublisherStep;
    var claimed := TakeMessage(h, id);
    var failed := Do(claimed, Mail(0, FailsWithoutEffect));
    h' := TakeMessage(failed, id);
    forall h2 | IsRun(h2) && Earlier(h', h2) ensures Now(h2).mails[id] == Now(h).mails[id] {
      NoMoreMail(h', h2, id);
    }
  }

  // ---------------------------------------------------------------- back to the ledger

  /** The outbox the publishers read is the one the ledger's transactions write. */
  predicate SameOutbox(w: World, db: Db) {
    |w.rows| == |db.outbox| && forall id :: 0 <= id < |w.rows| ==> w.rows[id].event == db.outbox[id]
  }

  /** Every email announces a journal entry of a kind that is announced, and no other email does. */
  lemma EmailAnnouncesOneEntry(h: Run, db: Db, id: nat)
    requires IsRun(h) && OutboxOk(db) && SameOutbox(Now(h), db) && id in Now(h).mails
    ensures id < |db.outbox| && Now(h).mails[id] == 1
    ensures var e := AnnouncedEntry(db.orders, db.outbox[id]);
            && e.Some? && e.value < |db.books.journal|
            && db.books.journal[e.value].kind == AnnouncedKind(db.outbox[id].kind)
            && forall other :: other in Now(h).mails && other < |db.outbox| && AnnouncedEntry(db.orders, db.outbox[other]) == e ==>
                 other == id
  {
    AtMostOneEmail(h, id);
    OutboxBijection(db);
    assert Now(h).mails[id] > 0;
  }
}
