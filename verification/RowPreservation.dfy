/** Every operation keeps the rows, their entries and the outbox in step. */
module RowPreservation {
  import opened Wrappers
  import opened Ledger
  import opened System
  import opened Invariant
  import opened Effects
  import opened Preservation

  // ---------------------------------------------------------------- rows keep their entries

  /** The account index and the journal only gain. */
  ghost predicate Grown(before: Books, after: Books) {
    && before.journal <= after.journal
    && forall k :: k in before.index ==> k in after.index && after.index[k] == before.index[k]
  }

  lemma EntryKept(before: Books, after: Books, id: nat, kind: EntryType, ref: Ref, legs: seq<Leg>)
    requires Grown(before, after) && EntryIs(before, id, kind, ref, legs)
    ensures EntryIs(after, id, kind, ref, legs)
  {
    var l1, l2 := LinesOf(before.index, legs), LinesOf(after.index, legs);
    assert forall i :: 0 <= i < |legs| ==> legs[i] in legs && l1[i] == l2[i];
    assert l1 == l2;
  }

  lemma OrderKept(cfg: Config, before: Books, after: Books, i: nat, o: Order)
    requires ConfigOk(cfg) && Grown(before, after) && OrderOk(cfg, before, i, o)
    ensures OrderOk(cfg, after, i, o)
  {
    if o.kind == Limit {
      EntryKept(before, after, o.holdEntry.value, TradeHoldEntry, NoRef, HoldLegs(cfg, o));
      if o.status == Filled {
        EntryKept(before, after, o.fillEntry.value, TradeEntry, OrderRef(i), FillLegs(cfg, o));
      }
    }
    if o.status == Cancelled {
      var e: nat :| EntryIs(before, e, TradeReleaseEntry, OrderRef(i), ReleaseLegs(cfg, o));
      EntryKept(before, after, e, TradeReleaseEntry, OrderRef(i), ReleaseLegs(cfg, o));
    }
  }

  lemma RequestKept(before: Books, after: Books, i: nat, r: Request)
    requires Grown(before, after) && RequestOk(before, i, r)
    ensures RequestOk(after, i, r)
  {
    EntryKept(before, after, r.holdEntry, WithdrawalHoldEntry, NoRef, RequestLegs(r));
    if r.status == Approved {
      EntryKept(before, after, r.settleEntry.value, WithdrawalSettleEntry, RequestRef(i), DecisionLegs(r));
    }
    if r.status == Rejected {
      EntryKept(before, after, r.settleEntry.value, WithdrawalReleaseEntry, RequestRef(i), DecisionLegs(r));
    }
  }

  lemma NewEntry(before: Db, draft: Draft, after: Db)
    requires Recorded(before, draft, after)
    ensures EntryIs(after.books, |before.books.journal|, draft.kind, draft.ref, draft.legs)
    ensures Grown(before.books, after.books)
  {
  }

  lemma MoveUnits(from: AccountKey, to: AccountKey, units: int)
    requires forall leg :: leg in Move(from, to, units) ==> leg.units > 0
    ensures units > 0
  {
    assert Move(from, to, units)[0] in Move(from, to, units);
  }

  /** What a change makes of order `i` is in order afterwards. */
  lemma PlacedOrderOk(cfg: Config, db: Db, draft: Draft, after: Db, i: nat)
    requires ConfigOk(cfg) && Fits(cfg, db, draft) && Recorded(db, draft, after)
    requires draft.change.InsertHeld? && i == |db.orders|
    ensures i < |after.orders| && OrderOk(cfg, after.books, i, after.orders[i])
  {
    NewEntry(db, draft, after);
    var planned, o := draft.change.order, after.orders[i];
    assert o == planned.(holdEntry := Some(|db.books.journal|));
    var (c, units) := Held(cfg, planned).value;
    MoveUnits(Wallet(o.user, c), Pool(c, TradeHold), units);
    assert Held(cfg, o) == Held(cfg, planned) && HoldLegs(cfg, o) == HoldLegs(cfg, planned);
  }

  lemma FilledOrderOk(cfg: Config, db: Db, draft: Draft, after: Db)
    requires ConfigOk(cfg) && RowsOk(cfg, db) && Fits(cfg, db, draft) && Recorded(db, draft, after)
    requires draft.change.MarkFilled?
    ensures var id := draft.change.id; id < |after.orders| && OrderOk(cfg, after.books, id, after.orders[id])
  {
    NewEntry(db, draft, after);
    var id := draft.change.id;
    var o := after.orders[id];
    OrderKept(cfg, db.books, after.books, id, db.orders[id]);
    assert Held(cfg, o) == Held(cfg, db.orders[id]) && HoldLegs(cfg, o) == HoldLegs(cfg, db.orders[id]);
    assert FillLegs(cfg, o) == FillLegs(cfg, db.orders[id]);
  }

  lemma CancelledOrderOk(cfg: Config, db: Db, draft: Draft, after: Db)
    requires ConfigOk(cfg) && RowsOk(cfg, db) && Fits(cfg, db, draft) && Recorded(db, draft, after)
    requires draft.change.MarkCancelled?
    ensures var id := draft.change.id; id < |after.orders| && OrderOk(cfg, after.books, id, after.orders[id])
  {
    NewEntry(db, draft, after);
    var id := draft.change.id;
    var o := after.orders[id];
    OrderKept(cfg, db.books, after.books, id, db.orders[id]);
    assert Held(cfg, o) == Held(cfg, db.orders[id]) && HoldLegs(cfg, o) == HoldLegs(cfg, db.orders[id]);
    assert ReleaseLegs(cfg, o) == ReleaseLegs(cfg, db.orders[id]);
  }

  /** The one order row a change writes is in order afterwards. */
  lemma ChangedOrderOk(cfg: Config, db: Db, draft: Draft, after: Db, i: nat)
    requires ConfigOk(cfg) && RowsOk(cfg, db) && Fits(cfg, db, draft) && Recorded(db, draft, after)
    requires i < |after.orders| && (i < |db.orders| ==> after.orders[i] != db.orders[i])
    ensures OrderOk(cfg, after.books, i, after.orders[i])
  {
    match draft.change
    case InsertHeld(_) => PlacedOrderOk(cfg, db, draft, after, i);
    case InsertFilled(planned) =>
      assert i == |db.orders| && after.orders[i] == planned.(fillEntry := Some(|db.books.journal|));
    case MarkFilled(_, _, _) => FilledOrderOk(cfg, db, draft, after);
    case MarkCancelled(_) => CancelledOrderOk(cfg, db, draft, after);
    case _ =>
      assert false;
  }

  lemma ChangedRequestOk(cfg: Config, db: Db, draft: Draft, after: Db, i: nat)
    requires ConfigOk(cfg) && RowsOk(cfg, db) && Fits(cfg, db, draft) && Recorded(db, draft, after)
    requires i < |after.requests| && (i < |db.requests| ==> after.requests[i] != db.requests[i])
    ensures RequestOk(after.books, i, after.requests[i])
  {
    NewEntry(db, draft, after);
    match draft.change
    case InsertRequest(user, c, amount) =>
      assert i == |db.requests|;
    case Decide(id, status, admin, at) =>
      assert i == id;
      RequestKept(db.books, after.books, id, db.requests[id]);
      assert DecisionLegs(after.requests[i]) == DecisionLegs(db.requests[id].(status := status));
      assert RequestLegs(after.requests[i]) == RequestLegs(db.requests[id]);
    case _ =>
      assert false;
  }

  lemma RowsKept(cfg: Config, db: Db, draft: Draft, after: Db)
    requires ConfigOk(cfg) && RowsOk(cfg, db) && Fits(cfg, db, draft) && Recorded(db, draft, after)
    ensures RowsOk(cfg, after)
  {
    NewEntry(db, draft, after);
    forall i | 0 <= i < |after.orders| ensures OrderOk(cfg, after.books, i, after.orders[i]) {
      if i < |db.orders| && after.orders[i] == db.orders[i] {
        OrderKept(cfg, db.books, after.books, i, db.orders[i]);
      } else {
        ChangedOrderOk(cfg, db, draft, after, i);
      }
    }
    forall i | 0 <= i < |after.requests| ensures RequestOk(after.books, i, after.requests[i]) {
      if i < |db.requests| && after.requests[i] == db.requests[i] {
        RequestKept(db.books, after.books, i, db.requests[i]);
      } else {
        ChangedRequestOk(cfg, db, draft, after, i);
      }
    }
  }

  // ---------------------------------------------------------------- holds belong to rows one for one

  lemma EntriesAppend(journal: seq<Entry>, e: Entry, kinds: set<EntryType>)
    ensures EntriesOf(journal + [e], kinds) == EntriesOf(journal, kinds) + if e.kind in kinds then [|journal|] else []
  {
    assert Init(journal + [e]) == journal;
  }

  lemma CountAppend(journal: seq<Entry>, e: Entry, kind: EntryType, ref: Ref)
    ensures CountRef(journal + [e], kind, ref) ==
            CountRef(journal, kind, ref) + One(e.kind == kind && e.ref == ref)
  {
    assert Init(journal + [e]) == journal;
  }

  lemma {:induction false} HoldsUnchanged(orders: seq<Order>, i: nat, o: Order)
    requires i < |orders| && o.holdEntry == orders[i].holdEntry
    ensures HoldsOfOrders(orders[i := o]) == HoldsOfOrders(orders)
  {
    if i < |orders| - 1 {
      assert Init(orders[i := o]) == Init(orders)[i := o];
      HoldsUnchanged(Init(orders), i, o);
    } else {
      assert Init(orders[i := o]) == Init(orders);
    }
  }

  lemma {:induction false} RequestHoldsUnchanged(requests: seq<Request>, i: nat, r: Request)
    requires i < |requests| && r.holdEntry == requests[i].holdEntry
    ensures HoldsOfRequests(requests[i := r]) == HoldsOfRequests(requests)
  {
    if i < |requests| - 1 {
      assert Init(requests[i := r]) == Init(requests)[i := r];
      RequestHoldsUnchanged(Init(requests), i, r);
    } else {
      assert Init(requests[i := r]) == Init(requests);
    }
  }

  lemma OrderHoldsKept(cfg: Config, db: Db, draft: Draft, after: Db)
    requires ConfigOk(cfg) && Fits(cfg, db, draft) && Recorded(db, draft, after)
    ensures HoldsOfOrders(after.orders) ==
            HoldsOfOrders(db.orders) + if draft.kind == TradeHoldEntry then [|db.books.journal|] else []
  {
    hide FillLegs, ReleaseLegs, HoldLegs, Held, PairOk, Neutral, DecisionLegs, Move, LegsKnown, LinesOf;
    match draft.change
    case InsertHeld(_) => assert Init(after.orders) == db.orders;
    case InsertFilled(_) => assert Init(after.orders) == db.orders;
    case MarkFilled(id, _, _) => HoldsUnchanged(db.orders, id, after.orders[id]);
    case MarkCancelled(id) => HoldsUnchanged(db.orders, id, after.orders[id]);
    case _ =>
  }

  lemma RequestHoldsKept(cfg: Config, db: Db, draft: Draft, after: Db)
    requires ConfigOk(cfg) && Fits(cfg, db, draft) && Recorded(db, draft, after)
    ensures HoldsOfRequests(after.requests) ==
            HoldsOfRequests(db.requests) + if draft.kind == WithdrawalHoldEntry then [|db.books.journal|] else []
  {
    hide FillLegs, ReleaseLegs, HoldLegs, Held, PairOk, Neutral, DecisionLegs, Move, LegsKnown, LinesOf;
    match draft.change
    case InsertRequest(_, _, _) => assert Init(after.requests) == db.requests;
    case Decide(id, _, _, _) => RequestHoldsUnchanged(db.requests, id, after.requests[id]);
    case _ =>
  }

  lemma HoldsKept(cfg: Config, db: Db, draft: Draft, after: Db)
    requires ConfigOk(cfg) && HoldsOk(db) && Fits(cfg, db, draft) && Recorded(db, draft, after)
    ensures HoldsOk(after)
  {
    hide Fits, EntriesOf, HoldsOfOrders, HoldsOfRequests, LinesOf;
    OrderHoldsKept(cfg, db, draft, after);
    RequestHoldsKept(cfg, db, draft, after);
    var e := Last(after.books.journal);
    EntriesAppend(db.books.journal, e, {TradeHoldEntry});
    EntriesAppend(db.books.journal, e, {WithdrawalHoldEntry});
  }

  // ---------------------------------------------------------------- one resolving entry each

  lemma {:induction false} UnknownRefUncounted(journal: seq<Entry>, kind: EntryType, ref: Ref)
    requires forall e :: 0 <= e < |journal| ==> journal[e].ref != ref
    ensures CountRef(journal, kind, ref) == 0
  {
    if journal != [] {
      assert Last(journal) == journal[|journal| - 1];
      UnknownRefUncounted(Init(journal), kind, ref);
    }
  }

  lemma OrderCountKept(cfg: Config, db: Db, draft: Draft, after: Db, i: nat)
    requires ConfigOk(cfg) && ResolvedOk(db) && Fits(cfg, db, draft) && Recorded(db, draft, after)
    requires i < |after.orders|
    ensures CountRef(after.books.journal, TradeEntry, OrderRef(i)) ==
            One(after.orders[i].kind == Limit && after.orders[i].status == Filled)
    ensures CountRef(after.books.journal, TradeReleaseEntry, OrderRef(i)) == One(after.orders[i].status == Cancelled)
  {
    hide FillLegs, ReleaseLegs, HoldLegs, Held, PairOk, Neutral, DecisionLegs, Move, LegsKnown, LinesOf;
    var e := Last(after.books.journal);
    CountAppend(db.books.journal, e, TradeEntry, OrderRef(i));
    CountAppend(db.books.journal, e, TradeReleaseEntry, OrderRef(i));
    if i >= |db.orders| {
      forall x | 0 <= x < |db.books.journal| ensures db.books.journal[x].ref != OrderRef(i) {
        assert RefKnown(db, db.books.journal[x].ref);
      }
      UnknownRefUncounted(db.books.journal, TradeEntry, OrderRef(i));
      UnknownRefUncounted(db.books.journal, TradeReleaseEntry, OrderRef(i));
    }
  }

  lemma RequestCountKept(cfg: Config, db: Db, draft: Draft, after: Db, i: nat)
    requires ConfigOk(cfg) && ResolvedOk(db) && Fits(cfg, db, draft) && Recorded(db, draft, after)
    requires i < |after.requests|
    ensures CountRef(after.books.journal, WithdrawalSettleEntry, RequestRef(i)) ==
            One(after.requests[i].status == Approved)
    ensures CountRef(after.books.journal, WithdrawalReleaseEntry, RequestRef(i)) ==
            One(after.requests[i].status == Rejected)
  {
    var e := Last(after.books.journal);
    CountAppend(db.books.journal, e, WithdrawalSettleEntry, RequestRef(i));
    CountAppend(db.books.journal, e, WithdrawalReleaseEntry, RequestRef(i));
    if i >= |db.requests| {
      forall x | 0 <= x < |db.books.journal| ensures db.books.journal[x].ref != RequestRef(i) {
        assert RefKnown(db, db.books.journal[x].ref);
      }
      UnknownRefUncounted(db.books.journal, WithdrawalSettleEntry, RequestRef(i));
      UnknownRefUncounted(db.books.journal, WithdrawalReleaseEntry, RequestRef(i));
    }
  }

  lemma ResolvedKept(cfg: Config, db: Db, draft: Draft, after: Db)
    requires ConfigOk(cfg) && ResolvedOk(db) && Fits(cfg, db, draft) && Recorded(db, draft, after)
    ensures ResolvedOk(after)
  {
    forall i | 0 <= i < |after.orders|
      ensures CountRef(after.books.journal, TradeEntry, OrderRef(i)) ==
              One(after.orders[i].kind == Limit && after.orders[i].status == Filled)
      ensures CountRef(after.books.journal, TradeReleaseEntry, OrderRef(i)) == One(after.orders[i].status == Cancelled)
    {
      OrderCountKept(cfg, db, draft, after, i);
    }
    forall i | 0 <= i < |after.requests|
      ensures CountRef(after.books.journal, WithdrawalSettleEntry, RequestRef(i)) ==
              One(after.requests[i].status == Approved)
      ensures CountRef(after.books.journal, WithdrawalReleaseEntry, RequestRef(i)) ==
              One(after.requests[i].status == Rejected)
    {
      RequestCountKept(cfg, db, draft, after, i);
    }
    forall e | 0 <= e < |after.books.journal| ensures RefKnown(after, after.books.journal[e].ref) {
      if e < |db.books.journal| {
        assert after.books.journal[e] == db.books.journal[e];
        assert RefKnown(db, db.books.journal[e].ref);
      }
    }
  }

  // ---------------------------------------------------------------- outbox

  /** Rows already in the outbox keep announcing the entry they announced. */
  lemma AnnouncementKept(cfg: Config, db: Db, draft: Draft, after: Db, e: Event)
    requires ConfigOk(cfg) && RowsOk(cfg, db) && Fits(cfg, db, draft) && Recorded(db, draft, after)
    requires AnnouncedEntry(db.orders, e).Some?
    ensures AnnouncedEntry(after.orders, e) == AnnouncedEntry(db.orders, e)
  {
    if e.kind == OrderFilled {
      assert OrderOk(cfg, db.books, e.aggregate, db.orders[e.aggregate]);
    }
  }

  lemma NoticeIff(cfg: Config, db: Db, draft: Draft)
    requires ConfigOk(cfg) && Fits(cfg, db, draft)
    ensures draft.notice.Some? <==> draft.kind in NOTIFYING
    ensures draft.notice.Some? ==> AnnouncedKind(draft.notice.value) == draft.kind
  {
  }

  /** The row a transaction adds to the outbox announces the entry of that transaction. */
  lemma NewAnnouncement(cfg: Config, db: Db, draft: Draft, entry: nat)
    requires ConfigOk(cfg) && Fits(cfg, db, draft) && draft.notice.Some?
    ensures AnnouncedEntry(ChangeOrders(db.orders, draft.change, entry),
                           Event(draft.notice.value, AggregateOf(db.orders, draft.change, entry))) == Some(entry)
  {
  }

  lemma OutboxKept(cfg: Config, db: Db, draft: Draft, after: Db)
    requires ConfigOk(cfg) && RowsOk(cfg, db) && OutboxOk(db) && Fits(cfg, db, draft) && Recorded(db, draft, after)
    ensures OutboxOk(after)
  {
    var entry := |db.books.journal|;
    var due, due' := EntriesOf(db.books.journal, NOTIFYING), EntriesOf(after.books.journal, NOTIFYING);
    EntriesAppend(db.books.journal, after.books.journal[entry], NOTIFYING);
    NoticeIff(cfg, db, draft);
    assert due' == due + if draft.notice.Some? then [entry] else [];
    assert after.outbox == Publish(db.outbox, draft.notice, AggregateOf(db.orders, draft.change, entry));
    forall i | 0 <= i < |due|
      ensures AnnouncedEntry(after.orders, after.outbox[i]) == Some(due'[i])
      ensures due'[i] < |after.books.journal|
      ensures after.books.journal[due'[i]].kind == AnnouncedKind(after.outbox[i].kind)
    {
      AnnouncementKept(cfg, db, draft, after, db.outbox[i]);
    }
    if draft.notice.Some? {
      NewAnnouncement(cfg, db, draft, entry);
    }
  }
}
