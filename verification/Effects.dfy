/** What a planned entry does to the account balances, said in terms of its legs. */
module Effects {
  import opened Decimals
  import opened Ledger
  import opened LedgerLaws
  import opened System
  import opened Invariant

  function SignedLeg(leg: Leg): int {
    if leg.direction == Credit then leg.units else -leg.units
  }

  /** Credits minus debits of one account over the legs. */
  function NetLegs(legs: seq<Leg>, key: AccountKey): int {
    if legs == [] then 0
    else NetLegs(Init(legs), key) + if Last(legs).key == key then SignedLeg(Last(legs)) else 0
  }

  ghost predicate LegsKnown(index: map<AccountKey, int>, legs: seq<Leg>) {
    forall leg :: leg in legs ==> leg.key in index
  }

  lemma {:induction false} NetOfLegs(b: Books, legs: seq<Leg>, key: AccountKey)
    requires IndexOk(b) && LegsKnown(b.index, legs) && key in b.index
    ensures Net(LinesOf(b.index, legs), b.index[key]) == NetLegs(legs, key)
  {
    if legs != [] {
      var lines := LinesOf(b.index, legs);
      assert Last(legs) in legs;
      assert forall leg :: leg in Init(legs) ==> leg in legs;
      NetOfLegs(b, Init(legs), key);
      assert Init(lines) == LinesOf(b.index, Init(legs));
      assert Last(lines) == Line(b.index[Last(legs).key], Last(legs).direction, Fixed8(Last(legs).units),
                                 Last(legs).key.currency);
      assert Signed(Last(lines)) == SignedLeg(Last(legs));
      assert b.index[Last(legs).key] == b.index[key] <==> Last(legs).key == key by {
        assert b.accounts[b.index[key]] == key;
        assert b.accounts[b.index[Last(legs).key]] == Last(legs).key;
      }
    }
  }

  lemma {:induction false} NetOfAbsent(legs: seq<Leg>, key: AccountKey)
    requires forall leg :: leg in legs ==> leg.key != key
    ensures NetLegs(legs, key) == 0
  {
    if legs != [] {
      assert Last(legs) in legs;
      assert forall leg :: leg in Init(legs) ==> leg in legs;
      NetOfAbsent(Init(legs), key);
    }
  }

  lemma LegSnoc(legs: seq<Leg>, leg: Leg, key: AccountKey)
    ensures NetLegs(legs + [leg], key) == NetLegs(legs, key) + if leg.key == key then SignedLeg(leg) else 0
  {
    assert Init(legs + [leg]) == legs && Last(legs + [leg]) == leg;
  }

  function If(b: bool, n: int): int { if b then n else 0 }

  lemma NetOfMove(from: AccountKey, to: AccountKey, units: int, key: AccountKey)
    ensures NetLegs(Move(from, to, units), key) == If(to == key, units) - If(from == key, units)
  {
    var l1, l2 := Leg(from, Debit, units), Leg(to, Credit, units);
    LegSnoc([], l1, key);
    LegSnoc([l1], l2, key);
    assert [] + [l1] == [l1];
    assert Move(from, to, units) == [l1] + [l2];
  }

  lemma NetOfSwap(source: AccountKey, fromUnits: int, user: UserId, to: Code, toUnits: int, key: AccountKey)
    ensures NetLegs(Swap(source, fromUnits, user, to, toUnits), key) ==
            If(Pool(source.currency, Treasury) == key, fromUnits) - If(source == key, fromUnits)
            + If(Wallet(user, to) == key, toUnits) - If(Pool(to, Treasury) == key, toUnits)
  {
    var l1, l2 := Leg(source, Debit, fromUnits), Leg(Pool(source.currency, Treasury), Credit, fromUnits);
    var l3, l4 := Leg(Pool(to, Treasury), Debit, toUnits), Leg(Wallet(user, to), Credit, toUnits);
    LegSnoc([], l1, key);
    LegSnoc([l1], l2, key);
    LegSnoc([l1] + [l2], l3, key);
    LegSnoc([l1] + [l2] + [l3], l4, key);
    assert [] + [l1] == [l1];
    assert Swap(source, fromUnits, user, to, toUnits) == [l1] + [l2] + [l3] + [l4];
  }

  lemma RecordOfLegs(index: map<AccountKey, int>, legs: seq<Leg>)
    requires LegsKnown(index, legs)
    ensures Record(LinesOf(index, legs)) == LinesOf(index, legs)
  {
    var lines := LinesOf(index, legs);
    assert forall i :: 0 <= i < |lines| ==> Record(lines)[i] == lines[i];
  }

  /** The rows a planned entry leaves when it commits, whatever rounding did to the balances. */
  ghost predicate Recorded(before: Db, draft: Draft, after: Db) {
    && LegsKnown(before.books.index, draft.legs)
    && EntryAdded(before.books, after.books, Entry(draft.kind, draft.ref, LinesOf(before.books.index, draft.legs)))
    && after == Write(before, draft, after.books)
    && ChecksOk(draft.change)
    && (forall leg :: leg in draft.legs ==> leg.units > 0)
  }

  /** The committed result within twenty digits: exactly these rows, and every account moved by its net. */
  ghost predicate Moved(before: Db, draft: Draft, after: Db) {
    && Recorded(before, draft, after)
    && Posted(before.books, after.books, Entry(draft.kind, draft.ref, LinesOf(before.books.index, draft.legs)))
    && BooksOk(after.books)
  }

  lemma PositiveLegs(index: map<AccountKey, int>, legs: seq<Leg>)
    requires LegsKnown(index, legs) && AllGood(LinesOf(index, legs))
    ensures forall leg :: leg in legs ==> leg.units > 0
  {
    var lines := LinesOf(index, legs);
    forall leg | leg in legs ensures leg.units > 0 {
      var i :| 0 <= i < |legs| && legs[i] == leg;
      assert GoodAmount(lines[i].amount);
      GoodAmountUnits(lines[i].amount);
    }
  }

  /** A planned entry commits with all its rows, or the database is unchanged: at any magnitude. */
  lemma ExecuteRecords(db: Db, draft: Draft)
    requires IndexOk(db.books) && NoDebt(db.books) && LegsKnown(db.books.index, draft.legs)
    ensures Execute(db, draft).1.Done? ==>
              && Recorded(db, draft, Execute(db, draft).0)
              && Execute(db, draft).1.entry == |db.books.journal|
    ensures !Execute(db, draft).1.Done? ==> Execute(db, draft).0 == db
  {
    hide Post, IndexOk, NoDebt, AllGood;
    var lines := LinesOf(db.books.index, draft.legs);
    if Execute(db, draft).1.Done? {
      PostAdds(db.books, draft.kind, draft.ref, lines);
      RecordOfLegs(db.books.index, draft.legs);
      PositiveLegs(db.books.index, draft.legs);
    }
  }

  /** Within twenty digits it also moves every balance by the entry's net. */
  lemma ExecuteMoves(db: Db, draft: Draft)
    requires BooksOk(db.books) && LegsKnown(db.books.index, draft.legs)
    requires Headroom(db.books.balances, LinesOf(db.books.index, draft.legs))
    ensures Execute(db, draft).1.Done? ==>
              && Moved(db, draft, Execute(db, draft).0)
              && Execute(db, draft).1.entry == |db.books.journal|
    ensures !Execute(db, draft).1.Done? ==> Execute(db, draft).0 == db
  {
    hide Recorded, Headroom;
    var lines := LinesOf(db.books.index, draft.legs);
    ExecuteRecords(db, draft);
    if Execute(db, draft).1.Done? {
      PostExactly(db.books, draft.kind, draft.ref, lines);
      PostKeepsBooks(db.books, draft.kind, draft.ref, lines);
      RecordOfLegs(db.books.index, draft.legs);
    }
  }

  /** Every account's balance moves by the net of the legs on it, whether or not it existed. */
  lemma BalanceMoves(before: Db, draft: Draft, after: Db, key: AccountKey)
    requires BooksOk(before.books) && Moved(before, draft, after)
    ensures BalanceAt(after.books, key) == BalanceAt(before.books, key) + NetLegs(draft.legs, key)
  {
    if key in before.books.index {
      NetOfLegs(before.books, draft.legs, key);
    } else {
      NetOfAbsent(draft.legs, key);
    }
  }
}
