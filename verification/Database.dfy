/** The tables as mutable state, and the ledger service that is their only writer of money. */
module Database {
  import opened Wrappers
  import opened Decimals
  import opened Ledger
  import opened LedgerLaws
  import opened Sums
  import opened System
  import opened Invariant

  class Store {
    var index: map<AccountKey, int>
    var accounts: map<int, AccountKey>
    var balances: map<int, int>
    var journal: seq<Entry>
    var orders: seq<Order>
    var requests: seq<Request>
    var outbox: seq<Event>

    constructor ()
      ensures Valid() && Tables() == Empty()
    {
      index, accounts, balances, journal := map[], map[], map[], [];
      orders, requests, outbox := [], [], [];
    }

    function BookTables(): Books
      reads this
    {
      Books(index, accounts, balances, journal)
    }

    function Tables(): Db
      reads this
    {
      Db(BookTables(), orders, requests, outbox)
    }

    /** The unique and foreign key constraints on accounts and balances. */
    ghost predicate Valid()
      reads this
    {
      IndexOk(BookTables())
    }

    /** A transaction callback threw: every write since `saved` is undone. */
    method Rollback(saved: Db)
      modifies this
      ensures Tables() == saved
    {
      index, accounts, balances, journal :=
        saved.books.index, saved.books.accounts, saved.books.balances, saved.books.journal;
      orders, requests, outbox := saved.orders, saved.requests, saved.outbox;
    }
  }

  // ---------------------------------------------------------------- validateEntryLines

  lemma Prefix<T>(s: seq<T>, i: nat)
    requires i < |s|
    ensures Init(s[..i + 1]) == s[..i] && Last(s[..i + 1]) == s[i]
  {
  }

  lemma {:induction false} BadAmountOfPrefix(lines: seq<Line>, n: nat)
    requires n <= |lines| && FirstBadAmount(lines[..n]).Some?
    ensures FirstBadAmount(lines) == FirstBadAmount(lines[..n])
  {
    if n == |lines| {
      assert lines[..n] == lines;
    } else {
      assert Init(lines)[..n] == lines[..n];
      BadAmountOfPrefix(Init(lines), n);
    }
  }

  lemma {:induction false} UnbalancedOfPrefix(lines: seq<Line>, cs: seq<Code>, n: nat)
    requires n <= |cs| && FirstUnbalanced(lines, cs[..n]).Some?
    ensures FirstUnbalanced(lines, cs) == FirstUnbalanced(lines, cs[..n])
  {
    if n == |cs| {
      assert cs[..n] == cs;
    } else {
      assert Init(cs)[..n] == cs[..n];
      UnbalancedOfPrefix(lines, Init(cs), n);
    }
  }

  lemma BadAmountNext(lines: seq<Line>, i: nat)
    requires i < |lines| && FirstBadAmount(lines[..i]).None?
    ensures FirstBadAmount(lines[..i + 1]) == AmountFault(lines[i].amount, i)
  {
    Prefix(lines, i);
  }

  /** A debit and credit total of one currency. */
  datatype Totals = Totals(debit: int, credit: int)

  /** The currencies seen in these lines, in order, and their totals. */
  ghost predicate Tallied(lines: seq<Line>, seen: seq<Code>, totals: map<Code, Totals>) {
    && seen == Currencies(lines)
    && (forall c :: c in seen <==> c in totals)
    && (forall c :: c in totals ==> totals[c] == Totals(Bucket20(lines, c, Debit), Bucket20(lines, c, Credit)))
    && (forall c :: c !in totals ==> Bucket20(lines, c, Debit) == 0 && Bucket20(lines, c, Credit) == 0)
  }

  /** One currency's totals with one more line. */
  function Added(bucket: Totals, line: Line): Totals {
    if line.direction == Debit then bucket.(debit := Plus(bucket.debit, Value(line.amount)))
    else bucket.(credit := Plus(bucket.credit, Value(line.amount)))
  }

  lemma TallyNext(lines: seq<Line>, i: nat, seen: seq<Code>, totals: map<Code, Totals>)
    requires i < |lines| && Tallied(lines[..i], seen, totals)
    ensures var line := lines[i];
            var bucket := if line.currency in totals then totals[line.currency] else Totals(0, 0);
            Tallied(lines[..i + 1], if line.currency in totals then seen else seen + [line.currency],
                    totals[line.currency := Added(bucket, line)])
  {
    hide Plus, Value;
    Prefix(lines, i);
    BucketsGrow(lines, i);
  }

  lemma BucketsGrow(lines: seq<Line>, i: nat)
    requires i < |lines|
    ensures forall c, d :: Bucket20(lines[..i + 1], c, d) ==
              if lines[i].currency == c && lines[i].direction == d
              then Plus(Bucket20(lines[..i], c, d), Value(lines[i].amount)) else Bucket20(lines[..i], c, d)
  {
    hide Plus, Value;
    Prefix(lines, i);
  }

  lemma TalliedMeans(lines: seq<Line>, seen: seq<Code>, totals: map<Code, Totals>)
    requires Tallied(lines, seen, totals)
    ensures seen == Currencies(lines)
    ensures forall c :: c in seen ==>
              c in totals && totals[c] == Totals(Bucket20(lines, c, Debit), Bucket20(lines, c, Credit))
  {
  }

  lemma NoneTallied()
    ensures Tallied([], [], map[])
  {
  }

  /** `validateEntryLines`: totals per currency in one pass, then a comparison per currency. */
  method ValidateEntryLines(lines: seq<Line>) returns (fault: Option<Fault>)
    ensures fault == Validate(lines)
  {
    hide Plus, Units, Tallied, Bucket20, FirstBadAmount, AmountFault;
    if |lines| < 2 {
      return Some(TooFewLines);
    }
    var totals: map<Code, Totals> := map[];
    var seen: seq<Code> := [];
    NoneTallied();
    var i := 0;
    while i < |lines|
      invariant 0 <= i <= |lines|
      invariant FirstBadAmount(lines[..i]).None?
      invariant Tallied(lines[..i], seen, totals)
    {
      var line := lines[i];
      BadAmountNext(lines, i);
      var bad := AmountFault(line.amount, i);
      if bad.Some? {
        BadAmountOfPrefix(lines, i + 1);
        return bad;
      }
      TallyNext(lines, i, seen, totals);
      var bucket := if line.currency in totals then totals[line.currency] else Totals(0, 0);
      if line.direction == Debit {
        bucket := bucket.(debit := Plus(bucket.debit, Value(line.amount)));
      } else {
        bucket := bucket.(credit := Plus(bucket.credit, Value(line.amount)));
      }
      if line.currency !in totals {
        seen := seen + [line.currency];
      }
      totals := totals[line.currency := bucket];
      i := i + 1;
    }
    assert lines[..i] == lines;
    TalliedMeans(lines, seen, totals);
    i := 0;
    while i < |seen|
      invariant 0 <= i <= |seen|
      invariant FirstUnbalanced(lines, seen[..i]).None?
    {
      Prefix(seen, i);
      assert seen[i] in totals;
      if totals[seen[i]].debit != totals[seen[i]].credit {
        UnbalancedOfPrefix(lines, seen, i + 1);
        return Some(Unbalanced(seen[i]));
      }
      i := i + 1;
    }
    assert seen[..i] == seen;
    return None;
  }

  // ---------------------------------------------------------------- postEntry

  datatype LockedRow = LockedRow(account: int, balance: int, key: AccountKey)

  /** The rows of the locking join: one, in order of id, for each account that exists. */
  function RowsFor(balances: map<int, int>, accounts: map<int, AccountKey>, ids: seq<int>): seq<LockedRow> {
    if ids == [] then []
    else
      var id := Last(ids);
      RowsFor(balances, accounts, Init(ids))
      + if id in balances && id in accounts then [LockedRow(id, balances[id], accounts[id])] else []
  }

  lemma KnownLast(balances: map<int, int>, accounts: map<int, AccountKey>, ids: seq<int>)
    requires ids != []
    ensures Known(balances, accounts, ids) <==>
            Known(balances, accounts, Init(ids)) && Last(ids) in balances && Last(ids) in accounts
  {
    assert forall id :: id in ids <==> id in Init(ids) || id == Last(ids);
  }

  /** One row short means an account is missing; otherwise each account has its row. */
  lemma {:induction false} RowsForAll(balances: map<int, int>, accounts: map<int, AccountKey>, ids: seq<int>)
    ensures |RowsFor(balances, accounts, ids)| <= |ids|
    ensures |RowsFor(balances, accounts, ids)| == |ids| <==> Known(balances, accounts, ids)
    ensures Known(balances, accounts, ids) ==>
              forall i :: 0 <= i < |ids| ==>
                && ids[i] in balances && ids[i] in accounts
                && RowsFor(balances, accounts, ids)[i] == LockedRow(ids[i], balances[ids[i]], accounts[ids[i]])
  {
    if ids != [] {
      RowsForAll(balances, accounts, Init(ids));
      KnownLast(balances, accounts, ids);
      hide Known;
    }
  }

  /** The locking join, one account at a time in ascending id. */
  method LockRows(store: Store, ids: seq<int>) returns (rows: seq<LockedRow>)
    requires Ascending(ids)
    ensures rows == RowsFor(store.balances, store.accounts, ids)
  {
    rows := [];
    var i := 0;
    while i < |ids|
      invariant 0 <= i <= |ids|
      invariant rows == RowsFor(store.balances, store.accounts, ids[..i])
    {
      Prefix(ids, i);
      if ids[i] in store.balances && ids[i] in store.accounts {
        rows := rows + [LockedRow(ids[i], store.balances[ids[i]], store.accounts[ids[i]])];
      }
      i := i + 1;
    }
    assert ids[..i] == ids;
  }

  lemma {:induction false} WrongCurrencyOfPrefix(accounts: map<int, AccountKey>, lines: seq<Line>, n: nat)
    requires n <= |lines| && forall i :: 0 <= i < |lines| ==> lines[i].account in accounts
    requires FirstWrongCurrency(accounts, lines[..n]).Some?
    ensures FirstWrongCurrency(accounts, lines) == FirstWrongCurrency(accounts, lines[..n])
  {
    if n == |lines| {
      assert lines[..n] == lines;
    } else {
      assert Init(lines)[..n] == lines[..n];
      WrongCurrencyOfPrefix(accounts, Init(lines), n);
    }
  }

  method CheckCurrencies(accounts: map<int, AccountKey>, lines: seq<Line>) returns (wrong: Option<nat>)
    requires forall i :: 0 <= i < |lines| ==> lines[i].account in accounts
    ensures wrong == FirstWrongCurrency(accounts, lines)
  {
    var i := 0;
    while i < |lines|
      invariant 0 <= i <= |lines|
      invariant FirstWrongCurrency(accounts, lines[..i]).None?
    {
      Prefix(lines, i);
      if accounts[lines[i].account].currency != lines[i].currency {
        WrongCurrencyOfPrefix(accounts, lines, i + 1);
        return Some(i);
      }
      i := i + 1;
    }
    assert lines[..i] == lines;
    return None;
  }

  /** `deltasByAccountId`: an entry for each account the lines touch, holding its rounded delta. */
  method Deltas(lines: seq<Line>) returns (deltas: map<int, int>)
    ensures deltas.Keys == set i | 0 <= i < |lines| :: lines[i].account
    ensures forall id :: (if id in deltas then deltas[id] else 0) == Delta20(lines, id)
  {
    deltas := map[];
    var i := 0;
    while i < |lines|
      invariant 0 <= i <= |lines|
      invariant deltas.Keys == set j | 0 <= j < i :: lines[j].account
      invariant forall id :: (if id in deltas then deltas[id] else 0) == Delta20(lines[..i], id)
    {
      Prefix(lines, i);
      var line := lines[i];
      var delta := Sig20(Signed(line));
      var before := if line.account in deltas then deltas[line.account] else 0;
      deltas := deltas[line.account := Plus(before, delta)];
      i := i + 1;
    }
    assert lines[..i] == lines;
  }

  lemma {:induction false} OverdrawnOfPrefix(read: map<int, int>, accounts: map<int, AccountKey>, lines: seq<Line>,
                                             ids: seq<int>, n: nat)
    requires n <= |ids| && forall id :: id in ids ==> id in read && id in accounts
    requires forall id :: id in ids[..n] ==> id in read && id in accounts
    requires FirstOverdrawn(read, accounts, lines, ids[..n]).Some?
    ensures FirstOverdrawn(read, accounts, lines, ids) == FirstOverdrawn(read, accounts, lines, ids[..n])
  {
    if n == |ids| {
      assert ids[..n] == ids;
    } else {
      assert Init(ids)[..n] == ids[..n];
      assert forall id :: id in Init(ids) ==> id in ids;
      OverdrawnOfPrefix(read, accounts, lines, Init(ids), n);
    }
  }

  /** `newBalancesByAccountId`, or the first account the entry would overdraw. */
  method NewBalances(rows: seq<LockedRow>, deltas: map<int, int>, ghost read: map<int, int>,
                     ghost accounts: map<int, AccountKey>, ghost lines: seq<Line>, ids: seq<int>)
    returns (written: map<int, int>, overdrawn: Option<int>)
    requires |rows| == |ids| && Known(read, accounts, ids)
    requires forall i :: 0 <= i < |ids| ==>
               && ids[i] in read && ids[i] in accounts
               && rows[i] == LockedRow(ids[i], read[ids[i]], accounts[ids[i]])
    requires forall id :: (if id in deltas then deltas[id] else 0) == Delta20(lines, id)
    ensures overdrawn == FirstOverdrawn(read, accounts, lines, ids)
    ensures overdrawn.None? ==> written == map id | id in ids :: NewBalance(read[id], lines, id)
  {
    hide Plus, Delta20;
    written := map[];
    var i := 0;
    while i < |ids|
      invariant 0 <= i <= |ids|
      invariant forall id :: id in ids[..i] ==> id in ids
      invariant FirstOverdrawn(read, accounts, lines, ids[..i]).None?
      invariant written == map id | id in ids[..i] :: NewBalance(read[id], lines, id)
    {
      Prefix(ids, i);
      var row := rows[i];
      assert row.account in ids;
      var balance := Plus(row.balance, if row.account in deltas then deltas[row.account] else 0);
      assert balance == NewBalance(read[ids[i]], lines, ids[i]);
      assert forall id :: id in ids[..i + 1] <==> id in ids[..i] || id == ids[i];
      if row.key.owner.Some? && balance < 0 {
        OverdrawnOfPrefix(read, accounts, lines, ids, i + 1);
        return written, Some(row.account);
      }
      written := written[row.account := balance];
      i := i + 1;
    }
    assert ids[..i] == ids;
    return written, None;
  }

  /** The balance rows are overwritten one by one. */
  method WriteBalances(store: Store, written: map<int, int>, ids: seq<int>)
    requires written.Keys == set id | id in ids
    modifies store`balances
    ensures store.balances == old(store.balances) + written
  {
    var i := 0;
    while i < |ids|
      invariant 0 <= i <= |ids|
      invariant store.balances == old(store.balances) + map id | id in ids[..i] && id in written :: written[id]
    {
      Prefix(ids, i);
      assert ids[i] in ids;
      assert forall id :: id in ids[..i + 1] <==> id in ids[..i] || id == ids[i];
      store.balances := store.balances[ids[i] := written[ids[i]]];
      i := i + 1;
    }
    assert ids[..i] == ids;
    assert written == map id | id in ids[..i] && id in written :: written[id];
  }

  lemma PostKeepsIndex(b: Books, kind: EntryType, ref: Ref, lines: seq<Line>)
    requires IndexOk(b) && Post(b, kind, ref, lines).Ok?
    ensures IndexOk(Post(b, kind, ref, lines).value)
  {
    SettleTouchesKnown(b, lines);
  }

  /** Lock, check and price the entry: `Settle` on the rows the locks returned. */
  method SettleEntry(store: Store, lines: seq<Line>) returns (r: Result<map<int, int>, PostError>)
    ensures r == Settle(store.balances, store.accounts, lines)
  {
    hide Record, Ascending, Delta20, NewBalance;
    var ids := AccountIds(lines);
    var rows := LockRows(store, ids);
    RowsForAll(store.balances, store.accounts, ids);
    if |rows| != |ids| {
      return Err(UnknownAccount);
    }
    assert forall i :: 0 <= i < |lines| ==> lines[i].account in ids;
    var wrong := CheckCurrencies(store.accounts, lines);
    if wrong.Some? {
      return Err(WrongCurrency(wrong.value));
    }
    var deltas := Deltas(lines);
    var written, overdrawn := NewBalances(rows, deltas, store.balances, store.accounts, lines, ids);
    if overdrawn.Some? {
      return Err(Insufficient(overdrawn.value));
    }
    return Ok(written);
  }

  /** `postEntry` inside the caller's transaction: the entry's rows, or the exception and no change. */
  method PostEntry(store: Store, kind: EntryType, ref: Ref, lines: seq<Line>) returns (r: Result<nat, PostError>)
    requires store.Valid()
    modifies store
    ensures store.Valid()
    ensures match Post(old(store.BookTables()), kind, ref, lines)
            case Ok(after) => r == Ok(|old(store.journal)|) && store.Tables() == old(store.Tables()).(books := after)
            case Err(e) => r == Err(e) && store.Tables() == old(store.Tables())
  {
    hide IndexOk, Record, AccountIds, Validate;
    ghost var before := store.BookTables();
    var fault := ValidateEntryLines(lines);
    if fault.Some? {
      return Err(Invalid(fault.value));
    }
    var settled := SettleEntry(store, lines);
    if settled.Err? {
      return Err(settled.error);
    }
    PostKeepsIndex(before, kind, ref, lines);
    r := Ok(|store.journal|);
    store.journal := store.journal + [Entry(kind, ref, Record(lines))];
    WriteBalances(store, settled.value, AccountIds(lines));
  }

  // ---------------------------------------------------------------- ensureAccount

  lemma AccountAdded(b: Books, key: AccountKey, id: int)
    requires IndexOk(b) && key !in b.index && id !in b.accounts && KeyFits(key)
    ensures var after := Books(b.index[key := id], b.accounts[id := key], b.balances[id := 0], b.journal);
            IndexOk(after) && Ensured(b, after, {key})
  {
  }

  lemma AccountThere(b: Books, key: AccountKey)
    requires IndexOk(b) && key in b.index
    ensures Ensured(b, b, {key})
  {
  }

  /** The account's two rows, unless the unique index refuses them. */
  method InsertAccount(store: Store, key: AccountKey) returns (inserted: Option<int>)
    requires store.Valid() && KeyFits(key)
    modifies store
    ensures store.Valid() && Opened(old(store.Tables()), store.Tables(), {key})
    ensures key in store.index
    ensures inserted == if key in old(store.index) then None else Some(store.index[key])
  {
    hide IndexOk, Ensured;
    if key in store.index {
      AccountThere(store.BookTables(), key);
      return None;
    }
    FreshIdExists(store.accounts.Keys);
    var id :| id !in store.accounts.Keys;
    AccountAdded(store.BookTables(), key, id);
    store.index := store.index[key := id];
    store.accounts := store.accounts[id := key];
    store.balances := store.balances[id := 0];
    return Some(id);
  }

  /**
   `ensureAccount`: the account of this owner, currency and kind, created at zero on first use.  Another caller
   may create it between the look-up and the insert; then the insert does nothing and a second look-up finds it.
   */
  method EnsureAccount(store: Store, key: AccountKey) returns (id: int)
    requires store.Valid() && KeyFits(key)
    modifies store
    ensures store.Valid()
    ensures key in store.index && id == store.index[key]
    ensures Opened(old(store.Tables()), store.Tables(), {key})
  {
    hide IndexOk, Ensured;
    ghost var t0 := store.Tables();
    if key in store.index {
      AccountThere(store.BookTables(), key);
      return store.index[key];
    }
    if * {
      var _ := InsertAccount(store, key);
    } else {
      OpenedSelf(t0);
    }
    ghost var t1 := store.Tables();
    var inserted := InsertAccount(store, key);
    OpenedVia(t0, t1, store.Tables(), key);
    if inserted.Some? {
      return inserted.value;
    }
    return store.index[key];
  }

  lemma OpenedSelf(a: Db)
    requires IndexOk(a.books)
    ensures Opened(a, a, {})
  {
  }

  lemma OpenedVia(a: Db, b: Db, c: Db, key: AccountKey)
    requires (Opened(a, b, {}) || Opened(a, b, {key})) && Opened(b, c, {key})
    ensures Opened(a, c, {key})
  {
  }
}
