/**
 What the ledger promises: which entries it accepts, that a cached balance is always credits minus
 debits over the journal, that every currency sums to zero over all accounts, and that no user's
 account is negative -- as long as sums stay within twenty digits, and how it drifts beyond.
 */
module LedgerLaws {
  import opened Wrappers
  import opened Decimals
  import opened Ledger
  import opened Sums

  // ---------------------------------------------------------------- the invariant

  ghost predicate Balanced(lines: seq<Line>) {
    forall c :: Bucket(lines, c, Debit) == Bucket(lines, c, Credit)
  }

  /** Every line names an account in that account's currency. */
  ghost predicate LinesFit(accounts: map<int, AccountKey>, lines: seq<Line>) {
    forall i :: 0 <= i < |lines| ==>
      lines[i].account in accounts && accounts[lines[i].account].currency == lines[i].currency
  }

  /** A journal row set is complete: real accounts in their own currency, positive amounts, balanced. */
  ghost predicate EntryOk(accounts: map<int, AccountKey>, e: Entry) {
    && |e.lines| >= 2
    && (forall i :: 0 <= i < |e.lines| ==>
          && e.lines[i].account in accounts
          && accounts[e.lines[i].account].currency == e.lines[i].currency
          && e.lines[i].amount == Fixed8(Value(e.lines[i].amount))
          && Value(e.lines[i].amount) > 0)
    && Balanced(e.lines)
  }

  /** The unique indexes on `accounts` and its owner/kind check constraint. */
  ghost predicate IndexOk(b: Books) {
    && (forall k :: k in b.index ==> b.index[k] in b.accounts && b.accounts[b.index[k]] == k)
    && (forall id :: id in b.accounts ==> b.accounts[id] in b.index && b.index[b.accounts[id]] == id)
    && (forall k :: k in b.index ==> KeyFits(k))
    && b.balances.Keys == b.accounts.Keys
  }

  /** No user-owned account is negative. */
  ghost predicate NoDebt(b: Books) {
    forall id :: id in b.accounts && id in b.balances && b.accounts[id].owner.Some? ==> b.balances[id] >= 0
  }

  ghost predicate BooksOk(b: Books) {
    && IndexOk(b)
    && NoDebt(b)
    && (forall id :: id in b.balances ==> b.balances[id] == JournalNet(b.journal, id))
    && (forall e :: 0 <= e < |b.journal| ==> EntryOk(b.accounts, b.journal[e]))
  }

  // ---------------------------------------------------------------- amounts

  /** At most eight places means the digits past the eighth divide out, however the text was written. */
  lemma GoodAmountIff(n: Numeral)
    ensures GoodAmount(n) <==>
            && n.Finite?
            && n.coefficient > 0
            && (n.places <= MAX_PLACES || n.coefficient % Pow10(n.places - MAX_PLACES) == 0)
  {
    if n.Finite? && n.places > MAX_PLACES {
      DecimalPlacesAtMost(n.coefficient, n.places, MAX_PLACES);
    }
  }

  /** An accepted amount is a positive whole number of units, and the units lose nothing of it. */
  lemma GoodAmountUnits(n: Numeral)
    requires GoodAmount(n)
    ensures Value(n) > 0
    ensures if n.places <= MAX_PLACES then Value(n) == n.coefficient * Pow10(MAX_PLACES - n.places)
            else Value(n) * Pow10(n.places - MAX_PLACES) == n.coefficient
  {
    GoodAmountIff(n);
    if n.places <= MAX_PLACES {
      MulMonotone(Pow10(MAX_PLACES - n.places), 1, n.coefficient);
    } else {
      var d := Pow10(n.places - MAX_PLACES);
      DivMod(n.coefficient, d);
      assert n.coefficient == d * (n.coefficient / d);
      assert Value(n) * d == d * Value(n);
      if Value(n) <= 0 {
        MulMonotone(d, Value(n), 0);
      }
    }
  }

  ghost predicate AllGood(lines: seq<Line>) {
    forall i :: 0 <= i < |lines| ==> GoodAmount(lines[i].amount)
  }

  lemma {:induction false} BucketSign(lines: seq<Line>, c: Code, d: Direction)
    requires AllGood(lines)
    ensures Bucket(lines, c, d) >= 0
    ensures forall i :: 0 <= i < |lines| && lines[i].currency == c && lines[i].direction == d ==>
              Value(lines[i].amount) <= Bucket(lines, c, d)
  {
    if lines != [] {
      assert forall i :: 0 <= i < |Init(lines)| ==> Init(lines)[i] == lines[i];
      BucketSign(Init(lines), c, d);
      GoodAmountUnits(Last(lines).amount);
    }
  }

  lemma LastIsSmall(lines: seq<Line>)
    requires lines != [] && AllGood(lines) && SmallSums(lines)
    ensures 0 < Value(Last(lines).amount) < LIMIT
    ensures Sig20(Signed(Last(lines))) == Signed(Last(lines))
  {
    BucketSign(lines, Last(lines).currency, Last(lines).direction);
    GoodAmountUnits(Last(lines).amount);
    SmallIsRepresentable(Signed(Last(lines)));
  }

  lemma {:induction false} BucketsExact(lines: seq<Line>, c: Code, d: Direction)
    requires AllGood(lines) && SmallSums(lines)
    ensures Bucket20(lines, c, d) == Bucket(lines, c, d)
  {
    if lines != [] {
      BucketsExact(Init(lines), c, d);
      BucketSign(lines, c, d);
      if Last(lines).currency == c && Last(lines).direction == d {
        PlusExact(Bucket(Init(lines), c, d), Value(Last(lines).amount));
      }
    }
  }

  lemma {:induction false} DeltaExact(lines: seq<Line>, id: int)
    requires AllGood(lines) && SmallSums(lines)
    ensures Delta20(lines, id) == Net(lines, id)
  {
    if lines != [] {
      DeltaExact(Init(lines), id);
      LastIsSmall(lines);
      if Last(lines).account == id {
        PlusExact(Net(Init(lines), id), Signed(Last(lines)));
      }
    }
  }

  // ---------------------------------------------------------------- the verdict

  lemma {:induction false} ForeignCurrency(lines: seq<Line>, c: Code, d: Direction)
    requires forall i :: 0 <= i < |lines| ==> lines[i].currency != c
    ensures Bucket(lines, c, d) == 0
  {
    if lines != [] {
      assert Last(lines) == lines[|lines| - 1];
      ForeignCurrency(Init(lines), c, d);
    }
  }

  /** `validateEntryLines` accepts exactly the well-formed balanced lists. */
  lemma ValidateExactly(lines: seq<Line>)
    requires SmallSums(lines)
    ensures Validate(lines).None? <==> |lines| >= 2 && AllGood(lines) && Balanced(lines)
  {
    if |lines| >= 2 && AllGood(lines) {
      forall c, d ensures Bucket20(lines, c, d) == Bucket(lines, c, d) {
        BucketsExact(lines, c, d);
      }
      var cs := Currencies(lines);
      forall c | c !in cs ensures Bucket(lines, c, Debit) == Bucket(lines, c, Credit) {
        ForeignCurrency(lines, c, Debit);
        ForeignCurrency(lines, c, Credit);
      }
      assert FirstUnbalanced(lines, cs).None? <==> Balanced(lines);
    }
  }

  /** How the sums unfold over one more line. */
  lemma Snoc(lines: seq<Line>, l: Line, c: Code, id: int)
    ensures forall d :: Bucket(lines + [l], c, d) ==
              Bucket(lines, c, d) + if l.currency == c && l.direction == d then Value(l.amount) else 0
    ensures forall d :: Bucket20(lines + [l], c, d) ==
              if l.currency == c && l.direction == d then Plus(Bucket20(lines, c, d), Value(l.amount))
              else Bucket20(lines, c, d)
    ensures Net(lines + [l], id) == Net(lines, id) + if l.account == id then Signed(l) else 0
    ensures Delta20(lines + [l], id) ==
            if l.account == id then Plus(Delta20(lines, id), Sig20(Signed(l))) else Delta20(lines, id)
  {
    assert Init(lines + [l]) == lines && Last(lines + [l]) == l;
  }

  /** With one currency in use the validator looks at that currency only. */
  lemma SingleCurrency(lines: seq<Line>, c: Code)
    requires |lines| >= 2 && FirstBadAmount(lines).None?
    requires forall i :: 0 <= i < |lines| ==> lines[i].currency == c
    requires Bucket20(lines, c, Debit) == Bucket20(lines, c, Credit)
    ensures Validate(lines).None?
  {
    assert forall x :: x in Currencies(lines) ==> x == c;
  }

  lemma LimitRounds()
    ensures Sig20(LIMIT) == LIMIT && Sig20(LIMIT + 1) == LIMIT
  {
    LimitPositive();
    assert (LIMIT + 1) / 10 == LIMIT / 10 < LIMIT;
    assert Excess(LIMIT / 10) == 0;
    assert Excess(LIMIT + 1) == 1 + Excess((LIMIT + 1) / 10) == 1;
    assert Excess(LIMIT) == 1 + Excess(LIMIT / 10) == 1;
    assert Pow10(1) == 10 * Pow10(0) == 10;
  }

  // ---------------------------------------------------------------- which error is reported

  /** Line `i` is the first with a bad amount, and this is what is wrong with it. */
  predicate FaultAt(lines: seq<Line>, i: nat, f: Fault) {
    && i < |lines| && (forall j :: 0 <= j < i ==> GoodAmount(lines[j].amount))
    && match lines[i].amount
       case Malformed => f == NotDecimal(i)
       case NonFinite => f == NotPositive(i)
       case Finite(c, p) =>
         if c <= 0 then f == NotPositive(i) else p > MAX_PLACES && c % Pow10(p - MAX_PLACES) != 0 && f == TooManyPlaces(i)
  }

  lemma {:induction false} FirstFault(lines: seq<Line>) returns (i: nat)
    requires FirstBadAmount(lines).Some?
    ensures FaultAt(lines, i, FirstBadAmount(lines).value)
  {
    if FirstBadAmount(Init(lines)).Some? {
      i := FirstFault(Init(lines));
      assert lines[i] == Init(lines)[i];
    } else {
      i := |lines| - 1;
      assert forall j :: 0 <= j < i ==> lines[j] == Init(lines)[j];
      GoodAmountIff(Last(lines).amount);
    }
  }

  /** A currency's place in the order of first appearance: all lines before its first are of earlier ones. */
  lemma {:induction false} FirstLineOf(lines: seq<Line>, k: nat) returns (i: nat)
    requires k < |Currencies(lines)|
    ensures i < |lines| && lines[i].currency == Currencies(lines)[k]
    ensures forall j :: 0 <= j < i ==> lines[j].currency in Currencies(lines)[..k]
  {
    var before := Currencies(Init(lines));
    if k < |before| {
      i := FirstLineOf(Init(lines), k);
      assert Currencies(lines)[..k] == before[..k];
      assert forall j :: 0 <= j <= i ==> lines[j] == Init(lines)[j];
    } else {
      i := |lines| - 1;
      assert Currencies(lines)[..k] == before;
      assert forall j :: 0 <= j < i ==> Init(lines)[j].currency == lines[j].currency;
    }
  }

  lemma {:induction false} FirstUnbalancedAt(lines: seq<Line>, cs: seq<Code>) returns (k: nat)
    requires FirstUnbalanced(lines, cs).Some?
    ensures k < |cs| && FirstUnbalanced(lines, cs).value == cs[k]
    ensures Bucket20(lines, cs[k], Debit) != Bucket20(lines, cs[k], Credit)
    ensures forall c :: c in cs[..k] ==> Bucket20(lines, c, Debit) == Bucket20(lines, c, Credit)
  {
    if FirstUnbalanced(lines, Init(cs)).Some? {
      k := FirstUnbalancedAt(lines, Init(cs));
      assert cs[..k] == Init(cs)[..k];
    } else {
      k := |cs| - 1;
      assert cs[..k] == Init(cs);
    }
  }

  /**
   The fault reported, at any magnitude: too few lines; else the first line with a bad amount; else the currency
   of the first line whose currency does not add up.
   */
  lemma ValidateReports(lines: seq<Line>) returns (i: nat)
    ensures Validate(lines).Some? ==>
              var f := Validate(lines).value;
              if |lines| < 2 then f == TooFewLines
              else if !AllGood(lines) then FaultAt(lines, i, f)
              else
                && i < |lines| && f == Unbalanced(lines[i].currency)
                && Bucket20(lines, lines[i].currency, Debit) != Bucket20(lines, lines[i].currency, Credit)
                && forall j :: 0 <= j < i ==>
                     Bucket20(lines, lines[j].currency, Debit) == Bucket20(lines, lines[j].currency, Credit)
  {
    hide Bucket20, GoodAmount;
    i := 0;
    if |lines| >= 2 && FirstBadAmount(lines).Some? {
      i := FirstFault(lines);
    } else if |lines| >= 2 && Validate(lines).Some? {
      var k := FirstUnbalancedAt(lines, Currencies(lines));
      i := FirstLineOf(lines, k);
    }
  }

  lemma {:induction false} FirstWrongAt(accounts: map<int, AccountKey>, lines: seq<Line>)
    requires forall i :: 0 <= i < |lines| ==> lines[i].account in accounts
    ensures var w := FirstWrongCurrency(accounts, lines);
            w.Some? ==>
              && w.value < |lines| && accounts[lines[w.value].account].currency != lines[w.value].currency
              && forall j :: 0 <= j < w.value ==> accounts[lines[j].account].currency == lines[j].currency
  {
    if lines != [] {
      assert forall j :: 0 <= j < |Init(lines)| ==> Init(lines)[j] == lines[j];
      FirstWrongAt(accounts, Init(lines));
    }
  }

  lemma {:induction false} FirstOverdrawnAt(read: map<int, int>, accounts: map<int, AccountKey>, lines: seq<Line>, ids: seq<int>)
    requires Known(read, accounts, ids) && Ascending(ids)
    ensures var w := FirstOverdrawn(read, accounts, lines, ids);
            w.Some? ==>
              && w.value in ids && Overdrawn(read, accounts, lines, w.value)
              && forall id :: id in ids && id < w.value ==> !Overdrawn(read, accounts, lines, id)
  {
    hide Overdrawn;
    if ids != [] {
      assert forall id :: id in ids <==> id in Init(ids) || id == Last(ids);
      assert forall id :: id in Init(ids) ==> id < Last(ids);
      FirstOverdrawnAt(read, accounts, lines, Init(ids));
    }
  }

  /** Why an entry does not settle: a missing account; else the first line of a wrong currency; else the lowest account overdrawn. */
  lemma SettleReports(read: map<int, int>, accounts: map<int, AccountKey>, lines: seq<Line>)
    requires read.Keys == accounts.Keys && Settle(read, accounts, lines).Err?
    ensures var e := Settle(read, accounts, lines).error;
            if exists i :: 0 <= i < |lines| && lines[i].account !in accounts then e == UnknownAccount
            else if !LinesFit(accounts, lines) then
              && e.WrongCurrency? && e.line < |lines| && accounts[lines[e.line].account].currency != lines[e.line].currency
              && forall j :: 0 <= j < e.line ==> accounts[lines[j].account].currency == lines[j].currency
            else
              && e.Insufficient? && e.account in AccountIds(lines) && e.account in accounts
              && Overdrawn(read, accounts, lines, e.account)
              && forall id :: id in AccountIds(lines) && id < e.account ==> id in accounts && !Overdrawn(read, accounts, lines, id)
  {
    hide AccountIds, Overdrawn, FirstOverdrawn, FirstWrongCurrency;
    KnownIff(read, accounts, lines);
    if Known(read, accounts, AccountIds(lines)) {
      FirstWrongAt(accounts, lines);
      if LinesFit(accounts, lines) {
        FirstOverdrawnAt(read, accounts, lines, AccountIds(lines));
      }
    }
  }

  // ---------------------------------------------------------------- accounts off the journal

  lemma {:induction false} NetOfOthers(lines: seq<Line>, id: int)
    requires forall i :: 0 <= i < |lines| ==> lines[i].account != id
    ensures Net(lines, id) == 0
  {
    if lines != [] {
      assert Last(lines) == lines[|lines| - 1];
      NetOfOthers(Init(lines), id);
    }
  }

  lemma {:induction false} JournalOfOthers(accounts: map<int, AccountKey>, journal: seq<Entry>, id: int)
    requires forall e :: 0 <= e < |journal| ==> EntryOk(accounts, journal[e])
    requires id !in accounts
    ensures JournalNet(journal, id) == 0
  {
    if journal != [] {
      assert Last(journal) == journal[|journal| - 1];
      JournalOfOthers(accounts, Init(journal), id);
      NetOfOthers(Last(journal).lines, id);
    }
  }

  lemma {:induction false} RecordKeepsSums(lines: seq<Line>)
    ensures forall id :: Net(Record(lines), id) == Net(lines, id)
    ensures forall c, d :: Bucket(Record(lines), c, d) == Bucket(lines, c, d)
  {
    if lines != [] {
      RecordKeepsSums(Init(lines));
      assert Init(Record(lines)) == Record(Init(lines));
    }
  }

  // ---------------------------------------------------------------- posting

  /** An entry the books can take, said with exact sums. */
  ghost predicate Postable(b: Books, lines: seq<Line>) {
    && |lines| >= 2
    && AllGood(lines)
    && Balanced(lines)
    && LinesFit(b.accounts, lines)
    && (forall id :: id in b.accounts && id in b.balances && b.accounts[id].owner.Some? ==>
          b.balances[id] + Net(lines, id) >= 0)
  }

  lemma NewBalanceExact(balances: map<int, int>, lines: seq<Line>, id: int)
    requires AllGood(lines) && Headroom(balances, lines)
    requires id in AccountIds(lines) && id in balances
    ensures NewBalance(balances[id], lines, id) == balances[id] + Net(lines, id)
  {
    DeltaExact(lines, id);
    PlusExact(balances[id], Net(lines, id));
  }

  lemma KnownIff(read: map<int, int>, accounts: map<int, AccountKey>, lines: seq<Line>)
    requires read.Keys == accounts.Keys
    ensures Known(read, accounts, AccountIds(lines)) <==>
            forall i :: 0 <= i < |lines| ==> lines[i].account in accounts
  {
    assert forall i :: 0 <= i < |lines| ==> lines[i].account in AccountIds(lines);
  }

  /** The overdraft check looks at each touched account with an owner. */
  lemma SettleOkIff(read: map<int, int>, accounts: map<int, AccountKey>, lines: seq<Line>)
    requires read.Keys == accounts.Keys
    ensures Settle(read, accounts, lines).Ok? <==>
            && LinesFit(accounts, lines)
            && forall id :: id in AccountIds(lines) ==> id in accounts && !Overdrawn(read, accounts, lines, id)
  {
    KnownIff(read, accounts, lines);
  }

  /** What one entry does to one account it may or may not touch. */
  lemma MovedBalance(balances: map<int, int>, lines: seq<Line>, id: int)
    requires AllGood(lines) && Headroom(balances, lines) && id in balances
    ensures id in AccountIds(lines) ==> NewBalance(balances[id], lines, id) == balances[id] + Net(lines, id)
    ensures id !in AccountIds(lines) ==> Net(lines, id) == 0
  {
    if id in AccountIds(lines) {
      NewBalanceExact(balances, lines, id);
    } else {
      NetOfOthers(lines, id);
    }
  }

  /** Every account the entry does not touch has a net of zero; the others were recomputed exactly. */
  lemma SettleExactly(b: Books, lines: seq<Line>)
    requires BooksOk(b) && AllGood(lines) && Headroom(b.balances, lines)
    ensures Settle(b.balances, b.accounts, lines).Ok? <==>
            && LinesFit(b.accounts, lines)
            && (forall id :: id in b.accounts && b.accounts[id].owner.Some? ==>
                  b.balances[id] + Net(lines, id) >= 0)
    ensures Settle(b.balances, b.accounts, lines).Ok? ==>
              forall id :: id in b.balances ==>
                (b.balances + Settle(b.balances, b.accounts, lines).value)[id] == b.balances[id] + Net(lines, id)
  {
    hide AccountIds, Net, AllGood, Headroom, JournalNet, EntryOk, NewBalance;
    SettleOkIff(b.balances, b.accounts, lines);
    forall id | id in b.balances
      ensures id in AccountIds(lines) ==> NewBalance(b.balances[id], lines, id) == b.balances[id] + Net(lines, id)
      ensures id !in AccountIds(lines) ==> Net(lines, id) == 0
    {
      MovedBalance(b.balances, lines, id);
    }
  }

  lemma SettleTouchesKnown(b: Books, lines: seq<Line>)
    requires b.balances.Keys == b.accounts.Keys
    ensures Settle(b.balances, b.accounts, lines).Ok? ==>
              (b.balances + Settle(b.balances, b.accounts, lines).value).Keys == b.balances.Keys
  {
  }

  /** `postEntry` posts exactly the postable entries, and moves each balance by the entry's net. */
  lemma PostExactly(b: Books, kind: EntryType, ref: Ref, lines: seq<Line>)
    requires BooksOk(b) && Headroom(b.balances, lines)
    ensures Post(b, kind, ref, lines).Ok? <==> Postable(b, lines)
    ensures Post(b, kind, ref, lines).Ok? ==> Posted(b, Post(b, kind, ref, lines).value, Entry(kind, ref, Record(lines)))
  {
    hide Validate, Settle, AllGood, Balanced, LinesFit, AccountIds, SmallSums;
    ValidateExactly(lines);
    if Validate(lines).None? {
      SettleExactly(b, lines);
      SettleTouchesKnown(b, lines);
      RecordKeepsSums(lines);
    }
  }

  /** The tables after one more entry: rows appended, balances moved by the entry's net, nothing else. */
  ghost predicate Posted(before: Books, after: Books, e: Entry) {
    && after.index == before.index
    && after.accounts == before.accounts
    && after.journal == before.journal + [e]
    && after.balances.Keys == before.balances.Keys
    && forall id :: id in before.balances ==> after.balances[id] == before.balances[id] + Net(e.lines, id)
  }

  /** The tables gained this entry, whatever rounding did to balances; still nobody owes anything. */
  ghost predicate EntryAdded(before: Books, after: Books, e: Entry) {
    && after.index == before.index
    && after.accounts == before.accounts
    && after.journal == before.journal + [e]
    && after.balances.Keys == before.balances.Keys
    && NoDebt(after)
  }

  /** Posting records good lines and overdraws no owned account, at any magnitude. */
  lemma PostAdds(b: Books, kind: EntryType, ref: Ref, lines: seq<Line>)
    requires IndexOk(b) && NoDebt(b) && Post(b, kind, ref, lines).Ok?
    ensures EntryAdded(b, Post(b, kind, ref, lines).value, Entry(kind, ref, Record(lines)))
    ensures AllGood(lines) && LinesFit(b.accounts, lines)
  {
    hide AccountIds, NewBalance, Record, Balanced;
    SettleOkIff(b.balances, b.accounts, lines);
    SettleTouchesKnown(b, lines);
  }

  lemma RecordedEntryOk(accounts: map<int, AccountKey>, kind: EntryType, ref: Ref, lines: seq<Line>)
    requires |lines| >= 2 && AllGood(lines) && Balanced(lines) && LinesFit(accounts, lines)
    ensures EntryOk(accounts, Entry(kind, ref, Record(lines)))
  {
    RecordKeepsSums(lines);
    forall i | 0 <= i < |lines| ensures Value(lines[i].amount) > 0 {
      GoodAmountUnits(lines[i].amount);
    }
  }

  lemma PostedKeepsBooks(before: Books, after: Books, e: Entry)
    requires BooksOk(before) && Posted(before, after, e) && EntryOk(before.accounts, e)
    requires forall id :: id in before.accounts && before.accounts[id].owner.Some? ==>
               before.balances[id] + Net(e.lines, id) >= 0
    ensures BooksOk(after)
  {
    assert Init(after.journal) == before.journal && Last(after.journal) == e;
    forall id | id in after.balances ensures after.balances[id] == JournalNet(after.journal, id) {
      assert JournalNet(after.journal, id) == JournalNet(before.journal, id) + Net(e.lines, id);
    }
  }

  /** Posting keeps the books: the journal only grows, caches match it, no wallet is overdrawn. */
  lemma PostKeepsBooks(b: Books, kind: EntryType, ref: Ref, lines: seq<Line>)
    requires BooksOk(b) && Headroom(b.balances, lines)
    requires Post(b, kind, ref, lines).Ok?
    ensures BooksOk(Post(b, kind, ref, lines).value)
    ensures b.journal <= Post(b, kind, ref, lines).value.journal
  {
    PostExactly(b, kind, ref, lines);
    RecordedEntryOk(b.accounts, kind, ref, lines);
    RecordKeepsSums(lines);
    PostedKeepsBooks(b, Post(b, kind, ref, lines).value, Entry(kind, ref, Record(lines)));
  }

  lemma EnsureKeepsBooks(before: Books, after: Books, keys: set<AccountKey>)
    requires BooksOk(before) && Ensured(before, after, keys)
    requires forall k :: k in keys ==> KeyFits(k)
    ensures BooksOk(after)
  {
    hide IndexOk, Balanced;
    EnsureKeepsIndex(before, after, keys);
    EnsuredBalances(before, after, keys);
    forall e | 0 <= e < |after.journal| ensures EntryOk(after.accounts, after.journal[e]) {
      assert EntryOk(before.accounts, before.journal[e]);
    }
    forall id | id in after.balances ensures after.balances[id] == JournalNet(after.journal, id) {
      if id !in before.balances {
        JournalOfOthers(before.accounts, before.journal, id);
      }
    }
  }

  lemma EnsureKeepsIndex(before: Books, after: Books, keys: set<AccountKey>)
    requires IndexOk(before) && Ensured(before, after, keys)
    requires forall k :: k in keys ==> KeyFits(k)
    ensures IndexOk(after)
  {
  }

  /** New accounts have balance zero, old ones what they had. */
  lemma EnsuredBalances(before: Books, after: Books, keys: set<AccountKey>)
    requires BooksOk(before) && Ensured(before, after, keys)
    ensures forall id :: id in after.balances && id !in before.balances ==> id !in before.accounts && after.balances[id] == 0
    ensures forall id :: id in before.balances ==> after.balances[id] == before.balances[id]
    ensures forall id :: id in after.accounts && after.accounts[id].owner.Some? ==> id in after.balances && after.balances[id] >= 0
  {
  }

  // ---------------------------------------------------------------- each currency sums to zero

  ghost function IdsOf(accounts: map<int, AccountKey>, c: Code): set<int> {
    set id | id in accounts && accounts[id].currency == c
  }

  ghost function NetMap(ids: set<int>, base: map<int, int>, lines: seq<Line>): map<int, int>
    requires ids <= base.Keys
  {
    map id | id in ids :: base[id] + Net(lines, id)
  }

  /** A line moves its own currency's sum and no other. */
  lemma {:induction false} SumOfLines(accounts: map<int, AccountKey>, c: Code, base: map<int, int>, lines: seq<Line>)
    requires accounts.Keys <= base.Keys
    requires LinesFit(accounts, lines)
    ensures Sum(IdsOf(accounts, c), NetMap(accounts.Keys, base, lines)) ==
            Sum(IdsOf(accounts, c), base) + Bucket(lines, c, Credit) - Bucket(lines, c, Debit)
  {
    var ids := IdsOf(accounts, c);
    var m := NetMap(accounts.Keys, base, lines);
    if lines == [] {
      SumSame(ids, m, base);
    } else {
      var l := Last(lines);
      assert l == lines[|lines| - 1];
      SumOfLines(accounts, c, base, Init(lines));
      var before := NetMap(accounts.Keys, base, Init(lines));
      assert m == before[l.account := before[l.account] + Signed(l)];
      SumBump(ids, before, l.account, Signed(l));
    }
  }

  ghost function JournalMap(ids: set<int>, journal: seq<Entry>): map<int, int> {
    map id | id in ids :: JournalNet(journal, id)
  }

  lemma {:induction false} SumOfJournal(accounts: map<int, AccountKey>, c: Code, journal: seq<Entry>)
    requires forall e :: 0 <= e < |journal| ==> EntryOk(accounts, journal[e])
    ensures Sum(IdsOf(accounts, c), JournalMap(accounts.Keys, journal)) == 0
  {
    var m := JournalMap(accounts.Keys, journal);
    if journal == [] {
      SumZero(IdsOf(accounts, c), m);
    } else {
      var e := Last(journal);
      assert e == journal[|journal| - 1];
      SumOfJournal(accounts, c, Init(journal));
      SumOfLines(accounts, c, JournalMap(accounts.Keys, Init(journal)), e.lines);
      assert m == NetMap(accounts.Keys, JournalMap(accounts.Keys, Init(journal)), e.lines);
    }
  }

  /** Money is neither made nor lost: all balances of one currency together are zero. */
  lemma CurrencySumsToZero(b: Books, c: Code)
    requires BooksOk(b)
    ensures Sum(IdsOf(b.accounts, c), b.balances) == 0
  {
    SumOfJournal(b.accounts, c, b.journal);
    SumSame(IdsOf(b.accounts, c), JournalMap(b.accounts.Keys, b.journal), b.balances);
  }

  /** If every other account of the currency is non-negative, the remaining one is not positive. */
  lemma MirrorAccount(b: Books, c: Code, id: int)
    requires BooksOk(b) && id in IdsOf(b.accounts, c)
    requires forall x :: x in IdsOf(b.accounts, c) && x != id ==> b.balances[x] >= 0
    ensures b.balances[id] <= 0
  {
    var ids := IdsOf(b.accounts, c);
    CurrencySumsToZero(b, c);
    SumTake(ids, b.balances, id);
    SumNonNegative(ids - {id}, b.balances);
  }

  // ---------------------------------------------------------------- beyond twenty digits

  /** A balance lands where the journal says exactly when that is the twenty-digit value nearest to what is added up. */
  lemma BalanceTracksJournalIff(read: int, lines: seq<Line>, id: int)
    ensures NewBalance(read, lines, id) == read + Net(lines, id) <==>
            Nearest20(read + Delta20(lines, id), read + Net(lines, id))
    ensures Delta20(lines, id) == Net(lines, id) ==>
              (NewBalance(read, lines, id) == read + Net(lines, id) <==> Representable(read + Net(lines, id)))
  {
    hide Nearest20, Sig20, Representable;
    Sig20Nearest(read + Delta20(lines, id), read + Net(lines, id));
    Sig20ExactIff(read + Net(lines, id));
  }

  /** Line `k` is the only one on its account. */
  predicate OnlyLine(lines: seq<Line>, k: nat) {
    k < |lines| && forall j :: 0 <= j < |lines| && j != k ==> lines[j].account != lines[k].account
  }

  /** The one line on an account is its whole delta, rounded once. */
  lemma {:induction false} TouchedOnce(lines: seq<Line>, k: nat)
    requires OnlyLine(lines, k)
    ensures Net(lines, lines[k].account) == Signed(lines[k])
    ensures Delta20(lines, lines[k].account) == Sig20(Signed(lines[k]))
  {
    hide Sig20;
    var id := lines[k].account;
    if k == |lines| - 1 {
      NetOfOthers(Init(lines), id);
      DeltaOfOthers(Init(lines), id);
      Sig20Idempotent(Signed(lines[k]));
    } else {
      assert Init(lines)[k] == lines[k];
      TouchedOnce(Init(lines), k);
    }
  }

  /** For an account one line touches: what is added up is the stored balance and the line's rounded amount. */
  lemma LineTracksIff(lines: seq<Line>, k: nat, read: int)
    requires OnlyLine(lines, k)
    ensures var id, v := lines[k].account, Signed(lines[k]);
            && Net(lines, id) == v
            && (NewBalance(read, lines, id) == read + v <==> Nearest20(read + Sig20(v), read + v))
            && (Representable(v) ==> (NewBalance(read, lines, id) == read + v <==> Representable(read + v)))
  {
    hide NewBalance, Nearest20, Sig20, Representable, Net, Delta20;
    TouchedOnce(lines, k);
    BalanceTracksJournalIff(read, lines, lines[k].account);
    Sig20ExactIff(Signed(lines[k]));
  }

  lemma {:induction false} DeltaOfOthers(lines: seq<Line>, id: int)
    requires forall i :: 0 <= i < |lines| ==> lines[i].account != id
    ensures Delta20(lines, id) == 0
  {
    if lines != [] {
      assert Last(lines) == lines[|lines| - 1];
      DeltaOfOthers(Init(lines), id);
    }
  }

  /** At 10^12 a credit of one unit is journalled but does not reach the cached balance. */
  lemma BalanceDriftsAtLimit(id: int, other: int, c: Code)
    requires id != other
    ensures var lines := [Line(other, Debit, Fixed8(1), c), Line(id, Credit, Fixed8(1), c)];
            && Validate(lines).None?
            && Net(lines, id) == 1
            && NewBalance(LIMIT, lines, id) == LIMIT
  {
    var l1, l2 := Line(other, Debit, Fixed8(1), c), Line(id, Credit, Fixed8(1), c);
    LimitRounds();
    LimitPositive();
    SmallIsRepresentable(1);
    Snoc([], l1, c, id);
    Snoc([l1], l2, c, id);
    var lines := [l1] + [l2];
    assert lines == [l1, l2];
    GoodAmountIff(Fixed8(1));
    assert FirstBadAmount(lines).None?;
    SingleCurrency(lines, c);
  }
}
