/**
 The double-entry ledger as a function on its tables: what `LedgerService.postEntry` accepts, which
 error it reports, and which balances and journal rows it leaves.  Totals, deltas and balances go
 through the twenty-digit `Plus`, as the program's do; `Bucket` and `Net` are the exact sums they are
 compared with.
 */
module Ledger {
  import opened Wrappers
  import opened Decimals

  type UserId = nat
  type Code = string

  datatype Direction = Debit | Credit

  datatype AccountKind = UserWallet | Treasury | Fees | WithdrawalPending | TradeHold

  datatype EntryType =
    | DepositEntry | WithdrawalHoldEntry | WithdrawalSettleEntry | WithdrawalReleaseEntry
    | TransferEntry | FxConvertEntry | TradeEntry | TradeHoldEntry | TradeReleaseEntry

  /** What the unique indexes on `accounts` make the identity of an account row. */
  datatype AccountKey = AccountKey(owner: Option<UserId>, currency: Code, kind: AccountKind)

  /** The check constraint on `accounts`: wallets have an owner, system accounts have none. */
  predicate KeyFits(key: AccountKey) { key.kind == UserWallet <==> key.owner.Some? }

  datatype Line = Line(account: int, direction: Direction, amount: Numeral, currency: Code)

  /** The row an entry's metadata points back to, where it names one. */
  datatype Ref = NoRef | OrderRef(order: nat) | RequestRef(request: nat)

  datatype Entry = Entry(kind: EntryType, ref: Ref, lines: seq<Line>)

  /** The ledger's tables.  An entry's id is its position in the journal. */
  datatype Books = Books(
    index: map<AccountKey, int>,
    accounts: map<int, AccountKey>,
    balances: map<int, int>,
    journal: seq<Entry>)

  datatype Fault =
    | TooFewLines
    | NotDecimal(line: nat)
    | NotPositive(line: nat)
    | TooManyPlaces(line: nat)
    | Unbalanced(currency: Code)

  datatype PostError =
    | Invalid(fault: Fault)
    | UnknownAccount
    | WrongCurrency(line: nat)
    | Insufficient(account: int)

  // ---------------------------------------------------------------- sums over lines

  /** The amount in units, zero for text that is not a finite number. */
  function Value(n: Numeral): int {
    if n.Finite? then Units(n) else 0
  }

  function Signed(line: Line): int {
    if line.direction == Credit then Value(line.amount) else -Value(line.amount)
  }

  function Init<T>(s: seq<T>): seq<T>
    requires s != []
  {
    s[..|s| - 1]
  }

  function Last<T>(s: seq<T>): T
    requires s != []
  {
    s[|s| - 1]
  }

  /** The exact total of one currency's debits or credits. */
  function Bucket(lines: seq<Line>, c: Code, d: Direction): int {
    if lines == [] then 0
    else
      var l := Last(lines);
      Bucket(Init(lines), c, d) + if l.currency == c && l.direction == d then Value(l.amount) else 0
  }

  /** The same total as `bucket.debit` and `bucket.credit` compute it. */
  function Bucket20(lines: seq<Line>, c: Code, d: Direction): int {
    if lines == [] then 0
    else
      var l := Last(lines);
      var before := Bucket20(Init(lines), c, d);
      if l.currency == c && l.direction == d then Plus(before, Value(l.amount)) else before
  }

  /** Credits minus debits of one account, exactly. */
  function Net(lines: seq<Line>, id: int): int {
    if lines == [] then 0
    else
      var l := Last(lines);
      Net(Init(lines), id) + if l.account == id then Signed(l) else 0
  }

  /** The same delta as `deltasByAccountId` holds it. */
  function Delta20(lines: seq<Line>, id: int): int {
    if lines == [] then 0
    else
      var l := Last(lines);
      var before := Delta20(Init(lines), id);
      if l.account == id then Plus(before, Sig20(Signed(l))) else before
  }

  function JournalNet(journal: seq<Entry>, id: int): int {
    if journal == [] then 0 else JournalNet(Init(journal), id) + Net(Last(journal).lines, id)
  }

  // ---------------------------------------------------------------- validation

  predicate GoodAmount(n: Numeral) {
    n.Finite? && n.coefficient > 0 && DecimalPlaces(n.coefficient, n.places) <= MAX_PLACES
  }

  function AmountFault(n: Numeral, i: nat): (f: Option<Fault>)
    ensures f.None? <==> GoodAmount(n)
  {
    if n.Malformed? then Some(NotDecimal(i))
    else if n.NonFinite? || n.coefficient <= 0 then Some(NotPositive(i))
    else if DecimalPlaces(n.coefficient, n.places) > MAX_PLACES then Some(TooManyPlaces(i))
    else None
  }

  /** The first line's fault, in line order. */
  function FirstBadAmount(lines: seq<Line>): (f: Option<Fault>)
    ensures f.None? <==> forall i :: 0 <= i < |lines| ==> GoodAmount(lines[i].amount)
  {
    if lines == [] then None
    else
      var before := FirstBadAmount(Init(lines));
      if before.Some? then before else AmountFault(Last(lines).amount, |lines| - 1)
  }

  /** The currencies of the lines in order of first appearance: the keys of `totalsByCurrency`. */
  function Currencies(lines: seq<Line>): (cs: seq<Code>)
    ensures forall c :: c in cs <==> exists i :: 0 <= i < |lines| && lines[i].currency == c
  {
    if lines == [] then []
    else
      var before := Currencies(Init(lines));
      if Last(lines).currency in before then before else before + [Last(lines).currency]
  }

  function FirstUnbalanced(lines: seq<Line>, cs: seq<Code>): (c: Option<Code>)
    ensures c.None? <==> forall x :: x in cs ==> Bucket20(lines, x, Debit) == Bucket20(lines, x, Credit)
  {
    if cs == [] then None
    else
      var before := FirstUnbalanced(lines, Init(cs));
      assert forall x :: x in cs <==> x in Init(cs) || x == Last(cs);
      if before.Some? then before
      else if Bucket20(lines, Last(cs), Debit) != Bucket20(lines, Last(cs), Credit) then Some(Last(cs))
      else None
  }

  /** `validateEntryLines`: the exception it throws, if any. */
  function Validate(lines: seq<Line>): (f: Option<Fault>) {
    if |lines| < 2 then Some(TooFewLines)
    else
      var bad := FirstBadAmount(lines);
      if bad.Some? then bad
      else
        var c := FirstUnbalanced(lines, Currencies(lines));
        if c.Some? then Some(Unbalanced(c.value)) else None
  }

  // ---------------------------------------------------------------- posting

  predicate Ascending(ids: seq<int>) {
    forall i, j :: 0 <= i < j < |ids| ==> ids[i] < ids[j]
  }

  function InsertSorted(ids: seq<int>, id: int): (r: seq<int>)
    requires Ascending(ids)
    ensures Ascending(r)
    ensures forall x :: x in r <==> x in ids || x == id
    ensures |r| <= |ids| + 1
  {
    if ids == [] then [id]
    else if id < ids[0] then [id] + ids
    else if id == ids[0] then ids
    else
      var rest := InsertSorted(ids[1..], id);
      assert forall x :: x in ids[1..] ==> ids[0] < x;
      assert forall x :: x in rest ==> ids[0] < x;
      assert forall i :: 0 <= i < |rest| ==> ids[0] < rest[i] by {
        assert forall i :: 0 <= i < |rest| ==> rest[i] in rest;
      }
      assert ids == [ids[0]] + ids[1..];
      [ids[0]] + rest
  }

  /** The accounts the lines touch, each once, in ascending order: the order they are locked in. */
  function AccountIds(lines: seq<Line>): (ids: seq<int>)
    ensures Ascending(ids)
    ensures forall x :: x in ids <==> exists i :: 0 <= i < |lines| && lines[i].account == x
    ensures |ids| <= |lines|
  {
    if lines == [] then [] else InsertSorted(AccountIds(Init(lines)), Last(lines).account)
  }

  function FirstWrongCurrency(accounts: map<int, AccountKey>, lines: seq<Line>): (w: Option<nat>)
    requires forall i :: 0 <= i < |lines| ==> lines[i].account in accounts
    ensures w.None? <==>
            forall i :: 0 <= i < |lines| ==> accounts[lines[i].account].currency == lines[i].currency
  {
    if lines == [] then None
    else
      var before := FirstWrongCurrency(accounts, Init(lines));
      if before.Some? then before
      else if accounts[Last(lines).account].currency != Last(lines).currency then Some(|lines| - 1)
      else None
  }

  /** The balance `postEntry` writes for an account it read as `read`. */
  function NewBalance(read: int, lines: seq<Line>, id: int): int {
    Plus(read, Delta20(lines, id))
  }

  predicate Overdrawn(read: map<int, int>, accounts: map<int, AccountKey>, lines: seq<Line>, id: int)
    requires id in read && id in accounts
  {
    accounts[id].owner.Some? && NewBalance(read[id], lines, id) < 0
  }

  function FirstOverdrawn(read: map<int, int>, accounts: map<int, AccountKey>, lines: seq<Line>, ids: seq<int>)
    : (w: Option<int>)
    requires forall id :: id in ids ==> id in read && id in accounts
    ensures w.None? <==> forall id :: id in ids ==> !Overdrawn(read, accounts, lines, id)
  {
    if ids == [] then None
    else
      var before := FirstOverdrawn(read, accounts, lines, Init(ids));
      if before.Some? then before
      else if Overdrawn(read, accounts, lines, Last(ids)) then Some(Last(ids))
      else None
  }

  /** One row of the locking join exists for each id. */
  predicate Known(read: map<int, int>, accounts: map<int, AccountKey>, ids: seq<int>) {
    forall id :: id in ids ==> id in read && id in accounts
  }

  /** The decision on an entry and the balance rows to write, from the rows read under lock. */
  function Settle(read: map<int, int>, accounts: map<int, AccountKey>, lines: seq<Line>)
    : Result<map<int, int>, PostError>
  {
    var ids := AccountIds(lines);
    if !Known(read, accounts, ids) then Err(UnknownAccount)
    else
      var wrong := FirstWrongCurrency(accounts, lines);
      if wrong.Some? then Err(WrongCurrency(wrong.value))
      else
        var overdrawn := FirstOverdrawn(read, accounts, lines, ids);
        if overdrawn.Some? then Err(Insufficient(overdrawn.value))
        else Ok(map id | id in ids :: NewBalance(read[id], lines, id))
  }

  /** What numeric(30,8) stores and gives back for the amount of a line. */
  function Record(lines: seq<Line>): (r: seq<Line>)
    ensures |r| == |lines|
    ensures forall i :: 0 <= i < |lines| ==> r[i] == lines[i].(amount := Fixed8(Value(lines[i].amount)))
  {
    if lines == [] then []
    else Record(Init(lines)) + [Last(lines).(amount := Fixed8(Value(Last(lines).amount)))]
  }

  function WriteEntry(b: Books, kind: EntryType, ref: Ref, lines: seq<Line>, written: map<int, int>): Books {
    b.(balances := b.balances + written, journal := b.journal + [Entry(kind, ref, Record(lines))])
  }

  /** `postEntry` run alone: the new tables, or the exception with nothing changed. */
  function Post(b: Books, kind: EntryType, ref: Ref, lines: seq<Line>): Result<Books, PostError> {
    var fault := Validate(lines);
    if fault.Some? then Err(Invalid(fault.value))
    else
      match Settle(b.balances, b.accounts, lines)
      case Err(e) => Err(e)
      case Ok(written) => Ok(WriteEntry(b, kind, ref, lines, written))
  }

  /** `after` is `before` with the missing accounts of `keys` created, each with balance zero. */
  ghost predicate Ensured(before: Books, after: Books, keys: set<AccountKey>) {
    && after.journal == before.journal
    && before.index.Keys <= after.index.Keys
    && after.index.Keys == before.index.Keys + keys
    && (forall k :: k in before.index ==> after.index[k] == before.index[k])
    && before.accounts.Keys <= after.accounts.Keys
    && (forall id :: id in before.accounts ==> after.accounts[id] == before.accounts[id])
    && (forall k :: k in after.index ==> after.index[k] in after.accounts && after.accounts[after.index[k]] == k)
    && (forall id :: id in after.accounts ==>
          after.accounts[id] in after.index && after.index[after.accounts[id]] == id)
    && after.balances.Keys == before.balances.Keys + (after.accounts.Keys - before.accounts.Keys)
    && (forall id :: id in after.balances ==>
          after.balances[id] == if id in before.balances then before.balances[id] else 0)
  }

  // ---------------------------------------------------------------- when twenty digits are enough

  /** Every partial sum the validator and the delta loop form stays below 10^12. */
  predicate SmallSums(lines: seq<Line>) {
    lines == [] || (
      && SmallSums(Init(lines))
      && Bucket(lines, Last(lines).currency, Last(lines).direction) < LIMIT
      && Abs(Net(lines, Last(lines).account)) < LIMIT)
  }

  /** ... and so does every balance the entry would write. */
  predicate Headroom(balances: map<int, int>, lines: seq<Line>) {
    && SmallSums(lines)
    && forall id :: id in AccountIds(lines) && id in balances ==> Abs(balances[id] + Net(lines, id)) < LIMIT
  }
}
