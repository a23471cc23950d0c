# FlowPay: verified model of the money core

FlowPay's backend moves money between user wallets, pooled system accounts and a treasury. This Dafny
project models that backend's transactional core and proves what holds over every run of it:

- **Ledger** (`Ledger`, `LedgerLaws`): `validateEntryLines`, `postEntry`, `ensureAccount` on accounts,
  journal and cached balances, with decimal.js' twenty-digit rounding (`Decimals`) written out. Amounts are
  counted in units of 10^-8, as `numeric(30,8)` stores them.
- **Operations** (`Trading`, `System`): deposits, transfers, conversions, market and limit orders,
  cancellation, the fill worker, withdrawal requests and their approval or rejection, each as the plan of one
  entry with the row and the outbox event written in the same transaction.
- **Whole runs** (`Invariant`, `Effects`, `Preservation`, `RowPreservation`, `Runs`): one invariant over accounts,
  journal, orders, requests and outbox, kept by every operation, and what follows.
- **Success and rounding** (`PostingLaws`, `Outcomes`, `Rounding`): exactly when an operation is carried out and
  what it leaves, at any magnitude, and what rounding does to balances.
- **Promises** (`Promises`, `Reals`): for each operation, told from the call alone: how it ends, which accounts its
  entry moves by how much, compared with exact and real arithmetic, and the row it stores.
- **Interleaving** (`Interleaving`, `Refinement`, `Concurrency`, `ConnectionPool`): any number of operations at
  once, one statement at a time, with row locks, balance locks and a finite connection pool; every step refines
  the atomic operations, every run ends, and which calls can run the pool dry is told before they begin.
- **Services** (`Database`, `Services`, `ScanLaws`, `IdempotencyService`, `Delivery`): the services themselves as
  methods over mutable tables, loops included, proved against the functions above.
- **Idempotency keys** (`Idempotency`, `KeyedLedger`): one key's row under any interleaving of calls, with failing
  statements and crashes, alone and joined to the ledger.
- **Outbox to email** (`Messaging`, `EndToEnd`): publishers, broker and consumers with crash points, alone and
  joined to the ledger.
- **Rates and conversions** (`Fx`) and **payload hashing** (`HashPayload`).

Four promises turn out not to hold without a condition. For each the project gives the run that breaks it and
the exact condition:

- *One key, one execution.* `Idempotency.PromptAtMostOnce`: it holds while no claim grows old and nothing fails
  unexpectedly. `Idempotency.FreshClaimReclaimed`, `Idempotency.FailedFinalizePostsTwice` and
  `Idempotency.CrashPostsTwice` are runs in which a key's handler posts twice. `Idempotency.NoMoreStartsIff` says
  exactly when no further execution is possible.
- *A replay answers the request it was stored for.* `Idempotency.WrongResponseReplayed` is the run,
  `Idempotency.ResponseBelongsIff` the condition.
- *Exactly one email per event* (the repository's README.md, line 519). `Messaging.EmailLost` is a run that
  claims the event and never mails it; `Messaging.MailStillComesIff` and `Messaging.ExactlyOneIff` give the
  exact conditions. At most one email always holds.
- *Entries balance and caches match the journal.* Beyond twenty significant digits decimal.js rounds:
  `Rounding.TransferCreatesAUnit` and `Rounding.DepositLeavesNoTrace` are the inputs, carried out on the tables,
  `Rounding.PlannedEntryBalancesIff` and `Rounding.PostedBalanceTracksIff` the conditions, over every operation.
  A transfer can also be refused however much the sender has (`Rounding.TransferRefused`);
  `PostingLaws.SucceedsIff` says exactly when any operation is carried out.

What depends on amounts being exact (balances equal the journal, pools equal the open rows, currencies sum to
zero) therefore carries the premise `Roomy`: no sum an entry forms, and no balance it leaves, reaches 10^12.
Everything else (which operations, fills, cancellations and decisions succeed, what a scan of the fill worker
achieves, rows that match entries, one resolution each, outbox, serialisability, termination, no wallet below
zero) has no such premise: it holds in every state that operations can reach.

Locks alone never deadlock, but the connection pool can: conversions, market orders, placements, cancellations,
fills and decisions open their transaction first and then create accounts, read currencies or look up a user on a
second connection, and the database module leaves the pool at its default size. Whether calls made at once can stop
for good is decided by counting them:

- Calls in any mixture that look up no user, or whose look-ups share no account with the others, and calls that
  all open first: exactly when at least as many of them open first as there are connections
  (`ConnectionPool.PoolRunsDryIff`). Deposits, transfers and withdrawal
  requests alone never stop while there is any connection.
- One conversion or market order among calls that lock one of its accounts first: exactly when there are at least as
  many calls as connections (`ConnectionPool.LookUpRunsDryIff`). It has posted and needs its user look-up while
  the others wait for its locks with the last connections.

Account ids are integers in the database's id order. Database semantics assumed: a locked read returns the last
committed value, locks last to the end of the transaction, a transaction that throws leaves nothing behind, and
`ensureAccount` commits on its own. Rates, clocks, ids and the outcome of every call to another system are
parameters, so each theorem holds for all of them.

`dafny verify dfyconfig.toml` checks the project.

## Model

| member | source | states |
|---|---|---|
| Decimals.HalfEvenIff | backend/src/fx/fx.service.ts:212-223 | `HalfEven` returns a nearest value, ties to even, and it is the only such value |
| Decimals.Sig20ExactIff | backend/src/ledger/ledger.service.ts:89-111 | twenty-digit rounding loses nothing exactly when the number has at most twenty significant digits |
| Decimals.Sig20Nearest | backend/src/ledger/ledger.service.ts:89-111 | a decimal.js result is the twenty-digit value nearest to the exact one, halves away from zero, and nothing else is |
| Decimals.Sig20Idempotent | backend/src/ledger/ledger.service.ts:100-111 | a value that has been rounded once is not changed by rounding it again |
| Decimals.Sig20Error | backend/src/ledger/ledger.service.ts:89-111 | one decimal.js operation is off by at most one part in 2*10^19 |
| Decimals.DecimalPlacesAtMost | backend/src/ledger/ledger-entry-validator.ts:28-32 | `decimalPlaces() <= p` exactly when the digits past the p-th divide out, however the text was written |
| Decimals.RoundToIdempotent | backend/src/trading/order-math.util.ts:20-37 | rounding a stored amount again to the same places changes nothing |
| Decimals.RoundToIff | backend/src/trading/order-math.util.ts:20-37 | a rounded amount is the multiple of the last place nearest to the given one, ties to the even one, and nothing else is |
| LedgerLaws.GoodAmountIff | backend/src/ledger/ledger-entry-validator.ts:15-32 | an amount is accepted exactly when finite, positive and of at most eight decimals |
| LedgerLaws.ValidateExactly | backend/src/ledger/ledger-entry-validator.ts:8-55 | within twenty digits exactly the lists of two or more good amounts whose exact debits equal credits per currency are accepted |
| LedgerLaws.ValidateReports | backend/src/ledger/ledger-entry-validator.ts:8-55 | which fault is reported: too few lines, else the first line with a bad amount and what is wrong with it, else the currency of the first line whose currency does not add up |
| LedgerLaws.SettleReports | backend/src/ledger/ledger.service.ts:72-111 | why an entry does not settle: a missing account, else the first line of a wrong currency, else the lowest account it would overdraw |
| LedgerLaws.PostExactly | backend/src/ledger/ledger.service.ts:43-146 | an entry posts exactly when well formed, balanced, on known accounts of the right currency, and leaving no owned account negative; then every balance moves by the entry's net and nothing else changes |
| LedgerLaws.PostAdds | backend/src/ledger/ledger.service.ts:43-146 | at any magnitude a posted entry has good amounts on accounts of its currencies, is appended once, and leaves no owned account negative |
| LedgerLaws.PostKeepsBooks | backend/src/ledger/ledger.service.ts:55-146 | within twenty digits posting keeps: cached balance = credits minus debits of the journal, no owned account negative, every recorded entry balanced |
| LedgerLaws.EnsureKeepsBooks | backend/src/ledger/ledger.service.ts:152-191 | creating accounts keeps the same |
| LedgerLaws.CurrencySumsToZero | backend/src/ledger/ledger-entry-validator.ts:48-54 | in sound books the balances of each currency sum to zero over all accounts |
| LedgerLaws.BalanceTracksJournalIff | backend/src/ledger/ledger.service.ts:89-111 | for any lines: the written balance is the journal's exactly when that is the twenty-digit value nearest to the stored balance plus the rounded delta |
| LedgerLaws.BalanceDriftsAtLimit | backend/src/ledger/ledger.service.ts:100-111 | a concrete credit that is journalled and never reaches the cached balance |
| Trading.SplitPairIff | backend/src/trading/pair.util.ts:14-22 | a pair splits exactly when it is two slash-free codes around one slash, and into upper-case codes |
| Trading.SplitUndoesJoin | backend/src/trading/orders.service.ts:149 | the stored `BASE/QUOTE` string splits back into its two codes |
| Trading.QuoteAmountSign | backend/src/trading/orders-worker.service.ts:103-106 | quantity times price as the worker rounds it is never negative, and zero exactly when the exact product is at most half a unit of the quote currency |
| Reals.QuoteAmountNear | backend/src/trading/orders-worker.service.ts:103-106 | what a fill pays or earns is within half a quote unit of quantity times limit price, up to one twenty-digit rounding |
| Reals.MarketAmountNear | backend/src/trading/orders.service.ts:70-86 | what a market order pays or earns is within half a quote unit of quantity times rate, up to one twenty-digit rounding |
| Reals.FixedRateNear | backend/src/trading/orders.service.ts:98-114 | the price stored with a market order is within half a quote unit of the rate |
| Reals.CrossedIff | backend/src/trading/orders-worker.service.ts:81-88 | a limit counts as crossed exactly when, over the reals, the rate is at most the limit price of a BUY or at least that of a SELL |
| Reals.BetterRateReaches | backend/src/trading/orders-worker.service.ts:81-88 | a limit crossed at one rate is crossed at every better one |
| Effects.ExecuteRecords | backend/src/ledger/ledger.service.ts:43-146 | at any magnitude a planned entry either commits with all its rows or leaves the database unchanged |
| Effects.ExecuteMoves | backend/src/ledger/ledger.service.ts:43-146 | within twenty digits it also moves every account by its net |
| Effects.BalanceMoves | backend/src/ledger/ledger.service.ts:100-143 | each account, existing or not, moves by the net of the legs on it |
| Preservation.ResolvedPairStored | backend/src/trading/orders.service.ts:310-322 | a resolved pair, joined and stored, resolves to the same two currencies |
| Preservation.PlanFits | backend/src/trading/orders-worker.service.ts:78-130 | whatever an operation plans from the rows it locked matches those rows: amounts, back references, event |
| Preservation.HoldPoolMoves | backend/src/trading/orders.service.ts:160-210 | every operation moves `trade_hold` by what it changes the sum of open holds |
| Preservation.PendingPoolMoves | backend/src/withdrawals/withdrawals.service.ts:48-83 | every operation moves `withdrawal_pending` by what it changes the sum of pending requests |
| RowPreservation.RowsKept | backend/src/trading/orders-worker.service.ts:126-130 | orders and requests keep matching their journal entries: hold, fill, release, settlement |
| RowPreservation.ResolvedKept | backend/src/trading/orders.service.ts:222-287 | one TRADE or TRADE_RELEASE entry per resolved limit order and none per open one; likewise for requests |
| RowPreservation.OutboxKept | backend/src/common/outbox/outbox.service.ts:16-26 | every operation keeps outbox rows and announced entries in step |
| Runs.RunSound | backend/src/trading/orders-worker.service.ts:67-150 | in every run from empty tables, at any magnitude, rows match their entries, holds and resolving entries are one for one, the outbox matches the journal, and no owned account is negative |
| Runs.RunKeeps | backend/src/ledger/ledger.service.ts:89-143 | in every run within twenty digits balances also equal the journal and pools the open rows |
| Runs.PoolsNonNegative | backend/src/trading/orders-worker.service.ts:108-124 | the unchecked pools never go negative |
| Runs.TreasuryNeverPositive | backend/src/deposits/deposits.service.ts:52-86 | with fees non-negative, the treasury of each currency is never above zero |
| Runs.RunAdvances | backend/src/trading/orders.service.ts:230-286 | between any two moments of any run the journal and outbox only grow, each order leaves OPEN at most once, each request PENDING at most once, and nothing else of them changes |
| PostingLaws.ValidLegsIff | backend/src/ledger/ledger-entry-validator.ts:8-55 | at any magnitude a planned entry is valid exactly when it has two or more lines, all positive, and its rounded totals agree in every currency |
| PostingLaws.LegsPostIff | backend/src/ledger/ledger.service.ts:43-146 | at any magnitude lines on accounts of their own post exactly when they are valid and every owned account that is debited has the rounded amount |
| PostingLaws.MovePostsIff | backend/src/withdrawals/withdrawals.service.ts:49-70 | a two-line move posts exactly when positive and, from an owned account, covered, at any magnitude |
| PostingLaws.SwapPostsIff | backend/src/common/trade-execution/trade-execution.service.ts:48-83 | a four-line swap posts exactly when both amounts are positive and an owned source can pay, at any magnitude |
| PostingLaws.SucceedsIff | backend/src/ledger/ledger.service.ts:43-146 | in every sound state, whatever the operation: it is carried out exactly when it plans an entry with positive amounts, the wallets it debits can pay, the row passes its check constraints and, for a transfer, amount and fee come to the same sum however rounded |
| PostingLaws.SuccessLeaves | backend/src/ledger/ledger.service.ts:99-146 | it then leaves on each account of a line the rounded sum of the stored balance and the rounded amount, no other balance changed, one more journal entry and the rows planned |
| Promises.DepositPromise | backend/src/deposits/deposits.service.ts:24-89 | a deposit moves exactly the amount from treasury to wallet, announces it, and is refused exactly for an unknown currency, above the cap, or at zero |
| Promises.TransferPromise | backend/src/transfers/transfers.service.ts:55-170 | the recipient gets the amount, the fee pool the fee, the sender pays both together; each refusal with its error |
| Promises.ConvertPromise | backend/src/fx/fx.service.ts:124-223 | a conversion takes the half-even rounding of the amount and pays it at the rate less the configured spread, within half a target unit up to two twenty-digit roundings; each refusal with its error |
| Promises.ConvertAndBack | backend/src/fx/fx.service.ts:192-236 | two conversions, there and later all of it back, on whatever states lie between: their entries leave the wallet with at most the two half units more |
| Promises.MarketPromise | backend/src/trading/orders.service.ts:55-130 | a market BUY takes quantity times rate and gives the rounded quantity, a SELL the reverse; the stored row has the request's user, pair, side and quantity, and the rate as price |
| Promises.PlacePromise | backend/src/trading/orders.service.ts:137-213 | a placement stores the request's user, pair, side, quantity and price, rounded to their currencies' places, and sets aside the quantity or, buying, quantity times price |
| Promises.CancelPromise | backend/src/trading/orders.service.ts:220-290 | exactly the owner can cancel, exactly while the order is open; what was set aside goes back to the wallet, and of all rows only the status changes |
| Promises.FillPromise | backend/src/trading/orders-worker.service.ts:67-150 | a fill pays what was set aside to the treasury and gives the owner the other side at the limit price; each way an attempt can end, with its condition |
| Promises.RequestPromise | backend/src/withdrawals/withdrawals.service.ts:27-86 | a request stores and sets aside exactly the amount asked for; each refusal with its error |
| Promises.DecisionPromise | backend/src/withdrawals/withdrawals.service.ts:88-222 | exactly a pending request can be decided: approved to the treasury, rejected back to its owner, with all decision fields and the event |
| Promises.MovesExactly | backend/src/ledger/ledger.service.ts:99-143 | below 10^12 a balance moves by exactly the amount the entry gives its account |
| Outcomes.OpenIsLimit | backend/src/trading/orders-worker.service.ts:74-80 | an open order is a limit order with a positive limit price, so `limitPrice!` is safe |
| Outcomes.FillsExactly | backend/src/trading/orders-worker.service.ts:67-150 | in every sound state, at any magnitude, `tryFill` fills exactly the open orders whose limit the rate has reached, as real numbers, and that are BUY or worth more than half a quote unit; otherwise nothing changes |
| Outcomes.FillSucceedsIff | backend/src/trading/orders-worker.service.ts:95-130 | for an order whose limit is reached, at any magnitude: the exact rows after success, and when a SELL fails |
| Outcomes.DecidedRequestNet | backend/src/withdrawals/withdrawals.service.ts:105-126 | hold plus release cancel on every account; hold plus settle move the amount from wallet to treasury |
| Outcomes.CancelledOrderNet | backend/src/trading/orders.service.ts:262-283 | hold plus release of a cancelled order cancel on every account |
| Outcomes.FilledOrderIsSwap | backend/src/trading/orders-worker.service.ts:108-124 | hold plus fill move every account as one direct swap at the limit price would |
| Outcomes.HoldRecomputes | backend/src/trading/order-math.util.ts:16-37 | recomputing from the stored pair, quantity and price gives the currency and amount held at placement |
| Outcomes.OutboxBijection | backend/src/common/outbox/outbox.service.ts:16-26 | outbox rows and journal entries of announced kinds correspond one to one |
| Rounding.PlannedEntryBalancesIff | backend/src/transfers/transfers.service.ts:97-121 | of the entries the operations post, all have equal exact debits and credits except exactly the transfers whose amount and fee together need more than twenty digits |
| Rounding.TransferCreatesAUnit | backend/src/transfers/transfers.service.ts:97-121 | a transfer of 10^12 with a fee of one unit from a wallet of 10^12 is carried out: the sender has nothing, the recipient 10^12, and the fee pool a unit nobody paid |
| Rounding.DepositLeavesNoTrace | backend/src/deposits/deposits.service.ts:52-86 | a deposit of one unit to a wallet of 10^12 is carried out and journalled, and neither balance moves |
| Rounding.TransferRefused | backend/src/transfers/transfers.service.ts:97-121 | a transfer of 10^12 and four units with a fee of one unit is refused, however much the sender has |
| Rounding.RepresentableAddsUp | backend/src/transfers/transfers.service.ts:97-121 | no transfer of an amount of at most twenty digits is refused in that way |
| Rounding.PostedBalanceTracksIff | backend/src/ledger/ledger.service.ts:89-111 | for every operation, line, stored balance and amount: exactly when the written balance is the journal's; for amounts of at most twenty digits, exactly when the new balance has at most twenty |
| Database.Store.Rollback | backend/src/trading/orders-worker.service.ts:67-68 | restores all seven tables to saved ones; `Services.FillTransaction` uses it where its callback throws |
| Database.ValidateEntryLines | backend/src/ledger/ledger-entry-validator.ts:8-55 | the two loops over the buckets find the same first fault as the specification |
| Database.LockRows | backend/src/ledger/ledger.service.ts:59-70 | exactly one row, with the committed balance, for each touched account that exists, in ascending id |
| Database.RowsForAll | backend/src/ledger/ledger.service.ts:72-76 | a row is missing exactly when an account is |
| Database.CheckCurrencies | backend/src/ledger/ledger.service.ts:80-87 | finds the first line whose currency is not its account's |
| Database.Deltas | backend/src/ledger/ledger.service.ts:89-97 | the loop's map has exactly the touched accounts as keys and holds each one's rounded delta |
| Database.NewBalances | backend/src/ledger/ledger.service.ts:99-111 | the new balance of each account, or the first owned account the entry would overdraw |
| Database.WriteBalances | backend/src/ledger/ledger.service.ts:135-143 | overwrites exactly the given balance rows |
| Database.SettleEntry | backend/src/ledger/ledger.service.ts:59-111 | lock, check and price an entry as the atomic decision does, touching nothing |
| Database.PostEntry | backend/src/ledger/ledger.service.ts:43-146 | posts exactly as the atomic `Post`, or throws the same error and changes nothing |
| Database.InsertAccount | backend/src/ledger/ledger.service.ts:165-180 | creates both rows at balance zero unless the account is there |
| Database.EnsureAccount | backend/src/ledger/ledger.service.ts:152-191 | returns the one account of the key, creating it at zero if missing, also when another caller wins the race to insert it; nothing else changes |
| Services.CallKeeps | backend/src/ledger/ledger.service.ts:43-146 | a service call with the contract below is a step of a run: tables stay sound, rows resolve at most once, and within twenty digits the whole invariant is kept |
| Services.ExecuteSwap | backend/src/common/trade-execution/trade-execution.service.ts:24-90 | source pays treasury, treasury pays the wallet, in one entry |
| Services.DepositFunds | backend/src/deposits/deposits.service.ts:24-89 | a deposit is the atomic operation, after creating at most its two accounts |
| Services.TransferEntryLines | backend/src/transfers/transfers.service.ts:77-121 | the lines of a transfer; the fee line exactly when there is a fee |
| Services.ExecuteTransfer | backend/src/transfers/transfers.service.ts:55-170 | likewise for a transfer, its entry and event in one transaction |
| Services.ExecuteConvert | backend/src/fx/fx.service.ts:124-190 | likewise for a conversion |
| Services.ExecuteMarketOrder | backend/src/trading/orders.service.ts:55-130 | likewise for a market order: swap, filled row and event together or not at all |
| Services.PlaceLimitOrder | backend/src/trading/orders.service.ts:137-213 | likewise for a placement: hold and open row together or not at all |
| Services.CancelOpenOrder | backend/src/trading/orders.service.ts:220-290 | likewise for a cancellation, deciding on the locked row |
| Services.FillTransaction | backend/src/trading/orders-worker.service.ts:108-148 | the swap, the filled row and its event together; nothing of them if the callback throws after posting |
| Services.TryFillOrder | backend/src/trading/orders-worker.service.ts:67-150 | a fill decided on the status read under the lock: filled, declined, or an exception with nothing changed but accounts created |
| Services.FindOpenLimits | backend/src/trading/orders-worker.service.ts:45-47 | the candidates of a scan are exactly the open limit orders, in table order |
| Services.ScanAndFillOpenOrders | backend/src/trading/orders-worker.service.ts:44-59 | every order open at the start is tried once, in turn; attempts that throw are caught and exactly those are logged |
| ScanLaws.AttemptAchieves | backend/src/trading/orders-worker.service.ts:67-150 | at any magnitude one attempt returns true and fills its order exactly when it should, and touches no other row |
| ScanLaws.ScanAchieves | backend/src/trading/orders-worker.service.ts:44-59 | at any magnitude, after a scan each order open at its start is filled at its limit price exactly when its attempt did not break, its rate had crossed and it is a BUY or worth more than half a quote unit; all other rows are as before |
| ScanLaws.ScanKeeps | backend/src/trading/orders-worker.service.ts:44-59 | within twenty digits a scan also keeps the whole invariant |
| Services.RequestFunds | backend/src/withdrawals/withdrawals.service.ts:27-86 | a request is the atomic hold plus its pending row |
| Services.LockPendingRequest | backend/src/withdrawals/withdrawals.service.ts:263-278 | returns the row exactly when it exists and is pending, else the right error |
| Services.ApproveRequest | backend/src/withdrawals/withdrawals.service.ts:88-154 | an approval is the atomic operation on the locked row |
| Services.RejectRequest | backend/src/withdrawals/withdrawals.service.ts:156-222 | so is a rejection |
| Refinement.LockAccountKeeps | backend/src/ledger/ledger.service.ts:61-70 | taking the next balance lock keeps every transaction's knowledge current |
| Refinement.CommitKeeps | backend/src/ledger/ledger.service.ts:89-146 | with its locks held, a transaction decides and writes what the atomic operation would on the committed tables |
| Refinement.StepKeeps | backend/src/ledger/ledger.service.ts:55-146 | every step of every interleaving is, on the committed tables, nothing, one account creation, or one whole atomic operation with the same outcome |
| Concurrency.RunSound | backend/src/trading/orders-worker.service.ts:61-76 | rows, journal, outbox and accounts agree in every state of every interleaved run, at any magnitude |
| Concurrency.RunSafe | backend/src/ledger/ledger.service.ts:55-146 | within twenty digits the whole invariant holds in every state of every interleaved run |
| Concurrency.Serializable | backend/src/ledger/ledger.service.ts:55-146 | every interleaved run equals running the finished operations one by one in the order they finished, with the same outcomes; no bound on amounts |
| Concurrency.SomeoneUnlocked | backend/src/trading/orders-worker.service.ts:69-72 | the locks never tie a knot: while a transaction is unfinished, one waits for no lock |
| Concurrency.StepKeepsPool | backend/src/ledger/ledger.service.ts:159 | no step takes a connection that is not free |
| Concurrency.RunEnds | backend/src/ledger/ledger.service.ts:59-70 | no interleaved run has more than thirteen steps per transaction |
| Concurrency.ResolvedOnce | backend/src/trading/orders-worker.service.ts:61-76 | whatever interleaves, between any two moments each order leaves OPEN and each request PENDING at most once, keeping every other column, and journal and outbox only grow |
| ConnectionPool.PoolRunsDryIff | backend/src/trading/orders.service.ts:160-172 | calls whose user look-ups share no account with the others, or that all open first, can reach a state where work is left and nobody can step exactly when at least as many of them open their transaction first as there are connections |
| ConnectionPool.LookUpRunsDryIff | backend/src/fx/fx.service.ts:124-190 | a conversion or market order that posts when alone, among others whose first balance lock is on one of its accounts, can reach such a state exactly when there are at least as many calls as connections |
| ConnectionPool.DepositIsStranger | backend/src/deposits/deposits.service.ts:52-86 | a conversion shares no account with a deposit of a third currency |
| ConnectionPool.DepositContends | backend/src/deposits/deposits.service.ts:52-86 | deposits of the currency sold are such others, when the treasury's account id comes before their wallets' |
| ConnectionPool.FewOpenersCanStep | backend/src/ledger/ledger.service.ts:159 | calls whose user look-ups share no account with the others can step in every state with work left while fewer of them open first than there are connections |
| ConnectionPool.SomeoneCanStep | backend/src/database/database.module.ts:6-25 | with more connections than transactions there is no deadlock, whatever they do |
| Idempotency.ClaimAccounting | backend/src/common/idempotency/idempotency.service.ts:35-97 | in every interleaving, handler starts never exceed rows deleted plus one if the row is present |
| Idempotency.PostsAtMostStarts | backend/src/common/idempotency/idempotency.service.ts:56-57 | handlers commit no more entries than they were started, counting those whose caller dies or fails after the commit |
| Idempotency.AtMostOnce | backend/src/common/idempotency/idempotency.service.ts:53-97 | with no stale reclaim and no unexpected failure, one start and one entry at most |
| Idempotency.OnlyStaleReclaimed | backend/src/common/idempotency/idempotency.service.ts:120-131 | in every run, a call goes to reclaim only a claim at least as old as the stale limit |
| Idempotency.PromptAtMostOnce | backend/src/common/idempotency/idempotency.service.ts:53-143 | while no PROCESSING row reaches the stale limit and nothing fails unexpectedly, one start and one entry at most, however many calls race |
| Idempotency.NoMoreStartsIff | backend/src/common/idempotency/idempotency.service.ts:53-143 | no handler can ever start again exactly when the outcome is recorded and no caller holds a claim, runs, finalizes or clears |
| Idempotency.ReplayHasResponse | backend/src/common/idempotency/idempotency.service.ts:141-142 | a COMPLETED row that is replayed always has a stored response |
| Idempotency.HashStays | backend/src/common/idempotency/idempotency.service.ts:35-97 | while a row is not deleted its hash and creation time stay |
| Idempotency.CompletedStays | backend/src/common/idempotency/idempotency.service.ts:59-85 | in runs that delete nothing, a COMPLETED row never changes again |
| Idempotency.LaterCallReplays | backend/src/common/idempotency/idempotency.service.ts:99-143 | in such runs a later call gets the stored response if its hash is the same, a refusal if not, and never runs its handler |
| Idempotency.OtherHashRefused | backend/src/common/idempotency/idempotency.service.ts:116-118 | while a row is not deleted, calls with another hash are refused whatever its status |
| Idempotency.WrittenWasProduced | backend/src/common/idempotency/idempotency.service.ts:56-85 | in every run a stored response was produced by a handler of a call with the hash it was written for |
| Idempotency.ResponseBelongsIff | backend/src/common/idempotency/idempotency.service.ts:59-85 | the stored response is, and while the row is kept will stay, that of the stored request exactly when nobody who may still write an outcome makes another request |
| Idempotency.StoredForItsHash | backend/src/common/idempotency/idempotency.service.ts:56-85 | from such a state on, the kept row's response comes from a handler run for its own request |
| Idempotency.QuietRunsOwnTheirRow | backend/src/common/idempotency/idempotency.service.ts:35-97 | every run from no row that has deleted nothing is in such a state |
| Idempotency.StoredEntryWasPosted | backend/src/common/idempotency/idempotency.service.ts:59-71 | a stored or replayed entry id is one a handler for this key posted |
| Idempotency.RoundsArePaidFor | backend/src/common/idempotency/idempotency.service.ts:99-138 | rounds of `handleExistingKey` are at most one plus the row changes by other callers |
| Idempotency.CallsEnd | backend/src/common/idempotency/idempotency.service.ts:35-143 | with n calls racing on a key no call makes more than 12n + 14 moves: the recursion terminates |
| Idempotency.FreshClaimReclaimed | backend/src/common/idempotency/idempotency.service.ts:128-131 | a run in which a claim just made is deleted as stale and two handlers post |
| Idempotency.FailedFinalizePostsTwice | backend/src/common/idempotency/idempotency.service.ts:56-93 | a run in which a failed success UPDATE frees the key and a retry posts again |
| Idempotency.CrashPostsTwice | backend/src/common/idempotency/idempotency.service.ts:120-138 | a run in which a caller dies after its handler committed, and a retry posts again |
| Idempotency.WrongResponseReplayed | backend/src/common/idempotency/idempotency.service.ts:59-70 | a run in which a request is answered with another payload's response |
| IdempotencyService.Service.Run | backend/src/common/idempotency/idempotency.service.ts:35-51 | `run` alone on the table, each statement working or failing with or without effect: answer, row and whether the handler ran; no other key's row is touched |
| IdempotencyService.Service.RunHandlerAndFinalize | backend/src/common/idempotency/idempotency.service.ts:53-97 | the handler's end is recorded, or the key cleared, as the fate of the statement allows |
| IdempotencyService.Service.HandleExistingKey | backend/src/common/idempotency/idempotency.service.ts:99-143 | replay, refusal, conflict, reclaim or a fresh start, by row, hash, status and age, and by the fate of each statement |
| IdempotencyService.AnsweredUndisturbed | backend/src/common/idempotency/idempotency.service.ts:35-143 | with working statements: a young claim is a conflict and left alone, an outcome is replayed, another payload refused; a free or abandoned key runs the handler once and stores its end |
| IdempotencyService.ServiceIsSoloRun | backend/src/common/idempotency/idempotency.service.ts:35-143 | the service's answer and row are those of a run of the key machine without interference |
| KeyedLedger.JointSound | backend/src/common/idempotency/idempotency.service.ts:56-57 | with handlers that are transfers or conversions, interleaved statement by statement with any other operations, the tables stay sound and the key's entries are in the journal |
| KeyedLedger.KeyEntries | backend/src/transfers/transfers.service.ts:44-53 | the journal entries a key's handlers posted are all different and at most as many as its handler starts; at most one with no stale reclaim and no unexpected failure |
| KeyedLedger.StoredEntryInJournal | backend/src/common/idempotency/idempotency.service.ts:59-71 | the entry id stored with a response, or with one about to be replayed, names a journal entry of a transfer or conversion a handler of that key posted |
| Messaging.PublishingSound | backend/src/common/outbox/outbox-publisher.service.ts:62-90 | in every run each message belongs to a committed row, each row marked published was sent, and no row is held by two publishers |
| Messaging.NothingDropped | backend/src/common/outbox/outbox-publisher.service.ts:36-90 | rows are never removed or altered, only marked, once and for good |
| Messaging.Publishable | backend/src/common/outbox/outbox-publisher.service.ts:62-90 | after any crashes every committed row can still get published |
| Messaging.ClaimsAccounted | backend/src/notifications/notifications-consumer.service.ts:85-127 | a claimed event is one email, one consumer about to mail, or one loss: never two of them |
| Messaging.AtMostOneEmail | backend/src/notifications/notifications-consumer.service.ts:97-118 | at most one email per event, and only for a committed, sent row with a recipient |
| Messaging.ExactlyOneIff | backend/src/notifications/notifications-consumer.service.ts:97-118 | once nobody is at it, an event had its email exactly when claimed with no claim lost |
| Messaging.MailStillComesIff | backend/src/notifications/notifications-consumer.service.ts:97-118 | an event's email can still be sent exactly when it has a recipient and is unclaimed or its claimer is still at it |
| Messaging.EmailLost | backend/src/notifications/notifications-consumer.service.ts:97-118 | a published event with a recipient, delivered twice, that no continuation ever mails |
| Messaging.EmailAnnouncesOneEntry | backend/src/notifications/notifications-consumer.service.ts:97-118 | each email announces one journal entry of an announced kind, and no other email announces it |
| EndToEnd.JointSound | backend/src/common/outbox/outbox.service.ts:16-26 | in joint runs of messaging and ledger, whose transactions interleave statement by statement, the tables stay sound at any magnitude and publishers see exactly the ledger's outbox |
| EndToEnd.LedgerNeverBlocked | backend/src/common/outbox/outbox.service.ts:16-26 | every step of a ledger transaction can be taken in a joint run: it only ever adds outbox rows |
| EndToEnd.EmailsAnnounceEntries | backend/src/notifications/notifications-consumer.service.ts:85-119 | every email ever sent announces one journal entry of an announced kind, and no entry is announced twice |
| EndToEnd.NoEntryForgotten | backend/src/common/outbox/outbox-publisher.service.ts:36-90 | every announced journal entry has its row, which after any crashes can still be sent and marked |
| Delivery.CandidatesSound | backend/src/common/outbox/outbox-publisher.service.ts:38-42 | a batch holds distinct unpublished rows, oldest first |
| Delivery.LeftOutIsYounger | backend/src/common/outbox/outbox-publisher.service.ts:38-42 | a row is left out only behind a hundred rows at least as old |
| Delivery.BatchRowByRow | backend/src/common/outbox/outbox-publisher.service.ts:44-57 | each row of a batch fares by its own attempt alone |
| Delivery.CountedRows | backend/src/common/outbox/outbox-publisher.service.ts:44-59 | the returned count never exceeds the rows newly published, and equals it when no commit loses its answer |
| Delivery.HealthyBatchDrains | backend/src/common/outbox/outbox-publisher.service.ts:37-60 | with everything working a batch publishes a hundred rows or the whole backlog |
| Delivery.OutboxPublisher.PublishOne | backend/src/common/outbox/outbox-publisher.service.ts:62-90 | one row sent and marked, or left for the next batch |
| Delivery.OutboxPublisher.PublishBatch | backend/src/common/outbox/outbox-publisher.service.ts:37-60 | the loop over the batch: rows, messages and count |
| Delivery.BatchIsRun | backend/src/common/outbox/outbox-publisher.service.ts:37-90 | a batch is a run of the messaging machine, so its theorems apply |
| Delivery.NotificationsConsumer.ClaimEvent | backend/src/notifications/notifications-consumer.service.ts:121-127 | claims an event exactly when nobody has |
| Delivery.NotificationsConsumer.HandleMessage | backend/src/notifications/notifications-consumer.service.ts:85-119 | what a message leaves in the claims table and the mail server, and when it throws |
| Delivery.HandlingIsRun | backend/src/notifications/notifications-consumer.service.ts:85-127 | handling a message is a run of the messaging machine |
| Fx.RatioError | backend/src/rates/rates.service.ts:57-69 | a rate is the ratio of two prices up to one part in 2*10^19 |
| Fx.ConversionWithin | backend/src/fx/fx.service.ts:212-223 | `toAmount` is within half a target unit of amount * rate * (1 - s), up to two twenty-digit roundings |
| Fx.RoundTrip | backend/src/fx/fx.service.ts:192-236 | converting there and all of it back returns at most x(1-s)^2 plus half a unit of each currency, the first at the return rate less the spread, up to three roundings each way |
| Fx.RoundTripGainsAtMostRounding | backend/src/fx/fx.service.ts:192-236 | with any spread a round trip gains at most the two half units |
| Fx.TinyRoundTripGains | backend/src/fx/fx.service.ts:217-223 | concrete amounts that do gain by rounding, so the half units cannot be dropped |
| Fx.RatesService.GetSnapshot | backend/src/rates/rates.service.ts:35-55 | the cached snapshot while current, else fresh live prices, else static ones; and it is what is cached next |
| Fx.RatesService.GetRate | backend/src/rates/rates.service.ts:57-69 | the ratio of two prices of that one snapshot, or none |
| Fx.RatesOfOneSnapshot | backend/src/rates/rates.service.ts:35-69 | two rates asked for inside one window are of one snapshot, and reciprocal up to rounding |
| HashPayload.SortedThenMapped | backend/src/common/idempotency/hash-payload.ts:9-15 | sorting keys before or after canonicalising values is the same |
| HashPayload.SameFormIff | backend/src/common/idempotency/hash-payload.ts:3-19 | two payloads have one canonical form exactly when equal up to key order at every level |
| HashPayload.SortKeepsMeaning | backend/src/common/idempotency/hash-payload.ts:3-19 | a payload equals its canonical form up to key order |
| HashPayload.SortIdempotent | backend/src/common/idempotency/hash-payload.ts:3-19 | canonicalising twice is canonicalising once |
| HashPayload.SameHashIff | backend/src/common/idempotency/hash-payload.ts:26-29 | with an injective serialiser and hash, requests hash alike exactly when their payloads are the same |
| HashPayload.TiedKeysKeepTheirOrder | backend/src/common/idempotency/hash-payload.ts:9-11 | if two different keys compare equal, one payload has two canonical forms |

## Left out

- LedgerLaws.PostExactly: premise `Headroom` (no sum or new balance reaches twenty digits); `PostingLaws` and `Rounding` say what holds beyond it, for lines on accounts of their own, as every operation plans them. The column's own limit, `numeric(30,8)` overflow, is not modelled.
- Runs.RunKeeps: premise `Roomy` for each operation of the run, for the same reason; deposits are bounded per call but not in number, so no bound on the total follows from the code.
- Concurrency.Serializable: a fixed set of transactions from a state with nothing locked; a transaction's decision and its writes are one step, which its locks justify.
- ConnectionPool.PoolRunsDryIff: operations that open first are taken to have something to post. The pool serves only these operations; idempotency statements, publishers and history queries that draw on it too are not counted, and a call before its transaction opens is taken to need one connection per step.
- ConnectionPool.LookUpRunsDryIff: for mixtures in between (some calls share an account with a look-up, but not all of them queue behind one) only the bounds are given: stuck runs exist with as many openers as connections and need as many calls.
- Services.CancelOpenOrder: this method and the other services run alone; their interleaving is modelled by the step machine, not by the methods.
- Services.ExecuteMarketOrder: failures after posting (user look-up, commit) are modelled for the fill worker, which catches them, and as aborts in the step machine, not in the other methods.
- Database.Store.Rollback: stands for the database's own undo of a transaction whose callback throws.
- Trading.SplitPairIff: upper-casing is ASCII.
- Fx.RatioError: both prices are positive; a zero price would give an infinite or zero rate.
- Fx.ConversionWithin: spreads up to 10000 basis points; a larger spread gives a negative amount, which posting refuses.
- HashPayload.SameFormIff: object keys that look like array indices, which JavaScript enumerates first whatever the insertion order, and the key `__proto__` are not modelled; the comparator is a total order on the keys present.
- HashPayload.SameHashIff: SHA-256 and `JSON.stringify` are assumed injective.
- IdempotencyService.Service.Run: nobody else touches the key meanwhile; all interleaving and crashes are in the key machine.
- KeyedLedger.JointSound: which transfer or conversion a call's payload asks for is not tied to its hash.
- Messaging.PublishingSound: a message is its row's id; key and JSON text are not modelled, nor messages on the topic that no publisher sent.
- Delivery.NotificationsConsumer.HandleMessage: a message that parses as JSON but is not an event is not distinguished from an unparseable one.
- Currency rows are fixed, with at most eight decimals; user rows and foreign keys to them are assumed present.
- Request amounts are non-negative with at most eight decimals, as the request validation demands.
- Descriptions, metadata other than the order or request an entry refers to, timestamps other than those decisions use, email texts.
- Controllers, authentication, throttling, pagination and history queries, the rates matrix and quotes, the Kafka and mail clients' connection handling, subscription retries, the Angular frontend.
