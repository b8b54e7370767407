# Accounting service: a verified model

This project models the double-entry core of the accounting service and proves what it promises.

Three layers are one model, and the main results cross them.

- **The journal engine** (`Journal`, `Books`, `Nets`, `Rollback`, `Equation`, and the classes in `Engine` and `Mutation`). A
  builder merges signed `To`/`From`/`Set` amounts per account; `Commit` checks debit against credit within 0.0001, drops
  entries with equal sides, splits entries with two sides and saves rows. `OpenTransaction` makes several books all or nothing
  and queues one update message. `RollbackEntry` cancels a transaction by appending rows.
- **The running-balance index** (`DailyTable`, `DailyIndex`, `AsyncIndex`, `Quiescence`, `Report`, `RowReport`, `Resync`,
  `Recalculate`, `RebuildBatch`, `Undo`). Messages update day rows one at a time and shift later rows; the batch statements (group,
  sum, window sum) are what they must agree with. Commits and deliveries interleave freely, so the index is a small protocol.
- **The bookings** (`Orders`, `Inbound`, `Acceptance`, `Payments`, `Revenue`, with `OrderAcceptance`, `LandedCost`, `Register`,
  `Reuse`, `DebtMirror`, `DebtRuns`, `Replay`, `Streams`, `EventAcceptance`, `Settlement`). `Effects` and its four companions
  (`OrderEffects`, `StockEffects`, `PaymentEffects`, `EventEffects`) say what each booking does to the journal, from its payload
  alone. `Calls` ties the handlers to the engine and the index, `Flags` says which rows they add, and `Records` under which
  reference.

Code that changes state is a class or a method with a loop, and its contract equates the new state with a specification
function of the old one. The properties are lemmas about those functions: over every input, every order in which a map is
ranged over, and every run.

Amounts are reals and the tolerance is the real 0.0001, which accumulates and is not transitive. The journal is a bag of rows,
since nothing depends on the order of a table. An account is its key and team, which the database keeps unique. A shop is its
id, kept with the tag of its marketplace, and a tag is its name. A day is a field of each row.

## What the main results say

| result | where |
|---|---|
| A commit depends on neither the order of calls nor the order of the map, and every account moves by exactly what was posted to it | `Nets.CommitOrderIrrelevant`, `Nets.CommitIsFaithful` |
| A message is the saved rows less the debit halves of split entries; an equal-sided entry aborts everything | `Books.MessageFidelity` |
| A rollback succeeds exactly under its condition, zeroes every account, balances every book exactly, and is refused the second time | `Rollback.RollbackAccepted`, `RollbackIsExact`, `RollbackBalances`, `SecondRollbackRefused` |
| The accounting equation holds over every run up to one tolerance per live book, and exactly when none is live | `Equation.AccountingEquation` |
| Stored turnover plus what is queued is the rollback-adjusted journal in every interleaving; at rest, after harmless deliveries, the batch changes nothing | `AsyncIndex.AsynchronousAgreement`, `QuiescentAgreement`, `Quiescence.QuiescentBalances` |
| Every booking moves every account of every book by an amount said from its payload alone, and nothing else | `OrderEffects.OrderGains`, `StockEffects.RestockMoves`, `UpdateMoves`, `AcceptMoves`, `AdjustMoves`, `PaymentEffects.PaymentMoves`, `EventEffects.EventGains` |
| A payment, from made to accepted, takes its amount off what the two teams claim and owe | `DebtRuns.PaidDebt` |
| Rows carry the rollback flag exactly when they undo something; a rollback takes the excess of each account off the index, all its turnover exactly when the account was booked on one side | `Flags.CallRows`, `UpdateRows`, `Undo.RollbackTurnover`, `TurnoverUndone` |
| The service's index never misses a credit: stored and queued credit turnover is the adjusted journal sum in every state, with no condition on the books | `Flags.ServiceTurnover` |
| Any call but an update can be sent twice: the second books nothing | `Records.SentTwice` |
| What holds of the protocol holds of the service: every handler call is one act of the engine or nothing, and every run of it a run of the protocol | `Calls.CallIsAct`, `ServiceRunsAreRuns`, `ServiceTablesAgree` |
| One index update keeps the running balances if and only if a condition on the day holds, and is off by a known amount otherwise; a run keeps them if and only if every step does | `DailyTable.OneStepCondition`, `UpdateBalanceExact`, `RunBalancesExactlyWhen`, `HarmfulRun` |
| The aggregate table's turnover is the sum of the detail table's, always; so is its balance where both tables keep the running-balance invariant | `AsyncIndex.TablesAgreeAlways`, `AggregateBalance` |
| Opening plus turnover is closing for journal rows counted in day order, rollback rows included | `RowReport.ReportOfRows` |
| Two resyncs reach a fixpoint in any statement orders; one is enough if and only if the table was ready, which it is not always | `Resync.ResyncFixpoint`, `OneRunIsEnoughExactlyWhen`, `OneRunIsNotEnough` |
| A restock's append-only book is a register of its last acceptable payload; where an update omits the shipping fee, exactly when the pending balance it falls back on is zero, which it never is in a registered restock with one pending account | `Register.JournalIsRegister`, `Reuse.RegisterNeedsShipping`, `FeelessUpdateBreaks` |
| What one team has to receive from another is what the other has to pay, in every reachable state | `DebtRuns.DebtsAreMirrored` |
| Landed cost is conserved, and goods and adjustments are accepted exactly under a condition on the payload, the references, the tags and the accounts | `LandedCost.LandedCostConserved`, `AcceptedExactlyWhen`, `AdjustedExactlyWhen` |
| Orders, restocks, payments and revenue events are accepted exactly under conditions on the payload and on the shops, tags, references and accounts that exist | `OrderAcceptance.OrderAcceptedExactlyWhen`, `RestockAcceptedExactlyWhen`, `Payments.PaymentAcceptedExactlyWhen`, `EventAcceptance.EventBookedExactlyWhen` |
| A revenue stream books each event for the last Init before it and can be sent again: it goes on exactly where it ended | `Streams.StreamOutcome`, `Replay.ReplayResumes`, `DeleteRecorded` |
| The selling receivable is the sum of what the recorded orders, funds, withdrawals and adjustments contribute, cancelled orders taken off | `Settlement.ReceivableSettles` |

## Model

| member | source | states |
|---|---|---|
| Journal.PostAllAt | accounting_core/journal_entries.go:331-399 | After any chain of To and From calls an account holds, on each side, the sum of the amounts that belong on that side, said without the order of the calls |
| Journal.PostAllAccepts | accounting_core/journal_entries.go:331-399 | The sticky error stays empty exactly when no call names a missing account, a zero amount or an account with no side |
| Journal.PostOrderIrrelevant | accounting_core/journal_entries.go:331-399 | Two chains with the same calls in any order leave the same entries and fail alike |
| Journal.CommitKeepsRaw | accounting_core/journal_entries.go:213-231 | Dropping equal-sided entries and splitting two-sided ones changes no balance, for any selection of transactions, teams and accounts |
| Journal.SavedIsEmittedPlusHalves | accounting_core/journal_entries.go:213-231 | When no entry is dropped, the saved rows are the emitted ones plus the split-off debit halves |
| Journal.EmittedSavedIff | accounting_core/accounting_manage.go:109-169 | Every emitted entry got an id exactly when no entry of the book has equal sides |
| Journal.CommitRowsFrom | accounting_core/journal_entries.go:193-231 | A saved row belongs to the book's team, transaction and one of its accounts, and carries the entry's two sides or one half of it |
| Books.RunBooksEffect | accounting_core/accounting_manage.go:119-169 | Books committed in turn succeed exactly when each passes, and then add all their rows and emitted entries |
| Books.TransactionEffect | accounting_core/accounting_manage.go:119-169 | A transaction is accepted exactly when every book passes, nothing fails after them, something was emitted and no entry has equal sides; otherwise neither the journal nor the queue changes |
| Books.MessageFidelity | accounting_core/accounting_manage.go:30-71 | A committed transaction queues its saved rows less the debit half of each split entry; a book with an equal-sided entry leaves no rows and no message |
| Books.PostAddsRef | accounting_core/transaction.go:286-311 | An accepted transaction adds its reference, and only that; a refused one adds none |
| Nets.CommitIsFaithful | accounting_core/journal_entries.go:184-265 | Every saved row of a book of To and From calls is one-sided, each account moves by the signed sum posted to it, and debit-side postings less credit-side ones are the saved debit less credit, below 0.0001 |
| Nets.CommitOrderIrrelevant | accounting_core/journal_entries.go:184-265 | Permuting the calls of a book changes neither its acceptance nor a saved or emitted row |
| Nets.NetOfBooks | accounting_core/journal_entries.go:184-265 | The net of an account over the rows of some books is the sum of their entries, in the books' own transaction only |
| Nets.ImbalanceOfBooks | accounting_core/journal_entries.go:236-246 | Each accepted book of a team adds less than one tolerance to the imbalance of its transaction, and nothing to any other |
| Engine.BookManager.CreateTransaction | accounting_core/transaction.go:286-311 | A used reference, a shop that is zero or unknown, and a repeated new tag are refused; otherwise the transaction gets the next id and its tags exist |
| Engine.TransactionBuilder.Create | accounting_core/transaction.go:286-311 | A used reference changes nothing and leaves the builder without a transaction |
| Engine.TransactionBuilder.AddShopID | accounting_core/transaction.go:112-171 | Fails without a transaction, on shop 0 and on an unknown shop; otherwise the tag of the marketplace exists |
| Engine.TransactionBuilder.AddTags | accounting_core/transaction.go:195-270 | Fails, taking its tags back, exactly when a tag that did not exist is named twice; otherwise every named tag exists |
| Books.PostAccepted | accounting_core/transaction.go:286-311 | A transaction under a new reference is accepted exactly when nothing refuses its creation and its books are accepted; otherwise nothing changes |
| Engine.BookManager.AfterCommit | accounting_core/accounting_manage.go:109-117 | Every entry left in the builder is kept, marked by whether it was saved |
| Engine.BookManager.EveryEntrySaved | accounting_core/accounting_manage.go:30-71 | True exactly when every kept entry has an id |
| Engine.BookManager.DailyUpdateData | accounting_core/accounting_manage.go:30-71 | The message carries the row of every kept entry, each as often as it was kept |
| Engine.BookManager.End | accounting_core/accounting_manage.go:119-169 | On an error, an empty or an unsaved entry list the tables are as before; otherwise the message joins the queue; a skip rolls back without an error |
| Engine.EntryBuilder.To | accounting_core/journal_entries.go:331-357 | The new draft is the specified one: the amount lands on the side of its sign, errors stick |
| Engine.EntryBuilder.From | accounting_core/journal_entries.go:179-182 | Posts the negated amount |
| Engine.EntryBuilder.Set | accounting_core/journal_entries.go:132-149 | Merges the given credit and debit; a missing account fails the first time it is set in the builder, and merges after that |
| Engine.EntryBuilder.Rollback | accounting_core/journal_entries.go:110-129 | Posts, once per account not at zero and in any order, exactly the amount that undoes its balance |
| Engine.EntryBuilder.Transaction | accounting_core/journal_entries.go:163-177 | Gives every entry the transaction; fails on an empty builder |
| Engine.EntryBuilder.CommitEntries | accounting_core/journal_entries.go:189-232 | The loop over the entry map, in any order: totals, saved rows, what stays in the builder, and which entries are saved |
| Engine.EntryBuilder.Commit | accounting_core/journal_entries.go:184-265 | The new database, entry list and builder are those of the commit specification, error cases included |
| Engine.CommitBook | accounting_core/journal_entries.go:163-265 | A finished chain of posts, committed, is one book of the transaction |
| Rollback.RollbackAccepted | accounting_core/transaction.go:443-536 | A rollback succeeds exactly when the transaction has rows and every team in it has a nonzero account and an imbalance under the tolerance; a refused one changes nothing |
| Rollback.RollbackIsExact | accounting_core/transaction.go:443-536 | After a rollback every account of the transaction nets to exactly zero in every book, no other transaction moved, and all old rows are still there |
| Rollback.SecondRollbackRefused | accounting_core/transaction.go:443-536 | A second rollback fails and leaves the journal as it was, in whatever order the teams are visited |
| Rollback.RollbackBalances | accounting_core/transaction.go:357-398 | After a rollback each team's book is exactly balanced and CheckEntry finds equal totals |
| Rollback.ImbalanceIsNets | accounting_core/transaction.go:464-526 | A book's imbalance is the total of its account nets |
| Rollback.CheckedDifference | accounting_core/transaction.go:357-398 | The difference CheckEntry looks at is the total of the imbalances of the transaction's books, and it passes exactly when that is within 0.0001 |
| Rollback.NetAfterOpen | accounting_core/accounting_manage.go:119-169 | An accepted transaction moves each account of its own by what its books posted, and no other transaction |
| Rollback.PostKeepsValid | accounting_core/transaction.go:286-311 | Every transaction keeps references unique and every row on an existing account of an existing transaction |
| Rollback.RollbackKeepsValid | accounting_core/transaction.go:443-536 | So does every rollback, accepted or refused |
| Mutation.AccountBalance | accounting_core/model.go:101-133 | Both totals of every account the rows are on; fails exactly when an account is missing |
| Mutation.BalancesAreNets | accounting_core/model.go:101-133 | The balances of a team's rows are its nets in the transaction |
| Mutation.ResetIsReverse | accounting_core/journal_entries.go:110-129 | Undoing a map of balances, in any order, drafts exactly the entries that RollbackEntry sets for that team |
| Mutation.SetReverses | accounting_core/transaction.go:464-526 | The loop over a team's accounts sets the reversing entry of every account not at zero, in the sign of its side |
| Mutation.ReverseTeams | accounting_core/transaction.go:464-526 | The teams' books are reversed in some order of the teams, up to the first that fails |
| Mutation.TransactionMutation.ByRefID | accounting_core/transaction.go:411-436 | Loads the transaction, or id 0 and a sticky error |
| Mutation.TransactionMutation.CheckEntry | accounting_core/transaction.go:357-398 | Adds an error exactly when the transaction's total debit and credit are not within the tolerance |
| Mutation.TransactionMutation.RollbackEntry | accounting_core/transaction.go:443-536 | The new database and sticky error are those of the rollback specification for some order of the teams |
| Mutation.BalanceTotals | accounting_core/transaction.go:357-398 | Totalling the account balances of a transaction totals its rows, side by side |
| Flags.CallRows | accounting_core/accounting_manage.go:119-169 | Every row a call other than an update adds is one-sided, on the call's day and in its transaction, and flagged exactly when the call is a cancelling; what is queued is among what is added |
| Flags.RollbackRows | accounting_core/transaction.go:464-526 | An accepted rollback queues exactly the rows it adds: each flagged, one-sided, under the transaction's id, on the given day, in a team of the transaction |
| Flags.UpdateRows | stock/inbound_update.go:85-176 | An accepted update adds flagged rows in the team's book that reverse what the transaction held there, and unflagged rows for the new payload, all under the same id |
| Flags.HalfIsDebit | accounting_core/journal_entries.go:213-231 | What a split entry is saved as and not sent is its debit half |
| Flags.ServiceTurnover | report/daily_balance_update.go:109-170 | In every state of the service, in every interleaving and for all books, stored plus queued credit turnover of each slot is the rollback-adjusted journal sum, and the debit turnover is never more than it, and equal to it while no call books an account on both sides |
| Records.BookedUnder | accounting_core/transaction.go:286-311 | A booked call takes the next number under the one reference its kind and identifier determine, which was new; the tags that exist are the old ones, its own and that of its shop's marketplace |
| Records.RecordsNeverMix | accounting_core/model.go:240-275 | Two calls with one reference are of the same kind and object, goods received also of the same source |
| Records.TakenAnswer | revenue/order_created.go:76-104 | An order or event whose reference is taken is reported as done, whatever else it says; every other booking under a taken reference is refused as existing; nothing changes |
| Records.SentTwice | accounting_core/transaction.go:286-311 | Any call but an update, sent again, leaves the ledger as the first one left it |
| Equation.AccountingEquation | accounting_core/journal_entries.go:236-246 | For every run, every team and the seeded chart, assets and expenses less liabilities, equity and revenue stay below n times 0.0001 for n committed books of transactions not rolled back since, and are exactly zero when n is 0 |
| Equation.RunImbalance | accounting_core/transaction.go:443-536 | Over every run the imbalance of each transaction is bounded by its own live books, and a rollback resets it to exactly zero |
| Equation.ClassesCoverBook | accounting_core/reserved_account.go:107-387 | With seeded accounts, the five class totals in natural sign add up to the raw debit less credit of the team |
| Accounts.SeedSideFollowsClass | accounting_core/reserved_account.go:107-387 | Seeded assets and expenses are the debit-side accounts, the other classes the credit-side ones |
| DailyTable.UpdateTurnover | report/daily_balance_update.go:347-381 | One update keeps each row's debit and credit equal to the sums delivered for its key and day, and exactly one row per key and day delivered |
| DailyTable.UpdateBalanceExact | report/daily_balance_update.go:347-405 | From right balances, one update leaves each running balance of its key right, except that rows after a newly opened day are too high by exactly the balance before that day |
| DailyTable.OneStepCondition | report/daily_balance_update.go:347-392 | One update keeps the running-balance invariant if and only if its day has a row, or no later row exists, or the latest earlier balance is zero or absent |
| DailyTable.HarmfulRun | report/daily_balance_update.go:347-405 | A run of three deliveries after which the running balances are wrong: the last opens the day between the others and leaves the later row too high by the earlier balance |
| DailyTable.UpdateKeepsOpenings | report/daily_balance_update.go:347-405 | One update keeps every opening; a later row of the key changes in its balance only, other rows not at all; a new row opens with the balance before its day |
| DailyTable.OpeningOfRun | report/daily_balance_update.go:347-405 | After any run a row's opening is the balance before its day at the step that opened it |
| Undo.RollbackTurnover | report/daily_balance_update.go:122-128 | After a rollback both adjusted columns of every account of the transaction, over all its rows, hold the smaller of what they held before |
| Undo.TurnoverUndone | report/daily_balance_update.go:122-128 | Where no row of the transaction was flagged, the adjusted debits and credits of an account are zero after the rollback if and only if it was booked on one side only |
| Undo.RollbackSlot | report/daily_balance_update.go:122-128 | Slot by slot: a rollback lowers the debit or the credit turnover of an account on its own day by the excess it takes back, and changes no other day |
| DailyTable.RunTurnover | report/daily_balance_update.go:347-381 | Over every run the debit and credit columns are the group sums of what was delivered |
| DailyTable.RunBalances | report/daily_balance_update.go:333-405 | Over every run that opens no day between an older nonzero balance and a newer row, each balance is the sum of everything delivered up to its day |
| DailyTable.RunBalancesExactlyWhen | report/daily_balance_update.go:333-405 | The running balances of a key are right after every step of a run if and only if every call on the key is harmless |
| DailyTable.OtherKeysUntouched | report/daily_balance_update.go:396-405 | An update leaves the running balances of every other key right |
| DailyIndex.DailyStore.BeforeBalance | accounting_core/model_daily.go:132-149 | The balance of the latest row before the day, or zero |
| DailyIndex.DailyStore.UpdateDailyBalance | report/daily_balance_update.go:333-394 | The new table is the specified update of the old one |
| DailyIndex.DailyStore.UpdateAfterIncrement | report/daily_balance_update.go:396-405 | Raises every later row of the key by the increment and nothing else |
| DailyIndex.AccountReport.CountEntry | report/daily_balance_update.go:112-183 | One entry updates both tables with the rollback-adjusted turnover and the balance in the account's sign, or neither |
| DailyIndex.AccountReport.DailyUpdateBalance | report/daily_balance_update.go:92-183 | The entries are counted in turn up to the first whose account is missing or has no side, and those before it stay counted |
| AsyncIndex.AdjustmentKeepsBalance | report/daily_balance_update.go:122-137 | The sign rule for rollback entries takes turnover away on the side it was on and keeps the balance in the natural sign |
| AsyncIndex.ActConserves | accounting_core/accounting_manage.go:109-169 | Every commit adds the same rows to the journal as to the queue, but for the debit halves of split entries |
| AsyncIndex.StartIsConsistent | report/daily_balance_update.go:112-183 | A system with nothing booked is consistent, whatever accounts, shops, tags and references it has |
| AsyncIndex.InvAlways | report/daily_balance_update.go:112-183 | In every interleaving, from any consistent system, each saved row is delivered, queued or a split-off half, and both tables count exactly what was delivered |
| AsyncIndex.AsynchronousAgreement | report/daily_balance_update.go:112-183 | In every reachable state the stored debit and credit of a day, account and team, plus the queued and the unsent halves, are the rollback-adjusted journal sums |
| AsyncIndex.QuiescentAgreement | report/report_balance/account_daily_sync.go:9-46 | With no two-sided account in any book and nothing queued, both tables have exactly the rows, debits and credits of the group-by over the journal |
| AsyncIndex.QuiescentIsBatch | report/report_balance/account_daily_sync.go:9-66 | Then the batch upsert adds no row and writes the debit and credit already there |
| Quiescence.QuiescentBalances | report/report_balance/account_daily_sync.go:9-76 | If moreover every delivery was harmless, the batch statement changes neither table: debit, credit and running balance of every row are what it computes from the journal |
| Quiescence.StartHoldsBalances | report/daily_balance_update.go:333-405 | A system with nothing booked holds its running balances |
| Calls.CallIsAct | revenue/order_created.go:18-142 | Every call of a handler, orders, cancellings, revenue events, restocks and their updates, acceptances, adjustments and payments, is one legal act of the engine, or changes nothing |
| Calls.ServiceRunsAreRuns | accounting_core/accounting_manage.go:119-169 | Every run of the service, its calls and its index updates interleaved in any way, is a run of the protocol |
| Calls.ServiceTablesAgree | report/daily_balance_update.go:139-183 | So in every state of the service the two index tables agree on turnover |
| AsyncIndex.AggregateTurnover | report/daily_balance_update.go:139-183 | The account-key row's debit and credit are the sums over the accounts with that key, for any delivered bag |
| AsyncIndex.AggregateBalance | report/daily_balance_update.go:139-183 | Where both tables keep the running-balance invariant, the key's balance as of any day is the sum of its accounts' latest balances |
| DailyIndex.RunAggregates | report/daily_balance_update.go:139-183 | Over every run of entries that is harmless on both tables, the key's balance as of any day is the sum of its accounts' latest balances |
| AsyncIndex.TablesAgreeAlways | report/daily_balance_update.go:139-183 | In every reachable state the two tables agree on turnover |
| Report.RunKeepsChain | report/daily_balance_update.go:353-381 | When a key's updates come in day order, each row opens with the balance of the row before it, and its balance less its opening is its own net turnover |
| Report.TurnoverTelescopes | report/balance.go:179-220 | Over any range of days the balance moves by exactly the net turnover of the rows in it |
| Report.ReportIsComplete | report/balance.go:100-177 | A report has an opening and a closing balance exactly when a row lies in its range before the last day |
| Report.OpeningPlusTurnoverIsClosing | report/balance.go:100-220 | On such a table, closing less opening is the net turnover the report shows |
| Report.ReportOfOrderedRun | report/balance.go:100-220 | And so on the table of every run delivered in day order, if each delivery carries its balance in the sign of the key |
| RowReport.ReportOfRows | report/balance.go:100-220 | And so on the account-key table of any journal rows in day order over the seeded chart: rollback rows, counted by the sign rule, meet that condition |
| RowReport.RowsChain | report/daily_balance_update.go:122-137 | On that table every row opens where the row before it closed and moves by its own net turnover in the seeded sign |
| Resync.WindowIsRunningSum | report/report_balance/account_daily_sync.go:48-64 | The SQL window sum over day groups is the sum of all entries up to the day |
| Resync.OneRunSyncs | report/report_balance/account_daily_sync.go:48-100 | One run in any statement order fixes debit, credit and balance of every group |
| Resync.OneRunScope | report/report_balance/account_daily_sync.go:66-100 | A run adds rows for the groups of the journal only and touches the amounts of no other row |
| Resync.ResyncFixpoint | report/report_balance/service.go:47-75 | Two runs in any two statement orders leave every row opening with the row before it; a third in any order changes nothing |
| Resync.OneRunIsNotEnough | report/report_balance/service.go:47-75 | A concrete table and order after which one run leaves an opening balance wrong |
| Resync.StartsFirstIsEnough | report/report_balance/service.go:47-75 | The order that sets the openings first leaves them right if and only if at most the first row of each key was new and every row that another follows already had the balance the batch writes |
| Resync.OneRunIsEnoughExactlyWhen | report/report_balance/service.go:47-75 | One run is enough, in whatever order, if and only if the table was ready in that sense |
| Resync.IncrementalIsBatch | report/report_balance/account_key_daily_sync.go:9-66 | The incremental table of a run without harmful updates is what the batch statement computes from nothing, and is left alone by it |
| Resync.BatchTable.BalanceResync | report/report_balance/service.go:47-75 | The statements run in the arbitrary order of a map; the result is one of the two specified ones |
| Recalculate.RebuildStep | accounting_core/daily_balance.go:42-107 | One entry of the loop, with the zero-once hook, keeps the table equal to the rebuild of the entries so far |
| Recalculate.RebuildIgnoresOldAmounts | setup/recalculate_daily.go:25-83 | Debit, credit and balance of every row of a touched day and account are its team's sums whatever it held before; untouched rows are unchanged |
| Recalculate.RebuildTwice | setup/recalculate_daily.go:25-83 | A second rebuild over the same entries changes nothing |
| RebuildBatch.RebuildIsBatchExactlyWhen | accounting_core/daily_balance.go:42-107 | A rebuild from the whole journal leaves what the batch computes if and only if, at every slot of the journal, the reversing rows carry nothing and nothing is brought forward from earlier days |
| Recalculate.BalanceCalculate.AddEntry | accounting_core/daily_balance.go:42-107 | Zeroes the day and account once, then adds to the team's row or inserts it |
| Recalculate.BalanceCalculate.RecalculateDaily | setup/recalculate_daily.go:25-83 | The table becomes the rebuild of the entries, whatever their order and the table's old contents |
| References.RefsDetermineTypeAndId | accounting_core/model.go:287-300 | References are equal exactly when both type and identifier are |
| References.NumberedRefsInjective | accounting_core/model.go:287-300 | A numbered reference names one object of one type |
| References.ShopDateRefsInjective | revenue/revenue.go:440-443 | A shop-dated reference names one shop and one second |
| Orders.CreateWarehouseFee | revenue/order_created.go:196-250 | Books the fee in both books, or nothing for a zero fee; stops at the first error |
| Orders.OwnProductStock | revenue/order_created.go:144-194 | Commits the team's side; the warehouse side is drafted and checked, never committed |
| Orders.CrossProductStock | revenue/order_created.go:252-333 | Three books per borrowing, in order, up to the first that fails |
| Orders.RevenueOrder | revenue/order_created.go:335-392 | Books the order amount, or the fake-order amount of a custom order that has a parent, or nothing |
| Orders.AdditionalAmount | revenue/order_created.go:394-480 | Pays the additional cost from cash or ShopeePay; refuses other methods |
| Orders.OnOrder | revenue/order_created.go:18-142 | All parts in one transaction; an order already booked is skipped without an error |
| Orders.OrderCancel | revenue/order_cancel.go:16-54 | Reverses the order's transaction, or reports that there is none |
| OrderEffects.OrderGains | revenue/order_created.go:144-450 | A newly booked order moves every account of every book by its fee, own stock, borrowings, sale and additional cost, each said from the payload, and nothing else |
| OrderEffects.OrderSale | revenue/order_created.go:335-392 | Sales revenue and selling receivable of the order's own team gain the order amount when it is not custom, the fake-order payment when it is custom with a parent, and nothing otherwise; no other team's move |
| OrderEffects.OrderPays | revenue/order_created.go:394-450 | The additional cost leaves cash or ShopeePay by its method; with any other method the order is refused |
| OrderAcceptance.OrderAcceptedExactlyWhen | revenue/order_created.go:18-480 | A new order is accepted if and only if its shop exists, its tags repeat no new one, it has something to book, every account of its parts exists, no borrowed or sold amount is zero and its additional cost is paid by a known method |
| OrderAcceptance.RestockAcceptedExactlyWhen | stock/inbound_created.go:99-142 | For every payload: accepted if and only if the reference is new, the tags repeat no new one, neither the goods nor what is paid nor what becomes pending are zero, payment and pending total meet within the tolerance and the accounts exist |
| Inbound.TotalGoods | stock/inbound_created.go:99-104 | The goods value of the lines |
| Inbound.InboundCreate | stock/inbound_created.go:19-149 | The new database and error are those of one book under the restock reference |
| StockEffects.RestockMoves | stock/inbound_created.go:99-142 | An accepted restock brings goods and a positive fee into the pending stock and takes their total from cash or ShopeePay by its method; no other account moves |
| Inbound.PendingBalance | accounting_core/model.go:135-151 | Some account with the key, if there is one; which one is not determined |
| Inbound.ResetBook | stock/inbound_update.go:86-100 | Resetting by Rollback is the same book as reversing the team's nets |
| Inbound.InboundUpdate | stock/inbound_update.go:18-181 | Reset then rebook in one transaction; the amounts it falls back on are pending balances among the old balances of the team's book |
| StockEffects.UpdateMoves | stock/inbound_update.go:85-176 | After an accepted update the team's book of the transaction holds the new goods and shipping as pending, less what was paid from cash or ShopeePay, and nothing of what it held before; nothing else moves |
| Register.HeldIsReversible | accounting_core/transaction.go:464-526 | A book that holds what one accepted book would can always be reversed |
| Register.UpdateRegisters | stock/inbound_update.go:86-176 | A full update of a registered restock is accepted exactly when a fresh creation of it would be, and is then what is registered |
| Register.CreateRegisters | stock/inbound_created.go:99-142 | A creation is accepted exactly when its reference is new and its book good, and is then registered |
| Register.JournalIsRegister | stock/inbound_update.go:86-176 | After a creation and any full updates, accepted or refused, each account's net in the team's book equals that of one creation of the last acceptable payload in any other ledger |
| Reuse.ReusedPending | stock/inbound_update.go:136-153 | An accepted update without a shipping fee leaves pending the new goods plus the pending balance it falls back on |
| Reuse.FallbackIsNet | accounting_core/model.go:135-151 | That balance is the net of one of the pending accounts of the book, or zero when it has none |
| Reuse.HeldFallback | stock/inbound_update.go:136-153 | In a registered restock it is the pending total of the held payload, or zero when the account of another warehouse is picked; with one pending account it is that total, which is not zero |
| Reuse.RegisterNeedsShipping | stock/inbound_update.go:136-153 | For such an update the register law holds if and only if the balance it falls back on is zero |
| Reuse.CreatedPending | stock/inbound_created.go:99-142 | Every accepted creation leaves its pending total in the pending account, and that is not zero |
| Reuse.FeelessAccepted | stock/inbound_update.go:86-176 | In a registered restock such an update is accepted exactly when its posts, the fallback among them, are good |
| Reuse.FeelessUpdateBreaks | stock/inbound_update.go:136-153 | So where the book has one pending account, every accepted update without a shipping fee, to whatever warehouse, breaks the register law, by all that was pending |
| Reuse.UpdatePostsGood | stock/inbound_update.go:102-176 | Those posts are good if and only if goods and total are not zero, the total is paid or under the tolerance, and the accounts exist |
| Reuse.CreatedOnlyPending | stock/inbound_created.go:99-142 | A creation makes a book with one pending account |
| Reuse.UpdateKeepsOnlyPending | stock/inbound_update.go:86-176 | A full update on the same warehouse keeps it so |
| Reuse.BrokenRegister | stock/inbound_update.go:136-153 | Such a run: 19 pending where a creation of the update alone leaves 7 |
| Reuse.NoProductsNoCreation | stock/inbound_created.go:99-142 | A payload without products is refused as a creation in every ledger, so an update without them has nothing to match |
| Acceptance.CountItems | stock/inbound_accept.go:24-44 | The number of items of the lines |
| Acceptance.ExtraFee | stock/inbound_accept.go:24-44 | The fees per item over all lines; none when they would be divided by no items |
| Acceptance.SpreadGoods | stock/inbound_accept.go:163-196 | One pass over the lines gives their landed value and adds their plain value to the pending total |
| Acceptance.InboundAccept | stock/inbound_accept.go:46-277 | The new database and error are those of the two books of the acceptance under the reference of its source |
| Acceptance.ValueAndCharge | stock/adjustment.go:58-78 | The value of the lines and the part charged to the warehouse |
| Acceptance.StockAdjustment | stock/adjustment.go:22-194 | The new database and error are those of the two books of the adjustment |
| StockEffects.AcceptMoves | stock/inbound_accept.go:121-238 | Accepted goods move every account of both books by sums over the lines and the courier's fee, and no other account |
| StockEffects.GoodsArrive | stock/inbound_accept.go:163-238 | In both books ready stock gains the accepted lines, lost stock the lost ones and broken stock the broken ones, each item at price plus fee per item, the last two only when positive |
| StockEffects.LandedTotal | stock/inbound_accept.go:163-196 | The landed value of some lines is the order-free sum of price plus fee, times count |
| StockEffects.ChargedTotal | stock/adjustment.go:58-78 | The charge is the order-free sum of price times count over the lines with the flag; lines without it add nothing |
| StockEffects.AdjustMoves | stock/adjustment.go:80-175 | An accepted adjustment moves every account of both books by sums over its lines, and no other account |
| StockEffects.ChargesAreOwed | stock/adjustment.go:58-170 | The selling team claims from the warehouse, and the warehouse owes it, exactly the worth of the flagged lost and broken lines, each total only when positive |
| LandedCost.LandedCostConserved | stock/inbound_accept.go:24-44 | Accepted, lost and broken goods at landed cost are worth the goods plus shipping plus COD fee, whatever the signs |
| LandedCost.AcceptBalance | stock/inbound_accept.go:121-238 | Both books of an acceptance are off by exactly what a negative lost or broken total leaves out, so they balance exactly when neither is negative |
| LandedCost.AcceptedExactlyWhen | stock/inbound_accept.go:46-238 | For every payload: accepted if and only if the source is known, the creation is not refused, the fee divides, neither goods nor accepted value nor goods with shipping are zero, the negative totals left unbooked are under the tolerance and every account exists |
| LandedCost.NothingUnbooked | stock/inbound_accept.go:121-238 | With nonnegative counts, prices and fees nothing is left unbooked |
| LandedCost.AdjustBalance | stock/adjustment.go:80-175 | Both books of an adjustment balance exactly, whatever the lines |
| LandedCost.AdjustedExactlyWhen | stock/adjustment.go:80-194 | For every payload: accepted if and only if the reference is new, something is to be booked, a positive lost total comes with a broken total that is not zero, and every account exists; lost goods alone are always refused |
| Payments.PaymentService.PaymentReject | payment/payment_reject.go:55-100 | Only the receiver, only while pending |
| Payments.PaymentService.PaymentCancel | payment/payment_cancel.go:44-88 | Only the sender, only while pending |
| Payments.PaymentService.PaymentAccept | payment/payment_accept.go:55-145 | Both books and the new status, or neither |
| Payments.PaymentAcceptedExactlyWhen | payment/payment_accept.go:68-141 | Accepted if and only if the payment is the team's, pending, not zero, not booked before, and its accounts exist |
| PaymentEffects.PaymentMoves | payment/payment_accept.go:95-135 | An accepted payment of an amount takes it off the sender's cash and payable and off the receiver's receivable and adds it to the receiver's cash; no other account of any book moves |
| PaymentEffects.PaymentSettlesDebt | payment/payment_accept.go:95-135 | It lowers what the receiver claims from the sender, and what the sender owes it, by exactly the amount, and no other two teams' debt |
| DebtRuns.PaidDebt | payment/payment_create.go:41-55 | Made by one team and accepted by the other, a payment is accepted exactly when it is not zero and its accounts exist, and then lowers both sides of the debt by its amount |
| DebtRuns.DecidedExactlyWhen | payment/payment_reject.go:55-100 | A payment becomes rejected exactly for its receiver and cancelled exactly for its sender, while pending; nothing is booked and no other payment changes |
| Moves.MovingBookPasses | accounting_core/journal_entries.go:184-265 | A book whose posts balance and move every account they name passes exactly when it has posts, none of them zero, and its accounts exist; it then emits entries, none with equal sides |
| Moves.GoodPostsPass | accounting_core/journal_entries.go:184-265 | A book of posts passes with no equal-sided entry exactly when it has posts, none fails, its sides meet within the tolerance and the total posted to every account is not zero |
| Moves.BookMoves | accounting_core/journal_entries.go:331-399 | A book that passes moves each account by the total posted to it, in the direction of its seeded side |
| DebtMirror.OrderNeutral | revenue/order_created.go:196-333 | What an order, with any borrowings, lets one team claim from another is what the other comes to owe it, for every two teams |
| DebtMirror.AcceptNeutral | stock/inbound_accept.go:135-156 | So for an acceptance |
| DebtMirror.AdjustNeutral | stock/adjustment.go:128-170 | So for the charges of an adjustment |
| DebtMirror.PaymentNeutral | payment/payment_accept.go:95-135 | So for a payment |
| DebtRuns.RunKeepsSound | revenue/order_cancel.go:41-51 | Every run of orders, cancellings, acceptances, adjustments and payments keeps the ledger valid, the chart seeded, and in every transaction each receivable equal to the mirrored payable |
| DebtRuns.BalanceIsNets | accounting_core/journal_entries.go:184-265 | A balance is the total of the nets of the transactions |
| DebtRuns.DebtsAreMirrored | payment/payment_accept.go:95-135 | In every reachable state, for all teams a and b, the net receivable of a against b in a's book is the net payable of b against a in b's book |
| DebtRuns.RunKeepsBooked | payment/payment_accept.go:68-141 | In every reachable state the accepted payments are exactly those whose reference is booked |
| DebtRuns.PendingPaymentGoesThrough | payment/payment_accept.go:68-141 | So in every reachable state a pending payment is accepted exactly when it is not zero and its accounts exist |
| DebtRuns.DecidedForever | payment/payment_accept.go:68-76 | Over every run a payment that was accepted, rejected or cancelled keeps its status and amount |
| Revenue.DraftFund | revenue/revenue.go:169-247 | Every sign branch of a fund posts the specified amounts |
| Revenue.RevenueProcessor.Record | revenue/revenue.go:113-267 | Nothing for a recorded reference or a fund as estimated, else one transaction of one book under the shop of the stream; also `withdrawal` and `adjustment` |
| Revenue.RevenueProcessor.RevenueStream | revenue/revenue.go:18-83 | Events in turn up to the first that fails, with the authentication and the last Init carried along |
| Replay.KindsNeverShareReferences | revenue/revenue.go:124-127 | Events of different kinds never share a reference; a fund's names its order, a withdrawal's its shop and second |
| Replay.AdjustmentNaming | revenue/revenue.go:338-354 | An adjustment is named by shop and second exactly when its order id is made of dashes and spaces only |
| Replay.DeleteRecorded | revenue/revenue.go:129-137 | Deleting an event whose reference was already recorded, or a fund as estimated, changes neither the outcome nor the final state of any stream |
| Replay.DeleteDuplicate | revenue/revenue.go:129-137 | Of two events of a stream with one reference the later can be deleted, whatever came between |
| Replay.ReplayResumes | revenue/revenue.go:32-82 | Sending a finished stream again on a new connection, with more events after it, goes on exactly where it ended |
| Replay.ReplayBooksNothing | revenue/revenue.go:32-82 | A whole stream sent twice books nothing the second time |
| EventAcceptance.EventSigned | revenue/revenue.go:169-257 | The book of every event balances exactly |
| EventAcceptance.EventBookedExactlyWhen | revenue/revenue.go:113-267 | An event that is not skipped is booked if and only if its shop exists, its tags repeat no new one, its amount is not zero and the accounts it touches exist |
| EventEffects.EventGains | revenue/revenue.go:113-267 | In closed form, through every sign branch, what a booked event moves in every account; a fund within 0.0001 of its estimate and a recorded event change nothing |
| Streams.StreamOutcome | revenue/revenue.go:18-83 | A stream ends well if and only if every event goes through, and each is booked for the team and shop of the last Init before it |
| Streams.StreamFailure | revenue/revenue.go:18-83 | A stream that fails has booked exactly the events before the one that failed |
| Streams.NothingWithoutInit | revenue/revenue.go:32-82 | Without an Init that authenticates nothing is booked |
| EventEffects.FundMoved | revenue/revenue.go:172-247 | Through every sign branch, in closed form: a return is an expense of its amount, takes the estimate off the receivable and the difference to the adjustments; a payout corrects the receivable by amount less estimate |
| Settlement.ReverseStep | revenue/order_cancel.go:41-51 | An accepted cancelling takes exactly the net of the order's transaction off the receivable and moves no other transaction |
| Settlement.ReceivableSettles | revenue/revenue.go:172-257 | Over every run of orders, events and cancellings, a team's selling receivable is where it started plus the amounts of the recorded bookings, a cancelling taking off what its order stood for, and every order nets to what it stands for |

## Left out

- Floating-point rounding: amounts are reals, so nothing is claimed about bit-level sums.
- Integer widths: counts and ids are unbounded; an overflow of the 64-bit item counts is not modelled.
- RPC handlers, authorization rules, HTTP, cloud tasks, tracing, migrations and caches: plumbing. Whether a token is valid is a field of the event.
- What labels record: which shop, customer service, supplier, tags and type labels a transaction has, its description and its creator, and the daily tables kept per label, which are the same update at another key. What labels refuse, a shop or a repeated new tag, is modelled.
- `SanityTag`: the tags of a payload are the names it leaves; trimming, lower case and underscores are not modelled.
- Accounts and shops opened while a run goes on: a run may start with any, and keeps them.
- Order of rows in a table: the journal is a bag; update messages are bags of entries.
- Entry times: a row's day is the day of its commit; `EntryTime` and `CustomTimeOption` would only choose another day. The incremental code takes the UTC date (report/daily_balance_update.go:113) and the batch SQL the Jakarta date (report/report_balance/account_daily_sync.go:11); agreement is up to one shared day.
- Retries, duplicate deliveries and concurrent updates of one row: the update is not idempotent, so each queued entry is delivered once, one at a time. Entries are queued one by one, which allows more interleavings than whole messages do.
- A builder committed a second time: each is committed once, as in every caller.
- Engine.BookManager.End: the commit of the database itself does not fail, and a message once queued is not lost.
- Engine.BookManager.CreateTransaction: refuses a used reference, a missing shop and a repeated new tag; the recognition of the driver's error text, and database failures, are not modelled.
- Engine.EntryBuilder.Transaction: only the id is set, not the description.
- Mutation.TransactionMutation.RollbackEntry: its two passes over the team map, set then commit, are one pass; the rows are the same, since a failure of either undoes both.
- AsyncIndex.AsynchronousAgreement: counts the debit halves of split entries as unsent, because the code never sends them; the agreement without that term is QuiescentAgreement's.
- Report.ReportOfOrderedRun: one team and midnight bounds; reports with open ends and over several teams are not modelled.
- Resync.BatchTable.BalanceResync: each SQL statement is one step on a ghost table.
- Recalculate.RebuildIgnoresOldAmounts: the opening balance is kept as it was, since the code never resets it.
- Acceptance.InboundAccept: when fees would be divided by no items the code computes with infinities and always ends in some error; which one is not modelled, `NotFinite` stands for all.
- Acceptance.StockAdjustment: lost goods are booked with the broken total, as coded; nothing is claimed about intended amounts.
- Settlement.ReceivableSettles: a negative adjustment raises the receivable, as coded; nothing is claimed about intended amounts.
- Register.JournalIsRegister: updates of restocks that name their products and a positive shipping fee; what the others do is in `Reuse`.
- DebtRuns.DebtsAreMirrored: borrowed stock between teams is not mirrored and not claimed, since the warehouse side of own stock is never committed (revenue/order_created.go:175-187).
- Orders.OnOrder: payload parts that are missing altogether, and order events other than creation, are not modelled.
- References: only the types of the modelled bookings; `RefID.Extract` parses the type as the number, so there is no round trip to state.
- `revenue/selling_receivable_adjustment.go`: its rollback runs in a nested transaction that dispatches early.
- `DailyBalanceCalculate`, the older transaction packages, ledger lists, monthly views, pagination, expense and tag services: unused or simple.
