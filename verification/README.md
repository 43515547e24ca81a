# StockFlow: verified model of the transactional core

StockFlow sells stock that several buyers, agents and background jobs want at once. This
project models the parts that must not go wrong, and proves what they promise.

- **Stock, orders, ledger.** `Tables` holds the rows, `Transactions` what each use case
  does statement by statement, `Movements` the closed form of every request, `Books` what
  the books promise, `BooksKept` that every request keeps it, `Outcomes` when each
  request succeeds and what it leaves, field by field. `UseCases` is the same code
  as methods on one connection, proved against those functions. `Interleaving` lets any
  number of transactions run statement by statement at READ COMMITTED with row locks kept
  to commit, and shows that this is the same as running the committed ones alone in commit
  order; `Deadlock`, `Sellout` and `Guarantees` draw the consequences. `UuidOrder` relates
  the string order the application sorts by to the order of the database.
- **Outbox.** `OutboxRelay` is one poll with its savepoints and the audit handler,
  `RelayRuns` any number of relays polling, crashing and retrying.
- **Idempotency keys.** `Idempotency` is the life of one key under everything that can
  happen to it, `IdempotencyService` the table and the service, one request at a time.
- **Refresh tokens.** `RefreshTokens` interleaves refreshes, logouts and account updates
  statement by statement (section 4.14.2 of RFC 9700), `RefreshSession` is the code.
- **Expiry sweep.** `ExpirySweep` pages by cursor over a set that changes underneath it.
- **Prices.** `Pricing` chooses a price and adds up a cart, `Money` reads and writes amounts.
- **Shared.** `Sequences` sorts and adds up, `Cart` is the line of a cart, `Tables` and
  `Wrappers` are used throughout.
- **Streams.** `Sse` cuts text into events (a subset of section 9.2.6 of the WHATWG HTML
  standard), `ToolLoop` runs the agent's tool calls and folds them for the screen.

`dafny verify dfyconfig.toml` checks everything. Every lemma switches automatic induction
off; each induction is in its body.

How the model names things:

- A statement is atomic and locks the rows it reads for update or writes; a statement that
  waited is evaluated on the rows as committed when its wait is over. A lock timeout, a
  crash or a lost connection is an `Abort`.
- One stock row exists per (product, warehouse), so the pair is its id. An order has each
  product once, so (order, product) names a reservation. A ledger row's fresh id is named
  by its cause. An order's reservations are kept together, in any order; the locking read
  sorts them by product, as the query does. Uuids are numbers; `UuidOrder` justifies that
  their order, by which the database sorts, is the one the application sorts by.
- Ledger and outbox rows appear in commit order in an interleaving. The database assigns
  event ids at insert time; `RelayRuns` lets events appear with any new id at any moment.
- A poll's clock stands still at the start of its transaction, as `now()` does.
- In `Interleaving` the idempotency key of an order is only a row to lock, the last one the
  work's transaction takes; its states are in `Idempotency`.
- Which of its steps fail is up to the adversary in every state machine: a tool, a
  handler, a model stream, a transaction or a request in flight may stop anywhere.
- In `Money`, `Denotes(n, m)` says that the numeral n is m hundredths, as an equation
  between integers. In `Pricing`, well-formed rows agree on their list's fields within a
  list and have distinct tiers in it, which the price tables guarantee.

One promise is not kept on all inputs. `pick-price.ts` says that the choice never depends
on row order. The code takes the first of two rows for the same tier of one list, so it can
(`RowOrderCanMatter`); `OrderFreeIff` says exactly when it does not, and `OrderIrrelevant`
that well-formed rows are always safe. The price tables keep tiers unique within a list and
product (`db/migrations/004_pricing.sql:37`), so such rows cannot come from the resolver,
only from someone calling `pickPrice` directly.

Another fails while logins run. `user.use-cases.ts:129` says that a new password or a
deactivation ends every existing session. A session issued after the update has read the
rows and before it commits goes on (`LoginOutlives`), and so does one issued after the commit
by a login that had checked the old credentials (`LateLoginOutlives`). `EndsEverySession` is
the exact condition for the commit to leave all of the user's sessions revoked, which a mere
"no login in between" is not (`LoginAndOut`); `SurvivingSessions` says what any session
unrevoked later on can rest on.

## Model

| member | source | states |
|---|---|---|
| `Guarantees.StockConserved` | apps/api/src/modules/inventory/application/stock-movement.service.ts:72-96 | in every state any interleaving of transactions can commit: no row below zero, reserved equals the sum of held reservations, the ledger of each row is a chain from (0,0) that ends at its level, version counts its entries, and signed adjustments = available + reserved + consumed |
| `Guarantees.OrderHistory` | apps/api/src/modules/ordering/application/use-cases/order-transition.use-cases.ts:47-73 | in every such state the outbox events of an order are a path through the transition table, created first, each `from` the status before, ending at the order's status; no event type twice, never both cancelled and expired; no order, no events |
| `Guarantees.LegalHistory` | apps/api/src/modules/ordering/domain/order-state-machine.ts:34-43 | in every such state, event by event and on literal statuses: created first; only a reserved order is paid, cancelled or expired; only a paid one is fulfilled, right after its payment; nothing else ever happens to an order |
| `Guarantees.CanCommit` | apps/api/src/platform/database/unit-of-work.ts:46-50 | whatever a request does alone it can do in the system: from a quiet state some run commits exactly that |
| `Outcomes.CreateAccepted` | apps/api/src/modules/ordering/application/use-cases/create-order.use-case.ts:112-159 | an order is accepted if and only if it has lines, no product twice, every quantity at least one, a new id, and for each line a stock row with at least that much available |
| `Outcomes.CreateRefused` | apps/api/src/modules/ordering/application/use-cases/create-order.use-case.ts:112-159 | the error of every order that is not accepted, in the order of the checks; a shortage names the first line, by product, that its row does not cover |
| `Outcomes.CreateDoes` | apps/api/src/modules/ordering/application/use-cases/create-order.use-case.ts:72-108 | an accepted order moves each line's quantity from available to reserved, holds exactly its lines, starts reserved with one event, and touches nothing else |
| `Outcomes.TransitionAccepted` | apps/api/src/modules/ordering/application/use-cases/order-transition.use-cases.ts:47-56 | on sound books a transition repeats and changes nothing, or succeeds, which is exactly for reserved to paid, cancelled or expired and for paid to fulfilled, or is refused as such |
| `Outcomes.TransitionDoes` | apps/api/src/modules/ordering/application/use-cases/order-transition.use-cases.ts:47-98 | cancelling and expiring give every reserved quantity back and release its reservations, fulfilling hands it out and consumes them, paying moves no stock; status and event say so and no other row changes |
| `Outcomes.AdjustAccepted` | apps/api/src/modules/inventory/application/use-cases/adjust-stock.use-case.ts:29-60 | an adjustment succeeds if and only if it is not zero and the row, which an increase may begin, stays at zero or more; level, version and errors field by field |
| `Outcomes.ProposeAccepted` | apps/api/src/modules/copilot/infrastructure/sql-proposal.repository.ts:71-88 | a proposal is stored, undecided, if and only if its delta is not zero and its id is new |
| `Outcomes.DecisionAccepted` | apps/api/src/modules/copilot/application/use-cases/proposal.use-cases.ts:34-79 | a decision is for a known, undecided proposal of somebody else; a rejection then succeeds, an approval if and only if the adjustment does |
| `Guarantees.RepeatsAddNothing` | apps/api/src/modules/ordering/application/use-cases/order-transition.use-cases.ts:51-52 | over any run: once a transition of an order is in the history, a repeat of it, or a cancel after an expire and the reverse, commits without changing the committed tables, however much later and even if both were racing |
| `Guarantees.ReleaseNeverRefused` | apps/api/src/modules/ordering/application/use-cases/order-transition.use-cases.ts:51-53 | after any requests among which an order was cancelled or expired, cancelling or expiring it succeeds and changes nothing |
| `Guarantees.ReservationsTraced` | apps/api/src/modules/ordering/application/use-cases/order-transition.use-cases.ts:75-98 | in every such state a reservation's status is the one its order's status calls for, with one reserve entry and exactly the release or consume entry of equal quantity that goes with it |
| `Guarantees.ProposalsAccounted` | apps/api/src/modules/copilot/application/use-cases/proposal.use-cases.ts:34-57 | in every such state an approved proposal has exactly one ledger entry, moving stock by its delta at its key; a pending, rejected or unknown one has none |
| `Guarantees.SpelledPath` | apps/api/src/modules/ordering/domain/order-state-machine.ts:34-57 | a history the transition table spells is strictly forward: stages only rise, so no status is entered twice |
| `Interleaving.Serializable` | apps/api/src/platform/database/unit-of-work.ts:28-57 | however statements of concurrent transactions interleave under row locks kept to commit, with rollbacks anywhere, the committed tables equal those of running the committed requests alone in commit order |
| `Interleaving.AlwaysSound` | apps/api/src/modules/inventory/infrastructure/sql-inventory.repository.ts:89-149 | the books (all six invariants of module Books) hold in every committed state of every interleaving |
| `Interleaving.BooksBrokenUnreachable` | apps/api/src/modules/ordering/application/use-cases/order-transition.use-cases.ts:91-91 | in no interleaving can the next statement of any transaction throw "holds more than inventory has reserved" |
| `Interleaving.ThrowIsReachedAlone` | apps/api/src/platform/database/unit-of-work.ts:46-56 | an error thrown under interleaving is the error the request alone would meet on the tables committed at that moment |
| `Interleaving.ExecFrame` | apps/api/src/modules/inventory/infrastructure/sql-inventory.repository.ts:110-149 | what a statement does depends only on the rows it locks |
| `Interleaving.ReplayFrame` | apps/api/src/modules/inventory/infrastructure/sql-inventory.repository.ts:82-88 | changing rows a transaction has not locked changes nothing it has done so far |
| `Deadlock.NoDeadlock` | apps/api/src/modules/ordering/application/use-cases/create-order.use-case.ts:111-150 | in every reachable state, for every path of waiting transactions, the last does not wait for the first: no cycle, because rows are taken in rising rank (order, reservations, proposal, stock by product, idempotency key) |
| `Deadlock.SomeoneIsFree` | apps/api/src/modules/ordering/application/use-cases/create-order.use-case.ts:111-150 | in every reachable state with a transaction under way, some transaction has no statement left or waits for nobody |
| `Deadlock.ProgramOrderly` | apps/api/src/modules/ordering/application/use-cases/create-order.use-case.ts:120-120 | every request starts with statements that take rows in rising rank, create-order because its lines are sorted by product |
| `Deadlock.KeyIsLast` | apps/api/src/modules/ordering/application/idempotency.service.ts:48-52 | completing the idempotency key is the last statement of an order's transaction, and the only one that locks its row |
| `Deadlock.HeldStmtsOrderly` | apps/api/src/modules/ordering/infrastructure/sql-reservation.repository.ts:67-76 | the movements that follow the lock on the held reservations take their stock rows in rising product order, because the read sorts by product; the rows may be stored in any order |
| `UuidOrder.UuidOrderAgrees` | apps/api/src/modules/ordering/application/use-cases/create-order.use-case.ts:153-171 | on uuids in either case, JavaScript string order after lower-casing is the numeric order the database uses, and equality agrees too |
| `Sellout.SellsExactly` | apps/api/src/modules/inventory/infrastructure/sql-inventory.repository.ts:110-122 | K one-unit orders on N units, interleaved in any way and failing only for shortage, commit exactly min(N, K) once all have ended |
| `Sellout.OneUnitAccepted` | apps/api/src/modules/inventory/infrastructure/sql-inventory.repository.ts:110-122 | a one-unit order succeeds if and only if its id is new and a unit is available, and with a new id fails for shortage only |
| `Movements.RequestRuns` | apps/api/src/modules/ordering/application/use-cases/order-transition.use-cases.ts:47-98 | running any request statement by statement has a closed-form result, error cases and their order included |
| `BooksKept.RequestKeeps` | apps/api/src/modules/ordering/application/use-cases/create-order.use-case.ts:58-109 | every request of every kind that commits keeps every invariant of the books, through the states in which the sum invariant is broken |
| `BooksKept.CreateKeeps` | apps/api/src/modules/ordering/application/use-cases/create-order.use-case.ts:112-150 | an order that reserves all its lines keeps the books: reserved rises by what its new held reservations add up to, each with its ledger entry |
| `BooksKept.TransitionKeeps` | apps/api/src/modules/ordering/application/use-cases/order-transition.use-cases.ts:47-98 | a transition keeps the books: settling all held reservations gives back or hands out exactly their quantities, and cannot run out of reserved stock |
| `BooksKept.AdjustKeeps` | apps/api/src/modules/inventory/application/use-cases/adjust-stock.use-case.ts:29-60 | an adjustment, including the first one for a row, keeps the books and traces to no reservation |
| `BooksKept.DecisionKeeps` | apps/api/src/modules/copilot/application/use-cases/proposal.use-cases.ts:34-79 | approving (one adjustment) or rejecting (none) keeps the books |
| `BooksKept.BooksNeverBroken` | apps/api/src/modules/ordering/application/use-cases/order-transition.use-cases.ts:91-91 | on sound books no request fails with "holds more than inventory has reserved" |
| `BooksKept.SettleSucceeds` | apps/api/src/modules/ordering/application/use-cases/order-transition.use-cases.ts:80-92 | when a row has at least what an order holds of it, the settle loop never finds too little, although each step lowers the row |
| `BooksKept.SortSorts` | apps/api/src/modules/ordering/application/use-cases/create-order.use-case.ts:120-120 | sorting lines by product keeps exactly the lines and orders them; with distinct products strictly |
| `Books.CoveredByStock` | apps/api/src/modules/ordering/application/use-cases/order-transition.use-cases.ts:75-98 | no order holds more of a stock row than the row has reserved |
| `Transactions.Exec` | apps/api/src/modules/ordering/application/use-cases/order-transition.use-cases.ts:47-98 | a statement makes only shallower statements necessary: the lock on an order those on its reservations, these the movements, these their ledger rows, so every transaction ends |
| `UseCases.Tx.AdjustAtomic` | apps/api/src/modules/inventory/infrastructure/sql-inventory.repository.ts:89-108 | the conditional update with its insert of a missing row on increase: new row, levels before and after, or null with nothing moved |
| `UseCases.Tx.ReserveAtomic` | apps/api/src/modules/inventory/infrastructure/sql-inventory.repository.ts:110-122 | moves from available to reserved exactly when available covers it, else null and unchanged |
| `UseCases.Tx.ReleaseAtomic` | apps/api/src/modules/inventory/infrastructure/sql-inventory.repository.ts:124-136 | moves from reserved back to available exactly when reserved covers it, else null and unchanged |
| `UseCases.Tx.ConsumeAtomic` | apps/api/src/modules/inventory/infrastructure/sql-inventory.repository.ts:138-149 | takes out of reserved exactly when reserved covers it, else null and unchanged |
| `UseCases.Tx.AppendEntry` | apps/api/src/modules/inventory/infrastructure/sql-ledger.repository.ts:50-75 | one row at the end of the ledger, nothing else |
| `UseCases.Tx.AppendEvent` | apps/api/src/modules/ordering/infrastructure/sql-outbox.repository.ts:48-54 | one event at the end of the outbox, nothing else |
| `UseCases.Tx.LockHeldRows` | apps/api/src/modules/ordering/infrastructure/sql-reservation.repository.ts:67-76 | exactly the held reservations of the order, sorted by product whatever order they are stored in |
| `UseCases.Tx.SettleReservations` | apps/api/src/modules/ordering/infrastructure/sql-reservation.repository.ts:78-87 | the named reservations that are still held change status, no others |
| `UseCases.Record` | apps/api/src/modules/inventory/application/stock-movement.service.ts:72-96 | a successful movement appends one ledger row with the levels before and after; a null one appends none |
| `UseCases.Reserve` | apps/api/src/modules/inventory/application/stock-movement.service.ts:43-51 | a reserve and its ledger row, or neither |
| `UseCases.Release` | apps/api/src/modules/inventory/application/stock-movement.service.ts:53-61 | a release and its ledger row, or neither |
| `UseCases.Consume` | apps/api/src/modules/inventory/application/stock-movement.service.ts:63-70 | a consume and its ledger row, or neither |
| `UseCases.AdjustMove` | apps/api/src/modules/inventory/application/stock-movement.service.ts:33-41 | an adjustment and its ledger row, or neither |
| `UseCases.SettleStock` | apps/api/src/modules/ordering/application/use-cases/order-transition.use-cases.ts:75-98 | the loop over held reservations is the fold of single movements, then one settle; or the throw |
| `UseCases.ApplyTransition` | apps/api/src/modules/ordering/application/use-cases/order-transition.use-cases.ts:47-73 | the method leaves the tables of the transition's closed form and returns the order as it then is |
| `UseCases.CancelOrder` | apps/api/src/modules/ordering/application/use-cases/order-transition.use-cases.ts:106-114 | on sound tables succeeds exactly for reserved, cancelled and expired orders, with the transition's tables |
| `UseCases.ExpireOrder` | apps/api/src/modules/ordering/application/use-cases/order-transition.use-cases.ts:117-125 | the same for expiring |
| `UseCases.MarkOrderPaid` | apps/api/src/modules/ordering/application/use-cases/order-transition.use-cases.ts:128-136 | on sound tables succeeds exactly for reserved and paid orders, with the transition's tables |
| `UseCases.FulfillOrder` | apps/api/src/modules/ordering/application/use-cases/order-transition.use-cases.ts:139-147 | on sound tables succeeds exactly for paid and fulfilled orders, with the transition's tables |
| `UseCases.ReserveStock` | apps/api/src/modules/ordering/application/use-cases/create-order.use-case.ts:112-150 | the loop reserves every line in product order and collects one held reservation per line, or throws at the first shortfall |
| `UseCases.CreateOrder` | apps/api/src/modules/ordering/application/use-cases/create-order.use-case.ts:58-109 | succeeds exactly for the orders that are acceptable, written out on lines and stock rows, and leaves the tables of the create's closed form, or fails with its error |
| `UseCases.AdjustStock` | apps/api/src/modules/inventory/application/use-cases/adjust-stock.use-case.ts:29-60 | the movement and the row read back |
| `UseCases.DecideProposal` | apps/api/src/modules/copilot/application/use-cases/proposal.use-cases.ts:34-79 | approve and reject on the locked proposal, errors in the source's order |
| `UseCases.CreateProposal` | apps/api/src/modules/copilot/infrastructure/sql-proposal.repository.ts:71-88 | a new undecided proposal; a zero delta is refused |
| `UseCases.WithTransaction` | apps/api/src/platform/database/unit-of-work.ts:28-57 | the request's whole result or, on any error, the tables exactly as before; sound books stay sound and the broken-books error never comes |
| `OutboxRelay.BackoffBounds` | apps/api/src/platform/outbox/outbox.relay.ts:33-38 | every retry delay is between 150 and 37500 ms, whatever the attempt and the random draw |
| `OutboxRelay.BackoffDoubles` | apps/api/src/platform/outbox/outbox.relay.ts:33-38 | before the random quarter the delay is 200 ms at first and doubles with each attempt up to 30 s |
| `OutboxRelay.BackoffDrawn` | apps/api/src/platform/outbox/outbox.relay.ts:37-37 | the draw scales that delay by 0.75 to 1.25, to the nearest millisecond |
| `OutboxRelay.BatchTakes` | apps/api/src/platform/outbox/outbox.relay.ts:159-168 | a claimed row is pending, due and unlocked; one like that is passed over only for a full batch of smaller ids |
| `OutboxRelay.BatchExists` | apps/api/src/platform/outbox/outbox.relay.ts:159-168 | whatever is due and locked, the claiming query has an answer |
| `OutboxRelay.EachAlone` | apps/api/src/platform/outbox/outbox.relay.ts:172-196 | in a batch every event ends as if it had been handled alone; it is processed and has an audit row exactly if it has a handler that does not throw; other events are untouched |
| `OutboxRelay.ClaimAndDispatch` | apps/api/src/platform/outbox/outbox.relay.ts:158-197 | on the batch its claiming query returns, the loop with one savepoint per event equals handling each event alone in turn and leaves every other event as it was; processed + failed = claimed <= batch size, dead <= failed, processed counts the successes |
| `OutboxRelay.DispatchOne` | apps/api/src/platform/outbox/outbox.relay.ts:172-195 | succeeds exactly if there is a handler for the event and it does not throw: then processed and audited; otherwise the audit log is as before, whatever the handler wrote, and there is one more attempt |
| `OutboxRelay.RecordFailure` | apps/api/src/platform/outbox/outbox.relay.ts:200-221 | one more attempt and a later due time, or dead exactly at the last allowed attempt |
| `OutboxRelay.Handle` | apps/api/src/modules/audit/application/audit-log.handler.ts:78-97 | one audit row per event, however often it is handled; a handler that throws leaves exactly the rows it had written |
| `OutboxRelay.Relay.RegisterHandler` | apps/api/src/platform/outbox/outbox.relay.ts:112-119 | all of a handler's event types or none: it fails exactly if one is taken |
| `RelayRuns.EveryRun` | apps/api/src/platform/outbox/outbox.relay.ts:158-221 | with any number of relays interleaving and crashing: no event in two polls; an audit row exists if and only if the event is processed, and once; attempts equals the failed dispatches that were committed; unprocessed events are dead exactly at max of them and pending below |
| `RelayRuns.NeverSilentlyProcessed` | apps/api/src/platform/outbox/outbox.relay.ts:179-183 | in no run is an event without a registered handler processed or audited |
| `RelayRuns.UnhandledFails` | apps/api/src/platform/outbox/outbox.relay.ts:179-195 | every committed dispatch of such an event adds one failure and one attempt |
| `RelayRuns.RetriedInTime` | apps/api/src/platform/outbox/outbox.relay.ts:210-219 | an event that failed and is still alive can be claimed again 37.5 s after the poll it failed in started |
| `RelayRuns.CanProcess` | apps/api/src/platform/outbox/outbox.relay.ts:158-197 | a relay that meets a due event with a handler can process it: the run |
| `RelayRuns.PollHandlesAll` | apps/api/src/platform/outbox/outbox.relay.ts:158-197 | a relay's poll, dispatched step by step in any state, leaves the same rows as the loop that handles its batch in one go, with the poll's start as its clock |
| `RelayRuns.EventsOnlySettle` | apps/api/src/platform/outbox/outbox.relay.ts:183-221 | over any run, only pending events ever change, attempts never go down and the audit log only grows |
| `RelayRuns.QueueDrains` | apps/api/src/platform/outbox/outbox.relay.ts:158-197 | from any reachable state with nothing new coming in, events in committed polls plus the remaining sum of (max - attempts) never exceed that sum at the start |
| `RelayRuns.CommitDrains` | apps/api/src/platform/outbox/outbox.relay.ts:158-197 | a committed poll lowers the sum of (max - attempts) over pending events by at least one for every event it claimed |
| `RelayRuns.SpentWhenDrained` | apps/api/src/platform/outbox/outbox.relay.ts:158-221 | that sum is zero exactly when nothing is pending |
| `RelayRuns.NoEarlyRetry` | apps/api/src/platform/outbox/outbox.relay.ts:200-221 | in no run does a poll claim an event that has failed before, unless the poll its last committed failure came from started at least 150 ms earlier |
| `RelayRuns.NotHeldUp` | apps/api/src/platform/outbox/outbox.relay.ts:158-197 | from any reachable state with nothing new coming in, while polls pass over a due event: events handled plus its own attempts left stay within the sum of attempts left, and every committed poll beyond those under way at the start handled a full batch, so failing events hold it up for a bounded number of polls |
| `RelayRuns.ClaimedInTurn` | apps/api/src/platform/outbox/outbox.relay.ts:159-168 | a poll takes an eligible event unless a full batch of eligible events comes before it |
| `Idempotency.WorksOnce` | apps/api/src/modules/ordering/application/idempotency.service.ts:39-61 | under duplicates, crashes, lost and stale releases and deletion at any moment: committed works = committed deletions of a completed key, plus one if it is completed now; with no such deletion at most one |
| `Idempotency.ReplaysAreCommitted` | apps/api/src/modules/ordering/application/idempotency.service.ts:41-45 | a replay is the response of the last work committed by then, and went to a request with the same hash |
| `Idempotency.WorksThenReplays` | apps/api/src/modules/ordering/application/idempotency.service.ts:39-61 | a first request works and commits, and a duplicate after it gets the same response without working: the run |
| `Idempotency.FailedIsRetried` | apps/api/src/modules/ordering/application/idempotency.service.ts:53-60 | a key whose work failed and was released can be claimed again, with another body: the run |
| `IdempotencyService.KeyTable.Claim` | apps/api/src/modules/ordering/infrastructure/sql-idempotency.repository.ts:25-52 | claims a missing or failed key with the new hash and nothing else; otherwise reports the row as it is |
| `IdempotencyService.KeyTable.Complete` | apps/api/src/modules/ordering/infrastructure/sql-idempotency.repository.ts:54-65 | completes exactly a key in progress under the same hash; otherwise reports that it is not held and changes nothing |
| `IdempotencyService.KeyTable.Release` | apps/api/src/modules/ordering/infrastructure/sql-idempotency.repository.ts:67-73 | fails exactly a key in progress under the same hash; other keys untouched |
| `IdempotencyService.KeyTable.DeleteExpired` | apps/api/src/modules/ordering/infrastructure/sql-idempotency.repository.ts:84-87 | removes exactly the keys last changed before the limit and counts them |
| `IdempotencyService.Execute` | apps/api/src/modules/ordering/application/idempotency.service.ts:39-61 | works exactly if the claim was free and the work succeeds; a completed key with the same hash answers with its response, one in progress and another hash are refused as such; no other key changes |
| `RefreshTokens.RotationNeverForks` | apps/api/src/modules/identity/infrastructure/sql-refresh-token.repository.ts:25-49 | in any interleaving, a family's unused and unrevoked tokens plus its claims not yet followed by an issue are at most one |
| `RefreshTokens.OneSession` | apps/api/src/modules/identity/application/session-issuer.ts:47-75 | all tokens of a family have one session end, and none expires after it |
| `RefreshTokens.ClaimedInTime` | apps/api/src/modules/identity/infrastructure/sql-refresh-token.repository.ts:28-40 | in no run is a token claimed at or after its expiry, which is at or before its session's end |
| `RefreshTokens.NoClaimAfterSessionEnd` | apps/api/src/modules/identity/application/session-issuer.ts:58-64 | once a session has ended none of its tokens is ever claimed again, tokens issued late included |
| `RefreshTokens.GoodTokenRotates` | apps/api/src/modules/identity/application/use-cases/refresh-session.use-case.ts:23-46 | a known, unused, unlocked token in time, in a family without a revoked row, is claimed, and the token issued for it continues user, organisation, family and session end, with its expiry at the earlier of the two limits |
| `RefreshTokens.NoClaimAfterRevocation` | apps/api/src/modules/identity/infrastructure/sql-refresh-token.repository.ts:35-37 | once any token of a family is revoked no token of it is ever claimed again, not even one issued later by a refresh already in flight |
| `RefreshTokens.RevokeKills` | apps/api/src/modules/identity/infrastructure/sql-refresh-token.repository.ts:60-65 | revoking a family that has a token leaves it dead |
| `RefreshTokens.ReplayEndsFamily` | apps/api/src/modules/identity/application/use-cases/refresh-session.use-case.ts:27-35 | a spent token presented again ends its family at its revoking statement, whatever other requests run in between |
| `RefreshTokens.EndSessionsKills` | apps/api/src/modules/identity/application/use-cases/user.use-cases.ts:129-132 | a committed password change or deactivation kills every family in which the user had a token when the update ran, whatever ran before its commit |
| `RefreshTokens.EndsEverySession` | apps/api/src/modules/identity/application/use-cases/user.use-cases.ts:129-132 | in any run it leaves every session of the user revoked if and only if every session issued to them between the update and its commit was revoked again by then |
| `RefreshTokens.SurvivingSessions` | apps/api/src/modules/identity/application/use-cases/user.use-cases.ts:129-132 | at any time after the commit, a session of the user that is not revoked was issued between the update and the commit, or after it by a login that had checked the credentials before it, or rests on credentials checked after it; nothing older survives |
| `RefreshTokens.LoginOutlives` | apps/api/src/modules/identity/application/use-cases/user.use-cases.ts:129-132 | a run in which the promise fails: a login issued between the update and its commit is not revoked afterwards |
| `RefreshTokens.LateLoginOutlives` | apps/api/src/modules/identity/application/use-cases/login.use-case.ts:58-77 | a run in which it fails the other way: credentials checked before the commit, session issued after it and not revoked |
| `RefreshTokens.LoginAndOut` | apps/api/src/modules/identity/application/use-cases/user.use-cases.ts:129-132 | a run with a login in between that is logged out again: after the commit every session of the user is revoked, so a login coming in between does not decide |
| `RefreshSession.TokenRepository.Claim` | apps/api/src/modules/identity/infrastructure/sql-refresh-token.repository.ts:25-49 | succeeds exactly for a known, unused token in time whose family has no revoked row, and marks it used and nothing else |
| `RefreshSession.TokenRepository.FindByHash` | apps/api/src/modules/identity/infrastructure/sql-refresh-token.repository.ts:51-58 | the family of a known token, and whether it is spent or revoked |
| `RefreshSession.TokenRepository.RevokeFamily` | apps/api/src/modules/identity/infrastructure/sql-refresh-token.repository.ts:60-65 | revokes exactly the family's unrevoked tokens, after which the family is dead |
| `RefreshSession.TokenRepository.RevokeAllForUser` | apps/api/src/modules/identity/infrastructure/sql-refresh-token.repository.ts:67-72 | revokes exactly the user's unrevoked tokens, after which each of their families is dead |
| `RefreshSession.IssueSession` | apps/api/src/modules/identity/application/session-issuer.ts:47-75 | a new family with its own session end, or the next token of the given one with its session end unchanged; expiry is capped by both limits |
| `RefreshSession.Refresh` | apps/api/src/modules/identity/application/use-cases/refresh-session.use-case.ts:23-46 | alone on the table: a session exactly for such a token and an active membership, continuing its family and session end; family killed on lost membership or replay; otherwise nothing changes |
| `RefreshSession.Logout` | apps/api/src/modules/identity/application/use-cases/logout.use-case.ts:11-15 | kills exactly the family of a known token |
| `ExpirySweep.SweepEnds` | apps/api/src/modules/ordering/application/reservation-expiry.job.ts:61-80 | with n expired orders and batches of b, the cursor is null again within n / b + 1 runs, whichever orders fail and however the set changes |
| `ExpirySweep.SweepIsFair` | apps/api/src/modules/ordering/application/reservation-expiry.job.ts:61-80 | over one sweep attempts are strictly ascending, and every order has exactly one run that reaches it, which tries it if and only if it is still expired then; no other run tries it |
| `ExpirySweep.NeverCrowdedOut` | apps/api/src/modules/ordering/application/reservation-expiry.job.ts:28-33 | an order that stays expired is tried exactly once per sweep, however many orders before it keep failing |
| `ExpirySweep.UnderwayBound` | apps/api/src/modules/ordering/infrastructure/sql-order.repository.ts:180-202 | a sweep that has not come to the end has run at most n / b times |
| `ExpirySweep.ReservationExpiryJob.Run` | apps/api/src/modules/ordering/application/reservation-expiry.job.ts:61-80 | every order on the page was reserved and past its deadline and ends expired exactly if its transaction does not fail; all others are as before; the cursor ends at the last one or, after a short page, at null |
| `ExpirySweep.PageInOrder` | apps/api/src/modules/ordering/infrastructure/sql-order.repository.ts:191-198 | a page is in order of deadline, then id, after the cursor; an expired order left for later expires no sooner than those on the page, which is then full |
| `ExpirySweep.PageExists` | apps/api/src/modules/ordering/infrastructure/sql-order.repository.ts:180-202 | whatever has expired, the paging query has an answer |
| `ExpirySweep.PageUnique` | apps/api/src/modules/ordering/infrastructure/sql-order.repository.ts:180-202 | and only one |
| `Pricing.ChoiceMade` | apps/api/src/modules/pricing/domain/pick-price.ts:43-85 | on well-formed rows the code finds a price-list row exactly when one is usable, and then the policy's: a list nothing usable is preferred to, and its largest usable tier |
| `Pricing.PriceIs` | apps/api/src/modules/pricing/domain/pick-price.ts:43-85 | the policy field by field: base price if nothing is on offer, else that of a row on offer in a list nothing on offer beats (contract, then priority, then newer, then lower id), at its largest tier reached; offer, source, list and tier written out |
| `Pricing.OrderIrrelevant` | apps/api/src/modules/pricing/domain/pick-price.ts:36-40 | on well-formed rows the price depends only on which rows there are, not on their order or repetition |
| `Pricing.OrderFreeIff` | apps/api/src/modules/pricing/domain/pick-price.ts:36-41 | for any rows that agree on their lists' fields: no reordering changes the price if and only if the rows tying for the best list's largest tier agree |
| `Pricing.RowOrderCanMatter` | apps/api/src/modules/pricing/domain/pick-price.ts:64-67 | two rows for one tier of one list with different prices: the one read first is charged |
| `Pricing.RankNeverWorsens` | apps/api/src/modules/pricing/domain/pick-price.ts:64-67 | on rows that agree on their lists' fields: with a larger quantity the chosen list is never a less preferred one and never the base price again |
| `Pricing.PrefilterIrrelevant` | apps/api/src/modules/pricing/infrastructure/sql-price-resolver.ts:58-71 | the query's filter leaves the price what it would be over the whole price table, well-formed or not |
| `Pricing.GroupByProduct` | apps/api/src/modules/pricing/infrastructure/sql-price-resolver.ts:72-87 | the grouping loop keeps every row under its product, in query order |
| `Pricing.Resolve` | apps/api/src/modules/pricing/infrastructure/sql-price-resolver.ts:35-100 | quantity errors first, then the first unknown or inactive product, then every line priced as the whole price table would |
| `Pricing.ResolveAccepts` | apps/api/src/modules/pricing/infrastructure/sql-price-resolver.ts:43-57 | a cart is priced if and only if every quantity is at least one and every product is known and active; which error otherwise |
| `Pricing.ResolvedLine` | apps/api/src/modules/pricing/infrastructure/sql-price-resolver.ts:89-100 | a priced line is its line, its product's SKU, the price of its product's rows, and price times quantity |
| `Pricing.ItemsInOrder` | apps/api/src/modules/ordering/application/use-cases/create-order.use-case.ts:170-173 | an order's items are stored by SKU and reserved by product id, the same items both times |
| `Pricing.OrderTotal` | apps/api/src/modules/ordering/application/use-cases/create-order.use-case.ts:68-80 | the total of an order is the sum of unit price times quantity over its items, sorted by SKU or by product |
| `Pricing.OrderTotalIsQuoteTotal` | apps/api/src/modules/pricing/application/use-cases/quote-prices.use-case.ts:46-48 | an order costs what the quote for the same lines said, in whatever order the lines were given |
| `Sequences.SortedFirst` | apps/api/src/modules/pricing/domain/pick-price.ts:64-64 | nothing comes before the head of a stable sort |
| `Sequences.SortStrict` | apps/api/src/modules/ordering/application/use-cases/create-order.use-case.ts:170-173 | a stable sort of elements without ties is strictly ordered |
| `Money.RoundTrip` | apps/api/src/modules/pricing/domain/money.ts:35-71 | reading back what is printed gives the same amount, for every integer |
| `Money.ExactValue` | apps/api/src/modules/pricing/domain/money.ts:35-41 | a numeral is accepted with value m if and only if it denotes exactly m hundredths, whatever zeros trail |
| `Money.OnlyNumerals` | apps/api/src/modules/pricing/domain/money.ts:80-80 | nothing but a decimal numeral is accepted |
| `Money.ParseRange` | apps/api/src/modules/pricing/domain/money.ts:25-33 | a parsed API amount lies in [0, 10^18) and parses again from its own print |
| `Money.ParseAccepts` | apps/api/src/modules/pricing/domain/money.ts:79-79 | a numeral is an API amount with value m if and only if it has no sign, at most 16 whole digits and at most two decimals and denotes m |
| `Money.OnlyAmounts` | apps/api/src/modules/pricing/domain/money.ts:79-79 | nothing else is an API amount |
| `Money.ApiRoundTrip` | apps/api/src/modules/pricing/domain/money.ts:79-79 | the print of an amount is an API amount of the same value if and only if it lies in [0, 10^18) |
| `Sse.StreamSse` | apps/web/src/lib/sse.ts:50-79 | the events emitted, and whether a bad payload ended the reading, depend on the text alone, not on how it was cut into chunks |
| `Sse.ReadServerSentEvents` | packages/ai-harness/src/llm/litellm.gateway.ts:151-169 | the same for the gateway's reader, which stops at the end marker wherever in a chunk it comes |
| `Sse.RoundTrip` | apps/api/src/modules/copilot/http/copilot.controller.ts:94-98 | reading what the server writes for a list of events and the done marker gives back that list |
| `Sse.BadPayloadStops` | apps/web/src/lib/sse.ts:66-72 | a payload that does not parse ends the reading there, with the events before it |
| `Sse.CarriageReturn` | apps/web/src/lib/sse.ts:65-65 | a carriage return at the end of a line is no part of the payload |
| `Sse.PayloadRoundTrip` | packages/ai-harness/src/llm/litellm.gateway.ts:151-169 | the payloads before the end marker come out as sent, and nothing after it does |
| `Sse.LinesConcat` | apps/web/src/lib/sse.ts:60-66 | the lines of a text are those of its first part, then those of the unfinished line and the rest |
| `Sse.ConsumeLines` | apps/web/src/lib/sse.ts:63-72 | the buffer loop consumes exactly the complete lines and leaves the unfinished one |
| `ToolLoop.Assemble` | packages/ai-harness/src/runtime/openai-tool-loop.runtime.ts:56-72 | the text emitted is the text streamed, and each tool call is its own fragments put together, in order of first appearance |
| `ToolLoop.FragmentsAssemble` | packages/ai-harness/src/runtime/openai-tool-loop.runtime.ts:65-71 | however the fragments of several calls interleave, every index seen comes out, once, as the call it was meant to be |
| `ToolLoop.WantedAsMeant` | packages/ai-harness/src/runtime/openai-tool-loop.runtime.ts:74-74 | what a reply asks for is every named call its fragments spell, once, in order of first appearance |
| `ToolLoop.RunCalls` | packages/ai-harness/src/runtime/openai-tool-loop.runtime.ts:85-125 | the calls run in order, each with its start, end, record and answer, up to the first whose result has no JSON form, which ends the run |
| `ToolLoop.AnswersMatch` | packages/ai-harness/src/runtime/openai-tool-loop.runtime.ts:85-123 | one answer per call, carrying the id of the call in its position exactly if the call has one, and capped |
| `ToolLoop.CallShows` | packages/ai-harness/src/runtime/openai-tool-loop.runtime.ts:85-123 | one call, field by field: start, end, record and answer under one id, the call's own if it has one; the tool's outcome, or failure if it is unknown; its output, or the first 8000 characters of it; at least 1 ms |
| `ToolLoop.TurnSays` | packages/ai-harness/src/runtime/openai-tool-loop.runtime.ts:79-83 | the turn sent back has the streamed text and every call asked for, an empty argument list as {} |
| `ToolLoop.Stream` | packages/ai-harness/src/runtime/openai-tool-loop.runtime.ts:45-135 | for any model and tools, exactly which requests are sent, events emitted and records kept, round by round, and which round ended the run and why, or that the allowed number was used up |
| `ToolLoop.RequestHolds` | packages/ai-harness/src/runtime/openai-tool-loop.runtime.ts:76-123 | the first request is the opening; each next one is the one before, the model's turn with every call it asked for, and one answer for each, in order, under its id, from a call that ran: no request leaves a call of an earlier turn unanswered |
| `ToolLoop.RunIsTidy` | packages/ai-harness/src/runtime/openai-tool-loop.runtime.ts:56-129 | every start is followed by its own end, the ends are the records, all text the model streamed is passed on, and there is an error event exactly when the model did not get to answer |
| `ToolLoop.FoldFinishes` | apps/web/src/features/copilot/use-chat-stream.ts:83-100 | folding the events of a run leaves no call unfinished, even with repeated ids |
| `ToolLoop.ShowsCollected` | apps/web/src/features/copilot/use-chat-stream.ts:83-100 | with distinct call ids the screen shows exactly the calls that ran, in order, each with its own outcome |
| `ToolLoop.FoldTells` | apps/web/src/features/copilot/use-chat-stream.ts:83-100 | the text on the screen is all the text of the events, and it shows an error exactly if one of them is one |

## Left out

- Controllers, guards, presenters, configuration, logging and the rest of the React app: no state of their own.
- Role, organisation-scope, warehouse and catalog checks around the use cases: single-branch facts in front of the modelled steps.
- Hashing, tokens, passwords and uuid generation: fresh or injective values.
- Foreign-key share locks, lock timeouts and integer overflow in the database: a timeout is an abort, the rest is the schema's.
- The handlers other than the audit log, and the payloads of events: the relay treats all handlers alike.
- The relay's guard against polling twice at once in one process: the model allows overlapping polls anyway.
- The clock of the clean-up job for idempotency keys: a deletion may come at any moment.
- Seeding, which writes stock rows outside the movement service: runs start from empty stock.
- Decoding bytes to text, and the error frame of the copilot stream: its payload has no event type.
- Opening messages, tool schemas and argument validation of the agent loop: they are parameters of the run.
- LLM calls, embeddings, vector search, memory, rate limits and login counters: outcomes from outside.
- The cross-tab refresh lock in the browser: it depends on timers and delivery.
- Idempotency.ReplaysAreCommitted: a key that was deleted after completion can be worked again, so a replay is of the last work, not of the only one.
