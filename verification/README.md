# Verified model of the RFQ hedge and accounting core

This project models the parts of the RFQ backend that move money and evidence, and proves what they keep:

- **The hedge execution protocol.** Workers lease rows of `hedge_orders`, fix a route, authorise one submission,
  talk to an exchange, record cumulative partial fills with their inventory movement, cancel late orders and end a
  hedge as filled or failed. A second lease on the same rows reconciles fees and freezes a net PnL. `HedgeMachine`
  is the transition system: every SQL statement or transaction is one guarded atomic step, every adapter call is a
  send and a reply, and between any two awaits a worker may stall, crash or lose its lease. Each statement may fail
  before or after it commits. The exchange accepts, rejects, trades and closes on its own. `HedgeInvariant` and
  `HedgeSafety` prove what every step keeps, `HedgeTheorems` and `HedgeOutcomes` what holds of every run, `HedgeGuards`
  and `HedgeLeases` what the guards of the claim, the authorisation and the cancellation mean for runs.
- **What can still happen.** `HedgeStuck` has the hedges that can never end. `HedgeRegimes` are runs that keep to
  something: a route table that stays as it is, or an exchange that tells the truth about trades. `HedgeProgress`,
  `HedgeEndings` and `HedgeEndable` prove exactly when a queued hedge can end, `HedgeFeeProgress` exactly when a finished
  one can complete its fees, `HedgeReachability` that the protocol can in fact do both, and `HedgeExamples` reachable
  hedges that cannot.
- **The tables and workers themselves.** `HedgeStores`, `AnalyticsStores`, `SubmitReservations` and `HedgeService` are
  classes that change their fields in place; each method is proved equal to the function that the transition systems
  use, and states in columns when it succeeds and what it writes (`HedgeColumns` for the larger statements). `HedgeWorkerRun` and `HedgeFeeWorkerRun` are the workers' iterations as sequential code over those stores,
  proved to be the program counters run without interference.
- **Fixed-point arithmetic.** Step quantisation, the twice-rounded limit price, venue filters, net PnL and the decimal
  printers and parsers (`HedgeRoute`, `HedgeNetPnl`, `DecimalText`, `HedgeText`, `BinanceSymbolRules`), over
  integers in fixed scales; `HedgeText` justifies the scales from the strings.
- **The analytics pipeline**, from the outbox through a partitioned log to a table that replaces rows by event id.
- **Paginated trade history, fenced submit reservations, and the SDK's check of PnL totals.**

Check everything with `dafny verify dfyconfig.toml`.

## Assumptions

- Worker ids are unique and a worker runs sequentially. Orders under a hedge's client order id come only from these
  workers; the id is derived from the hedge id by a hash that is taken to be injective.
- A submit error that is not retryable means that the exchange did not accept the order. An order report tells the
  truth about some moment no later than the reply: a terminal report carries the final amounts, a pending one a pair
  of amounts that the order has had. "Order not found" may be answered at any time. Each trade is at or better than
  the limit and comes under a new, greater id.
- What the exchange tells the fee workers is not restricted, so that the safety results hold whatever it says. Only
  the results of `HedgeFeeProgress` assume true answers: honest order reports, and of the trades either a refusal or
  what `queryOrderTrades` makes of the trades that the order had at some moment (`HedgeRegimes.FeeReplyTruthful`).
- Amounts in order reports have at most 60 integer digits and no more fraction digits than the token, and their ids are
  safe integers; other reports are refused by the parser.
- A route's token decimals equal the registry decimals of the hedged token, as `validateTokenRegistry`
  (backend/src/modules/hedge/hedge-route.ts:68-116) enforces at start-up. Everything else in the route table may
  change between two claims of a hedge, unless a result says that it is kept.
- Clock readings do not decrease where `HedgeService` and the reservations are concerned.

## Results that differ from what one might expect

- An attempted hedge need not be able to end. It is orphaned when the attempt was recorded but nobody will send the
  submission, as after a crash between `authorizeSubmission` and `submitLimitOrder`; it is stranded when the exchange
  rejected the submission and nobody who holds the lease will hear of it, as after a crash, a lost reply or a lost
  lease. Both happen (`HedgeReachability.OrphanReachable`, `StrandedReachable`), and if the operators may change the
  route table as they like, a queued hedge can end exactly when it is neither (`HedgeEndable.CanEndExactlyUnlessStuck`):
  the protocol prefers no order to two.
- While the route table stays as it is, more hedges never end, because every claim fails with an error that is retried:
  a sell whose limit rounds below one tick (HEDGE_LIMIT_PRICE_BELOW_TICK is not among the final errors,
  `HedgeExamples.BelowTickNeverEnds`); a hedge prepared under another route or order age, which meets a lease conflict
  in `prepareRoute` (`RepricedNeverEnds`, `AgeChangedNeverEnds`); and an ended order whose executed amount is not on the
  kept step (`OffStepNeverEnds`). `HedgeEndable.CanEndWithRouteKept` is the exact condition, and with the route that is
  stored nothing but being stuck is left of it for whole-step orders (`CanEndWithStoredRoute`).
- A recorded fill does not mean that its fees can be reconciled. An order of 100000 trades never lists
  (`HedgeExamples.TooManyTradesNeverComplete`), nor does one whose last page is full and ends in 2^53 - 1, and a sum of
  more than 78 digits is never equal to anything. `HedgeFeeProgress.FeesCompleteExactly` is the exact condition.
- Pagination fails for a full last page that ends in the trade id 2^53 - 1, because the next `fromId` would not be a
  safe integer; `BinanceTrades.QueryOrderTrades` states exactly when it succeeds, `BinanceTrades.UnsafeIdRefused` runs it
  on such trades.
- A hedge failure that is reported again while its first report is still in the lookback window does not renew it, so
  the penalty can forget a failure that happened within the window. `HedgeService.RepeatedReportForgotten` is the
  example, `HedgeService.WindowIsAnyFailure` the exact condition under which the two readings agree.

## Model

| member | source | states |
|---|---|---|
| `HedgeTheorems.AtMostOneSubmission` | backend/src/modules/hedge/hedge-worker.ts:81-135 | over every interleaving of workers, stalls, crashes, lost statements and lease expiries, at most one submit call is made per hedge |
| `HedgeTheorems.SubmissionsLogged` | backend/src/modules/hedge/hedge-worker.ts:126-135 | the number of submit calls counted along a run is the number in the exchange's call log |
| `HedgeTheorems.SubmissionIsAuthorised` | backend/src/modules/hedge/postgres-hedge-job.store.ts:144-240 | whenever a submission is about to be sent it is the hedge's first call, the attempt is recorded, no cancel was requested, and id, price and quantity are those of the stored route computed from the hedge |
| `HedgeGuards.EverySubmitWasCanonical` | backend/src/modules/hedge/postgres-hedge-job.store.ts:206-240 | each submission of each run was authorised before by a committed statement of its worker, in a state in which the settlement was canonical and the row queued, leased by that worker, routed and not cancelled |
| `HedgeGuards.SubmitterMaySubmit` | backend/src/modules/hedge/postgres-hedge-job.store.ts:206-240 | the step that brings a worker before the submit call is that statement |
| `HedgeTheorems.CancelOnlyOverAge` | backend/src/modules/hedge/postgres-hedge-job.store.ts:242-268 | every cancel call comes after the submission, with the cancel recorded no earlier than the attempt plus the age fixed with the route |
| `HedgeGuards.CancelsExactlyWhenDue` | backend/src/modules/hedge/postgres-hedge-job.store.ts:242-268 | a worker that checks for cancellation goes on to the cancel call exactly when its row is held, attempted, routed and over age or requested before, with the request on record then and the row unchanged otherwise |
| `HedgeGuards.OverAgeIsCanceled` | backend/src/modules/hedge/hedge-worker.ts:102-119 | a holder that finds a pending report of an order over age cancels it: query answer, observation, check and cancel call are enabled one after the other and add the call to the exchange's log |
| `HedgeTheorems.EvidenceChain` | backend/src/modules/hedge/postgres-hedge-job.store.ts:309-326 | between any two moments of a run route, attempt and cancel times and both order ids never change once set, filled and quote never decrease, quote rises exactly when filled rises, and filled stays within the amount |
| `HedgeTheorems.NoAbandonedOrder` | backend/src/modules/hedge/hedge-worker.ts:222-232 | a failed hedge without external order id has no order at the exchange and none on its way, then and in every later run, although the failing worker decided from a stale snapshot |
| `HedgeTheorems.TerminalIsFinal` | backend/src/modules/hedge/postgres-hedge-job.store.ts:439-549 | a terminal hedge with an order recorded exactly what the ended order executed, filled meaning fully executed, and order, status and amounts never change again |
| `HedgeTheorems.NotExecutedMeansNothingExecuted` | backend/src/modules/hedge/postgres-hedge-job.store.ts:504-518 | HEDGE_NOT_EXECUTED stands only on a failed hedge without recorded fill of which the exchange executed nothing |
| `HedgeTheorems.InventoryConserved` | backend/src/modules/hedge/postgres-hedge-job.store.ts:803-818 | every balance is its initial value plus other movements plus the signed sum of recorded fills, so no cumulative report is counted twice |
| `HedgeEndable.CanEndWithRouteKept` | backend/src/modules/hedge/hedge-worker.ts:70-140 | from every reachable state with a worker, while every claim of the hedge reads the same route and order age, a queued hedge can end if and only if a claim or a lease holder can bring it there: unattempted, the plan is refused for good or fits the stored route (or the exchange's rules may still refuse it); attempted, there is a plan and the order, sent or about to be, can end with an amount that the plan accepts; a holder likewise with its own plan, from where it stands |
| `HedgeEndable.CanEndWithStoredRoute` | backend/src/modules/hedge/hedge-worker.ts:70-140 | while claims read the stored route and order age, a prepared queued hedge whose order, if any, executed whole steps can end if and only if it is not stuck |
| `HedgeEndable.CanEndExactlyUnlessStuck` | backend/src/modules/hedge/hedge-worker.ts:120-135 | if the route table may be changed between claims, a queued hedge of any reachable state can still end if and only if it is neither orphaned (an attempt recorded, nothing sent, nobody about to send) nor stranded (the submission rejected, and no lease holder left to hear of it) |
| `HedgeProgress.StillEnds` | backend/src/modules/hedge/hedge-worker.ts:70-140 | the condition suffices: from wherever the holder or a later claim stands there is a run of the kept route that ends the hedge |
| `HedgeEndings.StillEndBack` | backend/src/modules/hedge/hedge-worker.ts:70-232 | the condition is necessary: no step that keeps the route ends the hedge, or lets somebody end it, when nobody could before |
| `HedgeEndings.OrderBack` | backend/src/modules/hedge/hedge-worker.ts:117-140 | an order that can still end with an amount the plan accepts could do so before any trade, close, acceptance or submission |
| `HedgeExamples.BelowTickNeverEnds` | backend/src/modules/hedge/hedge-route.ts:183-188 | for every planned sell whose limit rounds below one tick, and such sells exist, the hedge never ends while that route is kept, though neither orphaned nor stranded |
| `HedgeExamples.RepricedNeverEnds` | backend/src/modules/hedge/postgres-hedge-job.store.ts:144-204 | a hedge prepared under one configuration never ends under another one that plans it otherwise, as long as the exchange's rules admit the order |
| `HedgeExamples.OffStepNeverEnds` | backend/src/modules/hedge/hedge-route.ts:191-203 | a closed order of one executed unit never ends its hedge under a route with a larger step |
| `HedgeFeeProgress.FeesCompleteExactly` | backend/src/modules/hedge/hedge-fee-worker.ts:47-80 | with a truthful exchange and a kept route for fee claims, a finished hedge can complete its fees if and only if they are complete, or it has a recorded fill whose sums are within the digit limits, the adapter lists all its trades, and a fee worker is on its way with the current evidence or a claim finds the stored symbol and a step that divides the fill |
| `HedgeFeeProgress.FilledFeesCompleteExactly` | backend/src/modules/hedge/hedge-fee-worker.ts:47-80 | for a filled hedge and the stored route that leaves exactly: complete, or the digit limits hold and the adapter lists all trades |
| `HedgeFeeProgress.ListedAreAll` | backend/src/modules/hedge/hedge-fee-worker.ts:61-65 | fills listed at any moment that sum to what the order has executed are all its trades, so the exact comparison detects a listing that came too early |
| `HedgeExamples.TooManyTradesNeverComplete` | backend/src/modules/hedge/binance-spot.adapter.ts:185-211 | every planned sell of at least 100000 venue units can be filled in single units by a run in which nobody lies, and then never completes its fees under any route |
| `HedgeProgress.FinalAccepted` | backend/src/modules/hedge/postgres-hedge-job.store.ts:463-500 | the store accepts the final report of the hedge's own order, whatever pair of it was recorded before |
| `HedgeStuck.StuckNeverEnds` | backend/src/modules/hedge/hedge-worker.ts:120-128 | an orphaned or stranded hedge stays queued in every later run |
| `HedgeStuck.OrphanNeverEnds` | backend/src/modules/hedge/hedge-worker.ts:120-128 | an orphaned hedge moreover never gets an order or a fill |
| `HedgeStuck.StrandedStep` | backend/src/modules/hedge/hedge-worker.ts:222-232 | no step lets a lease holder hear of the rejection again: later claims see the attempt and only reschedule |
| `HedgeTheorems.StaleWorkerFenced` | backend/src/modules/hedge/postgres-hedge-job.store.ts:427-437 | a worker that lost its lease changes no row and no balance, although no statement checks the expiry |
| `HedgeLeases.ClaimExcludesClaims` | backend/src/modules/hedge/postgres-hedge-job.store.ts:101-142 | after a committed claim at time t, as long as the worker has not let go, the row keeps its lease and no claim of the hedge by anybody is enabled before t plus the lease time, in any run |
| `HedgeLeases.ClaimExactly` | backend/src/modules/hedge/postgres-hedge-job.store.ts:108-122 | a claim is enabled exactly on a queued, due row that is canonical or attempted and has no lease or an expired one |
| `HedgeLeases.FeeClaimExcludesClaims` | backend/src/modules/hedge/postgres-hedge-fee.store.ts:92-127 | the same exclusion for the fee lease |
| `HedgeLeases.FeeClaimExactly` | backend/src/modules/hedge/postgres-hedge-fee.store.ts:92-110 | a fee claim is enabled exactly on pending, due fees that are free or expired |
| `HedgeStuck.SubmitterOrigin` | backend/src/modules/hedge/hedge-worker.ts:127-128 | a worker comes to stand before the submit call only by its own authorisation returning without error and being committed |
| `HedgeOutcomes.FeeCompletionFrozen` | backend/src/modules/hedge/postgres-hedge-fee.store.ts:148-244 | fee-complete means terminal, the stored fills are distinct, of the hedge's order, and sum exactly to both recorded quantities; status, amounts, fills and PnL never change afterwards |
| `HedgeOutcomes.CompletedHedgeLossBound` | backend/src/modules/hedge/postgres-hedge-fee.store.ts:282-331 | for every fee-complete filled hedge of every run, the recorded net PnL exceeds minus (slippage share of the reference, one tick on the base amount, the recorded commission, one unit of 10^-18), and the recorded commission is the charge of the stored fills; or a third-asset commission makes it unavailable; a failed one is marked unclosed |
| `HedgeOutcomes.FilledHedgeNeutral` | backend/src/modules/hedge/hedge-intent-planner.ts:45-74 | settlement and filled hedge together leave less than one venue step of the hedged token, on the settlement's side |
| `HedgeOutcomes.BookIsNeutral` | backend/src/modules/hedge/hedge-intent-planner.ts:45-74 | when every hedge is filled, a token that is nobody's reference is back at its initial balance within the sum of the step sizes less one |
| `HedgePlanner.PlanReversesSettlement` | backend/src/modules/hedge/hedge-intent-planner.ts:54-73 | the planned hedge undoes the settlement's movement of its token and takes the other leg as reference; tokenIn comes in and tokenOut goes out |
| `HedgePlanner.HedgedLeg` | backend/src/modules/hedge/hedge-intent-planner.ts:45-74 | from the settlement alone: no plan exactly when neither token is a USD reference; the reference is always a USD token and the hedged token the other one, tokenOut if both are; tokenOut is bought, tokenIn sold, with the amounts and decimals of their legs |
| `HedgeGuards.NewHedge` | backend/src/modules/hedge/postgres-hedge.service.ts:66-85 | a settlement appends one hedge of its plan, queued, due at once, unleased and unattempted, with nothing at the exchange, and moves exactly its two tokens |
| `HedgeSafety.InvNext` | backend/src/modules/hedge/hedge-worker.ts:70-243 | every step of the whole system keeps the invariant and moves every hedge forward |
| `HedgeSafety.RunInv` | backend/src/modules/hedge/hedge-worker.ts:70-243 | the invariant holds after every run |
| `HedgeSafety.StatementInv` | backend/src/modules/hedge/postgres-hedge-job.store.ts:282-549 | each job-store statement, committed, lost or refused, keeps the invariant and every other worker's view |
| `HedgeSafety.AuthorizerAlone` | backend/src/modules/hedge/postgres-hedge-job.store.ts:206-240 | when an authorisation can succeed no other worker stands before the submit call of the hedge |
| `HedgeSafety.FeeStatementInv` | backend/src/modules/hedge/postgres-hedge-fee.store.ts:129-279 | fee-store statements keep the invariant while job workers run |
| `HedgeSafety.HedgeSumUpdate` | backend/src/modules/hedge/postgres-hedge-job.store.ts:803-818 | the signed sum of fills changes by exactly one hedge's change |
| `HedgeInvariant.StatementKeeps` | backend/src/modules/hedge/postgres-hedge-job.store.ts:144-549 | whatever statement a worker waits for, committing it keeps the hedge's invariant, moves inventory by exactly the newly recorded fill, and changes nothing unless the worker holds the lease |
| `HedgeInvariant.StatementReturns` | backend/src/modules/hedge/hedge-worker.ts:81-136 | after a committed statement the worker's stale snapshot still relates to the row as the next step needs |
| `HedgeInvariant.WorkerOkStable` | backend/src/modules/hedge/hedge-worker.ts:70-140 | steps of others that take a lease away or add to the order keep a worker's view valid |
| `HedgeInvariant.ReconcileKeeps` | backend/src/modules/hedge/postgres-hedge-fee.store.ts:176-244 | committing a reconciliation stores exactly the fills, freezes the PnL and leaves the job columns alone |
| `HedgeInvariant.TradeKeepsVenue` | backend/src/modules/hedge/hedge-route.ts:164-189 | trades each at or better than the limit keep the order's total at or better than the limit and its pairs ordered |
| `HedgeInvariant.TradeKeepsTrades` | backend/src/modules/hedge/hedge-fee-evidence.ts:24-36 | the order's trades stay under increasing ids and go on summing to what it has executed |
| `HedgeReachability.FeeCompletionReachable` | backend/src/modules/hedge/hedge-worker.ts:70-140 | for every planned settlement, usable route and valid single trade of the target at or better than the limit a run fills the hedge and completes its fees with a valued PnL |
| `HedgeReachability.ReachFilled` | backend/src/modules/hedge/hedge-worker.ts:182-194 | such a run records the full target and quote on the row |
| `HedgeReachability.OrphanReachable` | backend/src/modules/hedge/hedge-worker.ts:127-128 | a crash between authorisation and submission leads to an orphaned hedge |
| `HedgeReachability.StrandedReachable` | backend/src/modules/hedge/hedge-worker.ts:128-140 | a crash before the reply to a rejected submission leads to a stranded hedge that is not orphaned |
| `HedgeWorkerRun.JobWorker.RunOnce` | backend/src/modules/hedge/hedge-worker.ts:70-140 | the sequential iteration leaves rows and balances exactly as the program counters do when nobody else acts, with a clock reading of its own for each statement |
| `HedgeWorkerRun.JobWorker.Attempt` | backend/src/modules/hedge/hedge-worker.ts:74-136 | the try block, every early return and thrown error included: a refused plan or validation leaves the tables alone and is the error |
| `HedgeWorkerRun.JobWorker.QueryAndAct` | backend/src/modules/hedge/hedge-worker.ts:102-136 | a missing order is rescheduled under its code when attempted; unattempted it is SETTLEMENT_NON_CANONICAL for good on a non-canonical settlement, a retryable error without the lease, route or with a cancel request, and else an attempt on record before the submission |
| `HedgeWorkerRun.JobWorker.CancelOrApply` | backend/src/modules/hedge/hedge-worker.ts:111-119 | a pending order over age is cancelled: the request is on record before the cancel call, also when the call is refused |
| `HedgeWorkerRun.JobWorker.ApplyOrderResult` | backend/src/modules/hedge/hedge-worker.ts:166-220 | an order report is applied exactly when it is acceptable and the store takes it: a filled or failed one ends the row with its code and evidence in every column, a pending one records its evidence and releases the row after the retry delay; an unacceptable one changes nothing |
| `HedgeWorkerRun.JobWorker.ScheduleRetry` | backend/src/modules/hedge/hedge-worker.ts:234-243 | releases a held row with code and retry delay; without the lease nothing changes, which is an error only where the try block awaits it |
| `HedgeWorkerRun.JobWorker.HandleJobError` | backend/src/modules/hedge/hedge-worker.ts:222-232 | a held row fails with the error's code exactly for a non-retryable error of an unattempted claim, and is rescheduled with code and delay otherwise |
| `HedgeFeeWorkerRun.FeeJobWorker.RunOnce` | backend/src/modules/hedge/hedge-fee-worker.ts:47-80 | the sequential fee iteration, route lookup included, leaves rows and fills exactly as its program counters do alone |
| `HedgeFeeWorkerRun.FeeJobWorker.CommitTrades` | backend/src/modules/hedge/hedge-fee-worker.ts:57-74 | commits exactly non-empty trades of the right side whose sums equal the order's quantities, within 78 digits, if the store takes them; otherwise nothing changes |
| `HedgeFeeWorkerRun.FeeJobWorker.AssertOrderMatchesJob` | backend/src/modules/hedge/hedge-fee-worker.ts:189-203 | lets exactly reports with the job's order id, whole-step fill and quote pass, the quote within 78 digits |
| `HedgeWorker.RetryDelayRange` | backend/src/modules/hedge/hedge-worker.ts:234-248 | retry delays never shrink with attempts, honour Retry-After, stay capped without it and are always in the range the store accepts |
| `HedgeColumns.BackoffDoubles` | backend/src/modules/hedge/hedge-worker.ts:234-248 | the delay is the base after the first attempt, doubles with each attempt up to 60 s, which any base reaches by the seventeenth, and is the Retry-After when that is longer |
| `HedgeColumns.PlanColumns` | backend/src/modules/hedge/hedge-worker.ts:74-80 | the worker has a plan exactly with a route quoted in the reference token, an amount of at least one step and a limit price; the plan is of that route; only a missing limit price is retried |
| `HedgeColumns.AcceptedReply` | backend/src/modules/hedge/hedge-worker.ts:166-180 | accepted reports are exactly those in whole steps, with paired evidence, within the target, and at the target when filled |
| `HedgeStores.HedgeJobStore.ClaimNext` | backend/src/modules/hedge/postgres-hedge-job.store.ts:101-142 | in columns: leases a queued, due, canonical or attempted row that has no lease or an expired one, until now plus the lease time, the earliest due and oldest such row; none exactly when there is none |
| `HedgeStores.HedgeJobStore.PrepareRoute` | backend/src/modules/hedge/postgres-hedge-job.store.ts:144-204 | writes the route exactly on a row that is queued, leased by the worker, not cancelled and without another route; an exact repetition passes |
| `HedgeStores.HedgeJobStore.AuthorizeSubmission` | backend/src/modules/hedge/postgres-hedge-job.store.ts:206-240 | in columns: succeeds exactly on a canonical settlement and a row that is queued, leased by the worker, routed and not cancelled, and then sets the attempt time once; otherwise nothing changes, and a non-canonical settlement is always that error |
| `HedgeStores.HedgeJobStore.AuthorizeCancelIfDue` | backend/src/modules/hedge/postgres-hedge-job.store.ts:242-268 | in columns: answers yes exactly for a row that is queued, leased by the worker, attempted and routed, with a cancel requested before or attempt plus order age at most now, and then has the request on record; otherwise nothing changes |
| `HedgeStores.HedgeJobStore.RecordExternalOrderObserved` | backend/src/modules/hedge/postgres-hedge-job.store.ts:270-280 | sets the attempt time, once, exactly on a routed row under the lease, and nothing else |
| `HedgeStores.HedgeJobStore.RecordExecutionProgress` | backend/src/modules/hedge/postgres-hedge-job.store.ts:282-345 | records cumulative evidence and moves inventory by the difference in one transaction, or changes nothing |
| `HedgeColumns.ProgressColumns` | backend/src/modules/hedge/postgres-hedge-job.store.ts:282-345 | progress is recorded exactly on a held row for a positive report within the amount, not below the recorded pair, whose quote rises exactly when its fill does, under the stored identity; every written column and the inventory difference are as reported |
| `HedgeStores.HedgeJobStore.AssertCumulativeEvidence` | backend/src/modules/hedge/postgres-hedge-job.store.ts:728-742 | passes if and only if nothing was recorded, or the quote has not fallen and has risen exactly when the fill changed |
| `HedgeStores.HedgeJobStore.CompleteTerminal` | backend/src/modules/hedge/postgres-hedge-job.store.ts:439-549 | ends the hedge with its evidence, inventory difference and PnL column, or changes nothing and names the error |
| `HedgeColumns.TerminalColumns` | backend/src/modules/hedge/postgres-hedge-job.store.ts:439-549 | a held row ends exactly when evidence and identity may follow the recorded ones, evidence does not disappear and a filled row is routed; every column of the ended row |
| `HedgeStores.HedgeJobStore.ReleaseForRetry` | backend/src/modules/hedge/postgres-hedge-job.store.ts:407-425 | gives the lease back with code and next attempt time, only to its holder |
| `HedgeStores.HedgeJobStore.ApplyInventoryFillDelta` | backend/src/modules/hedge/postgres-hedge-job.store.ts:803-818 | adds the signed difference to the token's balance, creating it at zero |
| `HedgeStores.HedgeFeeStore.ClaimNext` | backend/src/modules/hedge/postgres-hedge-fee.store.ts:92-127 | in columns: leases the earliest due row whose fees are pending and free or expired, until now plus the lease time, with its quantities; none exactly when there is none |
| `HedgeStores.HedgeFeeStore.AssertFillSet` | backend/src/modules/hedge/postgres-hedge-fee.store.ts:430-442 | accepts exactly 1 to 100000 fills of the order with distinct trade ids |
| `HedgeStores.HedgeFeeStore.SumTrades` | backend/src/modules/hedge/hedge-fee-evidence.ts:24-36 | the loop adds up both quantities of all fills |
| `HedgeStores.HedgeFeeStore.UpsertInBatches` | backend/src/modules/hedge/postgres-hedge-fee.store.ts:178-185 | batches of 100 have the effect of one conflict-checked upsert of all fills |
| `HedgeStores.HedgeFeeStore.CompleteReconciliation` | backend/src/modules/hedge/postgres-hedge-fee.store.ts:129-252 | commits fills, quantities, completion and PnL together after all checks, or changes nothing and names the error |
| `HedgeColumns.ReconciliationAccepts` | backend/src/modules/hedge/postgres-hedge-fee.store.ts:129-207 | with no fills stored a reconciliation commits exactly under the fee lease, with 1 to 100000 distinct fills of the order that sum to the row's quote, for the recorded fill and order of a row that can be settled |
| `HedgeColumns.ReconciliationWrites` | backend/src/modules/hedge/postgres-hedge-fee.store.ts:208-252 | it writes the fills, order id, quote, completion and net PnL and nothing else of the row |
| `HedgeColumns.SettledColumns` | backend/src/modules/hedge/postgres-hedge-fee.store.ts:282-331 | exactly failed rows, and filled ones with recorded amounts, whose route is quoted in the reference token can be settled: a failed one as unclosed, a filled one from its own columns |
| `HedgeColumns.LatestIsMaximum` | backend/src/modules/hedge/postgres-hedge-fee.store.ts:299-302 | the PnL is realized at the time of the latest fill |
| `HedgeStores.HedgeFeeStore.ReleaseForRetry` | backend/src/modules/hedge/postgres-hedge-fee.store.ts:254-279 | gives the fee lease back, only to its holder |
| `HedgeStores.FirstInLine` | backend/src/modules/hedge/postgres-hedge-job.store.ts:108-122 | ORDER BY and LIMIT 1: the eligible row due first, the older one at a tie |
| `HedgeFills.ExactFillSet` | backend/src/modules/hedge/postgres-hedge-fee.store.ts:176-207 | after a committed reconciliation the stored fills are exactly the given ones, and repeating its upserts changes nothing |
| `HedgeFills.ConflictingFillRefused` | backend/src/modules/hedge/postgres-hedge-fee.store.ts:372-388 | a fill that disagrees with the stored one of its trade makes the upsert fail |
| `HedgeFills.UpsertFillsStores` | backend/src/modules/hedge/postgres-hedge-fee.store.ts:354-391 | a successful upsert keeps earlier rows, stores every given fill and keeps trade ids distinct |
| `HedgeFills.UpsertFillsSplit` | backend/src/modules/hedge/postgres-hedge-fee.store.ts:178-185 | upserting two batches in turn is upserting them together |
| `HedgeRoute.QuantizeGreatest` | backend/src/modules/hedge/hedge-route.ts:152-162 | the greatest step multiple within the amount, refused exactly below one step |
| `HedgeRoute.LimitPriceOptimal` | backend/src/modules/hedge/hedge-route.ts:164-189 | although rounded twice, a buy limit is the least tick multiple at or above the adjusted price and a sell limit the greatest at or below; refused exactly when a sell price is below one tick |
| `HedgeRoute.LimitWithinTenPercent` | backend/src/modules/hedge/hedge-route.ts:164-189 | whatever route the table admits, the limit stays within ten percent of the reference price but for less than one tick |
| `HedgeRoute.RoundToTickNearest` | backend/src/modules/hedge/hedge-route.ts:178-187 | rounding to an integer and then to a tick loses nothing |
| `HedgeRoute.RoundToTickWithin` | backend/src/modules/hedge/hedge-route.ts:178-187 | the rounded price strays by less than one tick |
| `HedgeNetPnl.CalculateHedgeNetPnl` | backend/src/modules/hedge/hedge-net-pnl.ts:59-118 | the loop over fills computes the specified commission total, unvalued assets and PnL |
| `HedgeColumns.NetPnlColumns` | backend/src/modules/hedge/hedge-net-pnl.ts:59-118 | every column in numbers: reference at 18 decimals, executed quote, unfilled rest, its value at the execution average rounded down for a sell and up for a buy, and the balance; unavailable exactly with a third-asset commission, of exactly those assets |
| `HedgeNetPnl.NetPnlOrderIndependent` | backend/src/modules/hedge/hedge-net-pnl.ts:75-100 | any permutation of the fills gives the same outcome |
| `HedgeNetPnl.ConservativePnl` | backend/src/modules/hedge/hedge-net-pnl.ts:65-128 | net PnL never exceeds the exact rational PnL and is below it by less than one unit per charged fill plus one |
| `HedgeNetPnl.WorstCaseLoss` | backend/src/modules/hedge/hedge-net-pnl.ts:59-118 | executed at or better than the limit price, net PnL stays above minus slippage share, one tick on the base amount, commissions and one unit, on both sides and for all decimals |
| `HedgeNetPnl.TargetValueBound` | backend/src/modules/hedge/hedge-route.ts:172-187 | the whole target valued at the execution average differs from the reference by no more than the allowance |
| `HedgeNetPnl.TotalChargeRoundsUp` | backend/src/modules/hedge/hedge-net-pnl.ts:77-128 | charged commissions exceed the exact ones by less than one unit per charged fill |
| `HedgeNetPnl.ResidualRounding` | backend/src/modules/hedge/hedge-net-pnl.ts:70-73 | the residual is rounded against the desk by less than one unit |
| `HedgeText.HedgeQuantityRoundTrip` | backend/src/modules/hedge/hedge-route.ts:148-203 | reading a printed quantity back gives the quantised amount, for every amount of at least one step and all decimals |
| `HedgeText.ExecutedQuantityExactly` | backend/src/modules/hedge/hedge-route.ts:191-203 | a string is an executed quantity exactly when it is a decimal within the token's digits whose units are a multiple of the step; zero is none |
| `HedgeText.PriceRoundTrip` | backend/src/modules/hedge/hedge-route.ts:251-268 | a printed price reads back as itself, and only zero is unreadable |
| `HedgeText.PriceExactly` | backend/src/modules/hedge/hedge-route.ts:251-261 | a string is a price exactly when it is a positive decimal of at most 18 fraction digits |
| `HedgeText.QuoteQuantityNormalForm` | backend/src/modules/hedge/hedge-execution-evidence.ts:6-15 | normalising a quote quantity prints its value |
| `HedgeText.QuoteQuantityExactly` | backend/src/modules/hedge/hedge-execution-evidence.ts:6-15 | exactly decimals of at most 60 integer and 18 fraction digits are quote quantities, so their integers are below 10^78 |
| `HedgeText.QuoteQuantitiesComparable` | backend/src/modules/hedge/hedge-execution-evidence.ts:6-27 | quantities normalise to the same string exactly when equal, and comparison is by value |
| `HedgeText.SignedRoundTrip` | sdk/src/client-accounting-responses.ts:345-354 | the SDK's signed parser inverts the backend's printer, and exactly negative values print a sign |
| `HedgeText.SignedCanonical` | backend/src/modules/hedge/hedge-net-pnl.ts:183-189 | conversely every canonical signed decimal is what the printer prints for its value |
| `HedgeText.QuoteChargeFromText` | backend/src/modules/hedge/hedge-net-pnl.ts:158-177 | cutting a commission string up to 18 decimals agrees with the stored integer |
| `HedgeText.BaseChargeFromText` | backend/src/modules/hedge/hedge-net-pnl.ts:120-128 | valuing a base commission from strings agrees with the stored integers |
| `DecimalText.FormatReadsBack` | backend/src/modules/hedge/hedge-route.ts:294-300 | every printed decimal is canonical, within its scale, and reads back as the value |
| `DecimalText.FormatOfScaled` | backend/src/modules/hedge/hedge-route.ts:294-300 | printing a parsed trimmed decimal gives the string back |
| `BinanceSymbolRules.BuiltOrderPasses` | backend/src/modules/hedge/binance-symbol-rules.ts:193-238 | an order built on a route that validateRoute accepts never fails the step or tick check and passes exactly when its integer quantity, its price in 10^-18 and their product lie between the venue's numbers |
| `BinanceSymbolRules.OrderChecks` | backend/src/modules/hedge/binance-symbol-rules.ts:212-238 | on any two parsed strings, validateOrder passes exactly values and product within the venue's numbers that are multiples of step and tick, and each refusal names what is violated |
| `BinanceSymbolRules.JudgedExactly` | backend/src/modules/hedge/binance-symbol-rules.ts:257-263 | strings that are not decimals of at most 80 characters, and only those, are refused as malformed |
| `BinanceSymbolRules.RouteChecks` | backend/src/modules/hedge/binance-symbol-rules.ts:193-210 | validateRoute passes exactly a trading spot symbol with limit orders, the same names, and step and tick equal to the venue's numbers |
| `BinanceSymbolRules.CompareSign` | backend/src/modules/hedge/binance-symbol-rules.ts:265-270 | the sign of the comparison is that of the numbers, cross-multiplied |
| `BinanceSymbolRules.ProductInUnits` | backend/src/modules/hedge/binance-symbol-rules.ts:279-281 | the value of the product is the product of the values at any scale |
| `BinanceSymbolRules.MultipleOfStep` | backend/src/modules/hedge/binance-symbol-rules.ts:272-277 | a multiple is a whole number of positive steps |
| `BinanceSymbolRules.RawUnitsExact` | backend/src/modules/hedge/binance-symbol-rules.ts:283-287 | the raw units are the integer that is the number at that scale, if there is one |
| `BinanceSymbolRules.MultipleAtAnyScale` | backend/src/modules/hedge/binance-symbol-rules.ts:265-277 | being a multiple does not depend on the common scale chosen |
| `BinanceTrades.QueryOrderTrades` | backend/src/modules/hedge/binance-spot.adapter.ts:185-211 | for any exchange returned ids strictly increase; for one that answers truthfully the result is all trades in order exactly when each parses, there are fewer than 100000 and no unsafe next id is needed; for trades that parse the error is determined otherwise |
| `BinanceTrades.ListableExactly` | backend/src/modules/hedge/binance-spot.adapter.ts:185-211 | in numbers, what the loop can fetch: fewer than 100000 trades that parse, and no full last page of 1000 that ends in 2^53 - 1 |
| `BinanceTrades.ParseTradeResponse` | backend/src/modules/hedge/binance-spot.adapter.ts:381-416 | accepts exactly entries of the order that parse, digit limits, asset name and time included, under safe, strictly increasing ids |
| `BinanceTrades.ValidTradesExactly` | backend/src/modules/hedge/binance-spot.adapter.ts:381-416 | in numbers: ids of the order below 2^53 that increase from each entry to the next, positive amounts of at most 60 integer digits |
| `BinanceTrades.ParsedIsFill` | backend/src/modules/hedge/hedge-fee-evidence.ts:3-22 | a parsed trade is a valid fill exactly when base amount and commission have at most 78 digits |
| `BinanceTrades.FromNextId` | backend/src/modules/hedge/binance-spot.adapter.ts:208-208 | asking from the id after trade k continues with trade k + 1 |
| `BinanceTrades.UnsafeIdRefused` | backend/src/modules/hedge/binance-spot.adapter.ts:431-435 | the loop refuses a thousand trades that parse and end in 2^53 - 1, although the exchange answers truthfully |
| `AnalyticsSafety.NothingLost` | backend/src/modules/analytics/analytics-outbox.publisher.ts:54-75 | every outbox row ever created is still unpublished in the outbox or in the log of its topic, whatever leases, retries and deletes did |
| `AnalyticsSafety.CommittedIsProjected` | backend/src/modules/analytics/kafka-analytics.consumer.ts:144-166 | every message below a committed offset is in the table |
| `AnalyticsSafety.OneRowPerEvent` | backend/src/modules/analytics/clickhouse-analytics.sink.ts:56-98 | after merging, which works only inside a month, the table holds exactly one row per projected event id, with the event as created |
| `AnalyticsSafety.CaughtUpIsExact` | backend/src/modules/analytics/kafka-analytics.consumer.ts:144-166 | once all is published and committed the merged table holds exactly the events of the topic, once each |
| `AnalyticsSafety.InvNext` | backend/src/modules/analytics/analytics-outbox.publisher.ts:54-118 | every step of the pipeline keeps its invariant |
| `AnalyticsPipeline.EventIdInjective` | backend/src/modules/analytics/analytics-event.ts:32-43 | distinct outbox ids give distinct event ids |
| `AnalyticsPipeline.MergedRows` | backend/src/modules/analytics/clickhouse-analytics.sink.ts:56-72 | the merged table keeps exactly one inserted row for every key that was inserted |
| `AnalyticsPipeline.MergedIsLast` | backend/src/modules/analytics/clickhouse-analytics.sink.ts:69-71 | that row is the last of its key to have been ingested |
| `AnalyticsStores.OutboxStore.ClaimBatch` | backend/src/modules/analytics/postgres-analytics-outbox.store.ts:40-75 | in columns: leases, until now plus the lease time, exactly the first unpublished, available rows without a live lease, by due time and id within the batch size, and returns them once each in no promised order |
| `AnalyticsStores.OutboxStore.MarkPublished` | backend/src/modules/analytics/postgres-analytics-outbox.store.ts:77-87 | sets the publication time of exactly an unpublished row under the worker's lease, and reports a conflict otherwise |
| `AnalyticsStores.OutboxStore.ReleaseForRetry` | backend/src/modules/analytics/postgres-analytics-outbox.store.ts:89-109 | sets the next due time of exactly an unpublished row under the worker's lease, and reports a conflict otherwise |
| `AnalyticsStores.OutboxStore.DeletePublishedBefore` | backend/src/modules/analytics/postgres-analytics-outbox.store.ts:140-160 | in columns: deletes only rows published before the cutoff, at most the limit and the earliest of them, all of them when fewer; every other row stays as it is |
| `AnalyticsStores.TakeEarliest` | backend/src/modules/analytics/postgres-analytics-outbox.store.ts:46-55 | ORDER BY and LIMIT: distinct, ordered, within the limit, nothing earlier left out |
| `AnalyticsStores.RunOnce` | backend/src/modules/analytics/analytics-outbox.publisher.ts:54-75 | in whatever order the claim returned them, every record is marked at its time exactly when its publish was acknowledged before the stop, else rescheduled, and counted once; every other row stays as it is; alone no lease conflict arises |
| `AnalyticsStores.ConsumeBatch` | backend/src/modules/analytics/kafka-analytics.consumer.ts:144-161 | inserts all messages once each, in order, in chunks the table accepts, before the next offset is committed; a stale batch is not committed |
| `HedgeService.HedgeService.CreateHedgeIntent` | backend/src/modules/hedge/hedge.service.ts:103-149 | one intent per settlement: repetition returns it, a different request conflicts, and the indexes stay inverse |
| `HedgeService.HedgeService.GetHedgeIntentBySettlementEvent` | backend/src/modules/hedge/hedge.service.ts:157-162 | finds the settlement's only intent |
| `HedgeService.HedgeService.RemoveHedgeIntentBySettlementEvent` | backend/src/modules/hedge/hedge.service.ts:164-192 | removes exactly queued intents without an order from both indexes and forgets the settlement's failures; the inconsistent-index error is unreachable |
| `HedgeService.HedgeService.MarkHedgeIntentFilled` | backend/src/modules/hedge/hedge.service.ts:194-224 | fills a queued intent once, repeats quietly, refuses failed intents and other order ids |
| `HedgeService.HedgeService.MarkHedgeIntentFailed` | backend/src/modules/hedge/hedge.service.ts:226-253 | fails a queued intent once and reports the failure, refuses filled intents |
| `HedgeService.HedgeService.RecordFailureEvent` | backend/src/modules/hedge/hedge.service.ts:271-278 | the pruned maps stay the image of the failure history extended by the report, and agreement with counting any failure survives exactly when the settlement was not among the recent failures or failed at the counted time |
| `HedgeService.HedgeService.RecentFailureEvents` | backend/src/modules/hedge/hedge.service.ts:280-288 | pruning leaves exactly the counted failures of the full history that are in the window |
| `HedgeService.HedgeService.ClearFailureEvent` | backend/src/modules/hedge/hedge.service.ts:298-303 | forgets the settlement under every key |
| `HedgeService.HedgeService.QuoteRiskPenaltyBps` | backend/src/modules/hedge/hedge.service.ts:261-265 | the penalty is the capped multiple of the failures counted from the full history, and of all failures in the window while the two agree |
| `HedgeService.PenaltyIsCapped` | backend/src/modules/hedge/hedge.service.ts:261-265 | that is the smaller of the count times the penalty and the maximum, and never falls with another failure |
| `HedgeService.WindowIsAnyFailure` | backend/src/modules/hedge/hedge.service.ts:271-288 | the window agrees from now on with counting every settlement that failed within the lookback exactly when no such settlement's latest report arrived while the settlement was still among the recent failures with another time |
| `HedgeService.ReportKeepsAgreement` | backend/src/modules/hedge/hedge.service.ts:271-278 | one more report keeps the agreement exactly when the guard of the ignoring branch is false or the time is the counted one |
| `HedgeService.RemovalKeepsAgreement` | backend/src/modules/hedge/hedge.service.ts:298-303 | a removal keeps the agreement |
| `HedgeService.RepeatedReportForgotten` | backend/src/modules/hedge/hedge.service.ts:271-278 | the example where they differ |
| `HedgeService.CountedBeforeLatest` | backend/src/modules/hedge/hedge.service.ts:271-288 | the time that counts is never later than the latest report |
| `SubmitReservations.InMemoryStore.Acquire` | backend/src/modules/execution/submit-reservation.store.ts:54-69 | grants, until now plus the lease time, exactly when the quote has no reservation or an expired one |
| `SubmitReservations.InMemoryStore.Release` | backend/src/modules/execution/submit-reservation.store.ts:71-77 | removes only the releasing owner's reservation |
| `SubmitReservations.PostgresStore.Acquire` | backend/src/modules/execution/postgres-submit-reservation.store.ts:39-71 | the conditional upsert grants exactly when the in-memory store does |
| `SubmitReservations.PostgresStore.Release` | backend/src/modules/execution/postgres-submit-reservation.store.ts:73-85 | the owner-checked delete has the same effect as the in-memory release |
| `SubmitReservations.AtMostOneHolder` | backend/src/modules/execution/submit-reservation.store.ts:54-77 | after every run a quote has at most one unexpired holder, the stored one |
| `SubmitReservations.LateReleaseHarmless` | backend/src/modules/execution/submit-reservation.store.ts:71-77 | a late release never takes away a newer reservation |
| `SubmitReservations.GrantedExactlyWhenFree` | backend/src/modules/execution/submit-reservation.store.ts:54-69 | after every run a quote is free exactly when nobody holds it |
| `PnlSummary.AssertTotals` | sdk/src/client-accounting-responses.ts:41-101 | accepts a page exactly when its totals are sorted, cover and dominate the page and add up, and a full page exactly when they are its group-by |
| `PnlSummary.FullPageExact` | sdk/src/client-accounting-responses.ts:91-101 | on a full page acceptance is being the sorted group-by of distinct trades; the sum check follows |
| `PnlSummary.FullPageInTrades` | sdk/src/client-accounting-responses.ts:51-101 | in terms of the trades: one row for each chain and token paid out, in order, with the number of their trades and the sum of their gross PnL |
| `GroupedTotals.GroupByUnique` | sdk/src/client-accounting-responses.ts:91-101 | only one list of totals is a group-by of the entries, so only one is accepted for a full page |
| `PnlSummary.PageWithinTotals` | sdk/src/client-accounting-responses.ts:70-93 | on any accepted page each key's total lies between the page's count and the global total |
| `PnlSummary.CollectExpected` | sdk/src/client-accounting-responses.ts:52-68 | the loop over trades rejects repeated ids and computes counts and sums per key |
| `GroupedTotals.CheckTotals` | sdk/src/client-accounting-responses.ts:70-90 | the loop over totals decides order, uniqueness, safe sum and domination |
| `GroupedTotals.SortedByColumns` | sdk/src/client-accounting-responses.ts:70-81 | sorted means by chain, then by token, then by asset, without repetition |
| `GroupedTotals.MatchesExpected` | sdk/src/client-accounting-responses.ts:94-99 | the full-page comparison accepts exactly the group-by |
| `GroupedTotals.GroupByDominates` | sdk/src/client-accounting-responses.ts:91-93 | a group-by's counts add up to its entries |
| `HedgeNetSummary.AssertHedgeNetPnlSummary` | sdk/src/client-accounting-responses.ts:105-179 | accepts exactly summaries with records aligned to the trades, status counts that dominate and add up, totals that dominate the complete records, and on a full page the exact counts and the group-by |
| `HedgeNetSummary.CollectRecords` | sdk/src/client-accounting-responses.ts:121-144 | the loop over records accepts exactly aligned ones and counts statuses and sums complete records per key |
| `HedgeNetSummary.FullPageExact` | sdk/src/client-accounting-responses.ts:145-178 | on a full page acceptance is alignment, exact status counts and the sorted group-by of the complete records; the sum checks follow |
| `HedgeNetSummary.FullPageInRecords` | sdk/src/client-accounting-responses.ts:121-178 | in terms of the records: one row for each chain, valuation token and asset with the number and net PnL of its complete records |
| `HedgeNetSummary.CountsAreNumbers` | sdk/src/client-accounting-responses.ts:133-135 | the status counts are the numbers of records in each status |
| `HedgeNetSummary.FullPageCountsForced` | sdk/src/client-accounting-responses.ts:148-152 | on a full page domination and the sum already force the exact status counts |
| `HedgeNetSummary.PageWithinTotals` | sdk/src/client-accounting-responses.ts:145-170 | on any accepted page each valued group's total lies between the page's count and the complete trades |

## Left out

- `PostgresHedgeService` and its manual status updates, removal and recreation of intents: other writers of the same rows.
- Rows from before route accounting (`base-only-v1` evidence, missing order age): only rows prepared by the present code.
- HTTP, signing, clock synchronisation, response size limits, environment and JSON configuration, metrics, logging.
- Checks of own fields, identifier patterns and address shapes: they are types here. An exchange report whose decimals do not parse appears as a retryable refusal.
- The row order that SKIP LOCKED yields when other transactions hold rows: the transition systems allow any eligible row, `HedgeStores` the order without contention.
- The polling loops `run` and `stop` of the workers; the error code columns of fee and outbox rows; attempt counts of outbox rows.
- Fairness: nothing says that a hedge or an event is eventually processed, only when it can be and what holds when it is.
- The unique index over venue trades across hedges: fills belong to one hedge here.
- The symbol-rules cache and the route table's constructor loop: lookups only.
- The records that `HedgeService` returns are values, so that callers cannot change stored ones; the copies the code makes for that are not modelled.
- Page metadata, record shapes and the trade record's own arithmetic in the SDK. Asset names are numbers in locale order.
- JSON of analytics events, poison messages, log retention and broker-side offset fencing; a late append or commit may happen at any time instead.
- `HedgeStores.HedgeFeeStore.ClaimNext` reads quantities of rows from before quote evidence as zero; such rows are outside the model.
- The widths of the NUMERIC columns of orders and PnL: a value that does not fit would be a database error. The digit limits that the code itself checks of fills and sums are modelled.
- A trade time beyond what toISOString prints is thrown as another error than BINANCE_RESPONSE_INVALID; both are retried, and one result stands for them.
- Millisecond truncation of timestamps that Postgres returns.
