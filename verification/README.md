# Verification of the trade-execution control plane

This project models the control plane of a funding-rate arbitrage system and proves what it
promises. A two-leg hedge (buy spot, sell perpetual) is opened, closed, recovered and rebalanced
by an orchestrator that writes a trade ledger and an append-only audit log, is guarded by a
circuit breaker, and talks to an exchange that may answer anything or fail anywhere. Around it
sit planners that read ledger, log and exchange reports and drive the orchestrator again, and
below it fixed-decimal scoring, risk policy, backtest and parameter tuning.

## How the model is built

Each component that works by changing state is a class whose methods are loops and assignments
over its fields; each method is proved equal to a function of the state before it. The theorems
are lemmas about those functions, over every run.

| file | content |
|---|---|
| `Decimals`, `Lists` | round-half-to-even on exact decimals; filters, stable sort, string order |
| `Ledger`, `Audit`, `CircuitBreaker` | the three stores and their services |
| `Execution` | the effect of every orchestrator call as a function of the state before it |
| `Orchestrator` | the orchestrator as a class, proved equal to `Execution` |
| `ExecutionRuns`, `AuditReplay`, `BreakerSafety`, `TradeLifecycle`, `Exposure` | theorems over all runs |
| `CallBooking`, `CallResults` | what one call books, leaves and tells |
| `ExchangeReports`, `Hedge`, `HedgeDrain` | exposure, rebalance plans, the auto-rebalance queue |
| `OrderTrail`, `Reconciliation`, `ReportSync`, `ReconciliationAgreement`, `AttentionMeaning` | expected orders, indexes, summary, candidates, sync, and what needs attention |
| `Recovery`, `RecoveryDrain`, `RecoveryDirection` | recovery plans, the recovery queue, and which way a trade is resumed |
| `Compensation`, `CompensationSafety`, `CompensationRuns`, `CompensationDrain`, `PlanMeaning` | the priority chain, the safe-action run, and when a plan leaves the list |
| `Listings` | the order of every planner's list |
| `Opportunity`, `Risk`, `EdgeMonotonicity`, `ScoreAccuracy` | scorer and risk policy |
| `Backtest`, `BacktestLaws`, `Tuning`, `TuningSafety` | backtest and tuning packages |
| `Scheduler`, `SchedulerCaps`, `SchedulerSignals` | the strategy scheduler, its caps, what it opens and closes |
| `SafeRetry`, `Backfill` | the exchange adapter's safe retry; the deduplicating import |

Conventions. Times are integers in microseconds and are passed in, as are new ids. Money is exact
decimals (`real`) with `round(x, n)` written out as round-half-to-even. The exchange adapter of the
orchestrator answers from an arbitrary script. Python's `ValueError` is told from every other
exception because callers do. A run is any sequence of calls on one orchestrator; calls are atomic.
"Unique ids" means that no trade id is listed twice, which holds of every ledger a run reaches from an
empty start (`TradeLifecycle.ReachableIdsAreUnique`).

## Where code and expectation differ

- An execution intent with action `rebalance_hedge` runs the close path and can rewrite a closed
  record (`TradeLifecycle.ClosedRecordKeptIff`).
- A live open whose legs are only submitted ends `hedged`: `hedged` means that no leg failed or was
  partial (`TradeLifecycle.LiveOpenEndsAs`).
- The merge of order reports keeps the last listed of two stored reports of one order, not the
  newest. The newest report of an order without news survives exactly when it is also the one listed
  last (`ReportSync.NewestIsKeptIff`); a file import can leave a store where it is not.
- The planner can never ask to resume a live trade as a close: that suggestion needs local status
  `closed`, which is not a recoverable status (`RecoveryDrain.AutomaticPlans`).
- Paper trading alone never plans to resume a close: a failed paper trade has only ever been opened
  (`RecoveryDirection.PaperFailuresResumeOpen`).
- The mode of a close is the intent's, not the trade's: a paper close of a live trade marks it closed
  without asking the exchange (`CallResults.CloseFollowsTheIntent`).
- Compensation does not drain. A rebalance plan is executed and leaves the list under one exact
  condition on the state before it runs (`CompensationDrain.RebalanceDrainsIff`); a closed live trade
  with leftover exposure never meets it (`CompensationDrain.ClosedDriftNeverDrains`).
- An extra read of the breaker state can change a later answer when the clock runs backwards, under
  the exact condition of `BreakerHistory.PollMattersIff`.
- Client order ids are fixed per trade and action, so a second rebalance of a trade can return
  normally without placing an order (`SafeRetry.ReturnsWithoutOrderIff`).
- The fallback from a zero projected edge to the net edge lets a thin-edge row through when the
  expected hold is below one period (`EdgeMonotonicity.ZeroHoldAllowsThinEdge`).
- The scheduler's last statement calls `save_record` on the audit service, which has no such method
  (`backend/app/scheduler/service.py:157`), so a cycle ends in an exception after its two loops. The
  cap theorems are about the ledger those loops leave.

## Model

| member | source | states |
|---|---|---|
| Ledger.TradeLedgerService.GetRecord | backend/app/ledger/service.py:37-41 | the lookup loop returns the first record listed under the id, or nothing |
| Ledger.TradeLedgerService.SaveRecord | backend/app/ledger/service.py:43-54 | the save replaces the first record of the id in place or appends, and touches nothing else |
| Ledger.TradeLedgerService.ListRecords | backend/app/ledger/service.py:11-28 | four optional filters applied one after the other keep exactly the records that meet every criterion given |
| Ledger.PutUpdates | backend/app/ledger/service.py:43-54 | read as a map from ids to records, the list changes by exactly one map update when a record is saved |
| Ledger.PutKeepsUnique | backend/app/ledger/service.py:43-54 | saving never makes a trade id appear twice |
| Audit.AuditEventService.RecordEvent | backend/app/audit/service.py:32-55 | one event with the next id is appended and nothing already logged changes |
| Audit.AuditEventService.ListEvents | backend/app/audit/service.py:15-30 | the orchestrator's events in (time, id) order, the last `limit` of them when a limit is given |
| Audit.TimelineFilter | backend/app/audit/service.py:15-30 | selecting a part of the ordered log is ordering that part of the log: the sort is stable under any selection |
| Audit.TimelineInOrder | backend/app/audit/service.py:15-30 | the timeline holds the events of the orchestrator as often as the log does, earlier ones first and then by id |
| Audit.LastEventsAreTheSuffix | backend/app/audit/service.py:15-30 | a limited listing is the end of the timeline, as long as the limit and the timeline allow; a limit of zero is none |
| Ledger.ListedIff | backend/app/ledger/service.py:11-28 | a record is listed if and only if it is there and equals every criterion given |
| CircuitBreaker.ExecutionCircuitBreakerService.GetState | backend/app/execution/circuit_breaker.py:94-109 | reading expires an open breaker whose resume time has come, and saves it then and only then |
| CircuitBreaker.ExecutionCircuitBreakerService.EnsureAllowsExecution | backend/app/execution/circuit_breaker.py:111-116 | execution is refused exactly when the breaker is enabled and, after lazy expiry, open |
| CircuitBreaker.ExecutionCircuitBreakerService.RecordFailure | backend/app/execution/circuit_breaker.py:118-144 | what a failure leaves in the store, after lazy expiry |
| CircuitBreaker.ExecutionCircuitBreakerService.RecordSuccess | backend/app/execution/circuit_breaker.py:146-167 | what a success leaves in the store, after lazy expiry |
| CircuitBreaker.ExecutionCircuitBreakerService.ManualReset | backend/app/execution/circuit_breaker.py:169-187 | what a manual reset leaves in the store, enabled or not |
| BreakerHistory.BreakerRefinesHistory | backend/app/execution/circuit_breaker.py:94-203 | under a forward clock the breaker is open at t if and only if, since the last success, reset or expiry, at least threshold failures happened and t is before the last of them plus the cooldown; count and resume time agree too |
| BreakerHistory.PollsChangeNothing | backend/app/execution/circuit_breaker.py:94-109 | reading the state any number of times anywhere in a history changes no later verdict |
| BreakerHistory.PollMattersIff | backend/app/execution/circuit_breaker.py:94-109 | whatever the clock does, one more poll changes the verdict at a time if and only if the breaker has expired by the time of the poll but not by the time asked about |
| BreakerHistory.IdlePollIsInvisible | backend/app/execution/circuit_breaker.py:94-109 | a poll that finds nothing to expire can be left out anywhere in a history |
| BreakerHistory.PollsMatterWhenTheClockRunsBack | backend/app/execution/circuit_breaker.py:94-109 | a concrete history with a clock that runs back in which an extra poll changes the answer |
| BreakerHistory.EverySavedStateIsCoherent | backend/app/execution/circuit_breaker.py:94-203 | in every saved state, whatever the clock does: open, resume time set, opened-at set and count at the threshold are equivalent, and a disabled breaker never opens |
| BreakerHistory.ResetAlwaysClears | backend/app/execution/circuit_breaker.py:169-187 | a manual reset saves a clear state, enabled or not |
| BreakerHistory.StateRemembers | backend/app/execution/circuit_breaker.py:118-187 | whatever the clock does, the stored state names the trade of the last failure or success, the time of the last failure and, while failures are counted, its reason |
| Orchestration.ExecutionOrchestrator.Execute | backend/app/execution/service.py:40-65 | the whole call, with replay, safety gate, checks, breaker and both modes, changes ledger, log, breaker and adapter exactly as the effect function says |
| Orchestration.ExecutionOrchestrator.HandleIdempotentReplay | backend/app/execution/service.py:730-774 | a replay is answered from the ledger, logs one replay event and changes nothing else; any other intent leaves everything untouched |
| Orchestration.ExecutionOrchestrator.ExecuteLive | backend/app/execution/service.py:53-62 | checks, breaker gate, execution, and one failure or success booked, also when the adapter raises midway |
| Orchestration.ExecutionOrchestrator.ValidateLiveRequest | backend/app/execution/service.py:640-655 | a request passes exactly when live execution is on, the symbol is listed if there is a list, and the notional is within the limit if there is one |
| Orchestration.ExecutionOrchestrator.EnsureLiveExecutionAllowed | backend/app/execution/service.py:657-671 | a refusal logs one blocked event and happens exactly when the breaker is open after lazy expiry |
| Orchestration.ExecutionOrchestrator.RecordLiveCircuitBreakerFailure | backend/app/execution/service.py:673-699 | one failure is booked, and an opened event is logged exactly when the breaker goes from closed to open |
| Orchestration.ExecutionOrchestrator.UpdateLiveCircuitBreakerAfterResult | backend/app/execution/service.py:701-728 | a failed or partial result books a failure, any other a success, with a reset event exactly when failures were pending |
| Orchestration.ExecutionOrchestrator.ExecuteOpen | backend/app/execution/service.py:282-398 | a paper open ends hedged or, with the simulated leg failure, failed, with its four events in order |
| Orchestration.ExecutionOrchestrator.ExecuteClose | backend/app/execution/service.py:400-455 | a paper close stamps the closing time and result, or raises and leaves ledger and log alone when the trade is unknown |
| Orchestration.ExecutionOrchestrator.ExecuteLiveOpen | backend/app/execution/service.py:457-524 | a live open leaves a candidate behind when the adapter raises, otherwise the status its legs decide, with one event a leg |
| Orchestration.ExecutionOrchestrator.ExecuteLiveClose | backend/app/execution/service.py:526-596 | a live close leaves a closing record behind when the adapter raises, otherwise the status its legs decide |
| Orchestration.ExecutionOrchestrator.Recover | backend/app/execution/service.py:67-144 | recovery of a failed or half-done trade resumes the open or finishes the close; any other trade raises and nothing changes |
| Orchestration.ExecutionOrchestrator.RebalanceHedge | backend/app/execution/service.py:146-273 | a rebalance moves delta from exposure to the perp leg on a filled report, keeps the amounts and goes to a recovery status on any other report, and saves nothing when it raises |
| AuditReplay.LogTellsTheLedger | backend/app/execution/service.py:40-596 | after every call of every run from an empty start, with an adapter that may answer anything or raise, replaying the audit log in append order gives exactly the map from trades to statuses that the ledger holds |
| AuditReplay.CallKeepsLogAndLedgerInStep | backend/app/execution/service.py:40-596 | one call keeps log and ledger in step from any state in which they agree |
| BreakerSafety.BreakerGuardsEveryRun | backend/app/execution/service.py:657-728 | over every run with the breaker enabled: each adapter call was made with a closed breaker, no stored failure count exceeds the threshold, and there is one opened event for each closed-to-open transition |
| BreakerSafety.EachCallFailsAtMostOnce | backend/app/execution/service.py:53-62 | in every run a call books at most one failure and reaches the adapter at most once |
| TradeLifecycle.ClosedStaysClosed | backend/app/execution/service.py:40-144 | over every run of open and close intents, recoveries and rebalances a closed record never changes again |
| TradeLifecycle.ClosedRecordKeptIff | backend/app/execution/service.py:63-65 | an execution intent keeps a closed record if and only if it is not a rebalance that passes the safety gate and, in live mode, every check before the exchange, or what it writes is what the record holds already, which takes a closing time that still lies ahead |
| TradeLifecycle.ReachableIdsAreUnique | backend/app/execution/service.py:40-596 | every ledger reachable from an empty start lists each trade once |
| TradeLifecycle.RunsKeepIdsUnique | backend/app/execution/service.py:40-596 | a run from a ledger with unique ids keeps them unique |
| TradeLifecycle.LiveOpenEndsAs | backend/app/execution/service.py:457-524 | a live open that gets an answer ends hedged if and only if every leg is filled or submitted, failed if and only if a leg failed, in recovery if and only if a leg is partial and none failed |
| TradeLifecycle.OpenIsIdempotent | backend/app/execution/service.py:730-774 | after an open has returned, the same open again is a replay exactly when the first did not fail, and a replay leaves the ledger alone |
| TradeLifecycle.ClosedAtMeansClosed | backend/app/execution/service.py:400-596 | under a forward clock a record has a closing time if and only if it is closed, and that time lies after its opening |
| TradeLifecycle.PaperRunsSettle | backend/app/execution/service.py:63-144 | paper-only runs never reach the exchange and between calls every trade is hedged, failed or closed |
| Exposure.ExposureIsConserved | backend/app/execution/service.py:238-245 | on amounts in whole 1e-4 units and without an override, every record of every run satisfies net exposure = spot - perp exactly |
| Exposure.PlannedRunsStayNonNegative | backend/app/execution/service.py:238-245 | when rebalances execute the planned delta, no record of any run ever has a negative perp notional |
| Exposure.PlannedRebalanceMatchesSpot | backend/app/hedge/service.py:111-125 | the planned rebalance of a balanced record brings the perp leg to the spot leg |
| Exposure.PlannedRebalanceNeutralises | backend/app/hedge/service.py:111-125 | executing the planned delta leaves a net exposure of exactly zero, whatever the exposure was |
| Exposure.RebalanceDrift | backend/app/execution/service.py:238-245 | for arbitrary amounts one rebalance changes perp plus net exposure by at most 1e-4 |
| Exposure.RebalanceDriftIsMet | backend/app/execution/service.py:238-245 | that bound is met by a concrete half-unit delta |
| Exposure.OpeningExposure | backend/app/execution/service.py:635-638 | the stored exposure of an opening is spot minus perp exactly if and only if that difference is in whole 1e-4 units, and within half a unit otherwise |
| Exposure.ExposureDriftIsBounded | backend/app/execution/service.py:238-245 | for arbitrary amounts the books of every run are off by at most half a unit for the opening and one unit for each rebalance |
| CallBooking.IntentIsBooked | backend/app/execution/service.py:53-62 | with the breaker on, a live intent that passes gate, limits and breaker is booked once: as one failure more, with its time, its trade and an opening at the threshold, if and only if it raised or left the trade failed or half done; as a success that clears the count otherwise; any other intent books nothing |
| CallBooking.RebalanceIsBooked | backend/app/execution/service.py:182-273 | the same for a live rebalance, booked exactly when it asks the exchange |
| CallBooking.IntentReachesExchangeIff | backend/app/execution/service.py:40-62 | a live intent makes one call on the exchange, with the whole request, if and only if it is safe, within the limits, no resume time lies ahead, and there is something to do: the trade of an open is new, a candidate, failed or cancelled, that of a close is known and not closed |
| CallBooking.RebalanceOrders | backend/app/execution/service.py:190-197 | a rebalance that asks the exchange orders the whole quantity, sold for a positive delta and bought reduce-only for a negative one; any other makes no call |
| CallBooking.RefusedWithoutATrace | backend/app/execution/service.py:40-56 | an intent that the safety gate or, in live mode, a limit rules out is refused as a bad value and changes nothing |
| CallBooking.RefusedRebalanceLogs | backend/app/execution/service.py:153-190 | a rebalance of a live trade that does not reach the exchange leaves the ledger alone and logs its start, with a blocked event when the breaker stopped it; a bad trade, delta or quantity leaves no trace |
| CallBooking.BlockedIsLogged | backend/app/execution/service.py:657-671 | an intent that only the breaker stops logs one blocked event and changes nothing else |
| CallBooking.ResetIsLogged | backend/app/execution/service.py:701-728 | a success is logged as a reset if and only if failures were counted before it |
| CallResults.RebalanceEndsAs | backend/app/execution/service.py:209-273 | a live rebalance that returns leaves the trade hedged if and only if the first leg is filled, failed if and only if it failed, recovery_pending if and only if it is partial or submitted; the delta is moved in the first case and the amounts are as they were in the others |
| CallResults.LiveCloseEndsAs | backend/app/execution/service.py:526-596 | a live close that returns leaves the trade closed if and only if every leg is filled or submitted, failed if and only if a leg failed, recovery_pending otherwise, with the result booked and a closing time only when closed |
| CallResults.OpenLeaves | backend/app/execution/service.py:282-524 | what a returned open leaves, field by field; a paper open fails if and only if its perp leg is made to fail |
| CallResults.PaperCloseLeaves | backend/app/execution/service.py:400-455 | a paper close of a known trade always returns, and changes status, closing time, result and notes only |
| CallResults.RecoverLeaves | backend/app/execution/service.py:67-144 | a recovery returns if and only if the trade is failed or half done, and changes status, closing time and notes only |
| CallResults.RaisingLeavesATrace | backend/app/execution/service.py:457-540 | when the exchange raises, an open leaves a candidate and a close a closing trade, with the error passed on |
| CallResults.ResultTellsTheWorld | backend/app/execution/service.py:40-596 | for every call that returns: its record is the one in the ledger afterwards, its events are what it appended to the log, strictly increasing in time, followed by one breaker event at the most, and it ended when the last of them happened |
| CallResults.LegsAreLogged | backend/app/execution/service.py:457-596 | a live open or close that returns logged its intent, every leg of the answer in order with phase, leg, status and order id, and how it ended |
| CallResults.ReplayTellsTheWorld | backend/app/execution/service.py:730-774 | a replay returns the record as it is and one replay event that names its status, and touches nothing else |
| CallResults.ResultNames | backend/app/execution/service.py:40-273 | a result names action, mode and symbol: those of the intent, or for a recovery or rebalance those of the trade |
| CallResults.PaperOpenLogs | backend/app/execution/service.py:282-398 | the four events of a paper open, a millisecond apart, with a failed perp leg or without |
| CallResults.PaperCloseLogs | backend/app/execution/service.py:400-455 | the three events of a paper close |
| CallResults.RecoverLogs | backend/app/execution/service.py:67-144 | the events of a recovery: start, filled leg for a resumed open, end |
| CallResults.LiveRebalanceLogs | backend/app/execution/service.py:199-273 | the three events of a live rebalance: start, the first leg of the answer, and how it ended |
| CallResults.CloseFollowsTheIntent | backend/app/execution/service.py:53-65 | a live trade that an intent closed was closed on the exchange if and only if the intent itself said live |
| OrderTrail.CallAddsOrders | backend/app/execution/service.py:457-636 | a call adds to the orders a trade is expected to have exactly the ids of the filled and partly filled legs of the answer to an open or a close; nothing else adds any |
| ExchangeReports.ExchangeOrderReportStore.InferLatestPerpReferencePrice | backend/app/hedge/service.py:327-339 | the average price of the executed perp report with the greatest (updated_at, report_id), or nothing exactly when the trade has none |
| Hedge.HedgeManagerService.BuildRebalancePlan | backend/app/hedge/service.py:76-136 | the plan of the trade's record, or a ValueError for an unknown trade |
| Hedge.HedgeManagerService.ListCandidatePlans | backend/app/hedge/service.py:146-157 | the active trades that ask for a rebalance, largest exposure first |
| Hedge.HedgeManagerService.ExecuteAutoRebalanceActions | backend/app/hedge/service.py:138-244 | the loop runs the first `limit` plans in order, with any exception of one plan counted as failed, and returns the three counts |
| HedgeDrain.AutoRebalanceDrains | backend/app/hedge/service.py:138-244 | with unique ids one run removes from the queue exactly the trades it reports as executed; each of those is left neutral and healthy or in a recovery status, item i belongs to plan i, and no other trade changes |
| HedgeDrain.RunPlanSettles | backend/app/hedge/service.py:160-236 | executing a plan settles its trade; a plan that is not executed changes no record |
| HedgeDrain.RebalanceReturnsIff | backend/app/execution/service.py:146-273 | a rebalance call returns if and only if the trade is hedged or open, quantity and delta are worth an order and, for a live trade, every check passes, there is an adapter and it answers with a report |
| HedgeDrain.RunPlanExecutedIff | backend/app/hedge/service.py:160-236 | a plan is reported as executed if and only if there is a delta, a price and a quantity, the trade is hedged and, for a live trade, the exchange is reached and answers |
| ExchangeReports.ReferencePriceMeans | backend/app/hedge/service.py:327-339 | there is a price if and only if the trade has an executed perp report, and the price times the quantity executed in the newest one is the quote amount of that report |
| HedgeDrain.OrderedQuantityIsWorthDelta | backend/app/hedge/service.py:160-236 | the quantity ordered is worth the planned delta at the price to within half a unit of its sixth decimal |
| HedgeDrain.RunPlanOrders | backend/app/hedge/service.py:160-236 | if carrying out a plan reaches the exchange, it orders what the exposure is worth at the average price of the newest executed perp report, sold when short of perp, bought back when over |
| HedgeDrain.RunPlanSkippedIff | backend/app/hedge/service.py:160-236 | a plan is skipped if and only if there is no delta, no price or no quantity, and then nothing happens |
| Listings.HedgePlanMeans | backend/app/hedge/service.py:76-136 | what a plan says: recover, monitor, increase or reduce each under its exact condition on status, exposure and limit, with the exposure to the nearest unit as delta |
| Listings.ExposureIsAccurate | backend/app/hedge/service.py:314-317 | the exposure of a plan is in basis points of the larger leg, of at least one, to the nearest hundredth |
| Listings.HedgeListedIff | backend/app/hedge/service.py:146-157 | a trade is in the queue if and only if it is hedged, over the limit and of the symbol asked for |
| Listings.HedgePlansInOrder | backend/app/hedge/service.py:146-157 | the largest exposure comes first, then the greater id |
| HedgeDrain.CountIsNumber | backend/app/hedge/service.py:236-244 | each count is the number of items that ended that way |
| HedgeDrain.NeutralIsFine | backend/app/hedge/service.py:300-317 | a neutral hedged trade is healthy under every non-negative exposure limit |
| HedgeDrain.OutcomesPartition | backend/app/hedge/service.py:236-244 | every attempted plan is counted once, as executed, skipped or failed |
| Reconciliation.ReconciliationService.BuildReportIndex | backend/app/reconciliation/service.py:240-244 | the dictionary filled in sorted order is the index of latest reports |
| Reconciliation.ReconciliationService.BuildExpectedOrderIdIndex | backend/app/reconciliation/service.py:246-257 | the dictionary holds, for every trade, the order ids its filled and partial open and close legs name, each once, in order |
| Reconciliation.ReconciliationService.BuildLatestEventIndex | backend/app/reconciliation/service.py:288-297 | the dictionary holds every trade's latest event time |
| Reconciliation.ReconciliationService.BuildExpectedOrderRequests | backend/app/reconciliation/service.py:259-286 | each (leg, order id) of the trade is asked about once, in order |
| Reconciliation.ReconciliationService.ListCandidates | backend/app/reconciliation/service.py:85-141 | the live trades to reconcile, with expected, reported and missing orders, sorted by attention, latest event and id |
| Reconciliation.ReconciliationService.BuildSummary | backend/app/reconciliation/service.py:62-83 | the counts and issues over all live trades |
| Reconciliation.ReconciliationService.UpsertReports | backend/app/reconciliation/service.py:356-362 | the store becomes the merge of what it held and the new reports |
| Reconciliation.ReconciliationService.SyncReportsForTrade | backend/app/reconciliation/service.py:143-177 | the reports of a live trade's orders are fetched in order and merged at the end; any exception leaves the store as it was |
| Reconciliation.ReconciliationService.SyncAttentionCandidates | backend/app/reconciliation/service.py:179-197 | the first `limit` candidates are synced one after the other until one raises |
| Reconciliation.IndexHoldsLatest | backend/app/reconciliation/service.py:240-244 | the index has an entry for exactly the order ids with a report, and it is the one with the greatest (updated_at, report_id) |
| Reconciliation.AllFilledIsTheSet | backend/app/reconciliation/service.py:306-332 | "the set of normalised statuses is {filled}" means: there is a report and every one is filled |
| ReconciliationAgreement.TwoPathsAgree | backend/app/reconciliation/service.py:62-141 | with unique ids the summary and the candidate list agree: same trades compared, trades with issues are exactly the candidates that need attention, the others are matched |
| ReconciliationAgreement.IssuesMatchCandidateFields | backend/app/reconciliation/service.py:199-238 | the summary's issues of a trade, with their order ids, statuses and suggested actions, are exactly those its candidate's fields imply |
| ReconciliationAgreement.MatchedIsNeverClamped | backend/app/reconciliation/service.py:74-83 | whatever the ledger holds, the clamp at zero never acts and missing plus mismatch counts add up to the issue count |
| ReconciliationAgreement.AttentionIsAFilter | backend/app/reconciliation/service.py:134-141 | asking for attention only returns the full list filtered, in the same order |
| ReportSync.UpsertKeepsEveryOrder | backend/app/reconciliation/service.py:356-362 | an upsert loses no order id, leaves one report an order, prefers the fetched reports and, in a store with one report an order, keeps every report it has no news about |
| ReportSync.IndexAfterUpsert | backend/app/reconciliation/service.py:356-362 | after an upsert the report index reads, for every order, the report listed last among stored and fetched |
| ReportSync.NewestIsKeptIff | backend/app/reconciliation/service.py:356-362 | an upsert without news about an order keeps its newest report in the index if and only if that report is also the one listed last for the order |
| ReportSync.UpsertMayDropTheNewest | backend/app/reconciliation/service.py:356-362 | the other case is reached: after a file import that adds an older report of an order, a sync about another order drops the newer one |
| ReportSync.SyncClosesEveryGap | backend/app/reconciliation/service.py:179-197 | against a client that answers with the order it was asked about, no candidate misses a report after an unlimited sync |
| ReportSync.SyncAllKeepsOrders | backend/app/reconciliation/service.py:179-197 | whatever the client answers and wherever it raises, no order loses its last report |
| AttentionMeaning.AttentionIff | backend/app/reconciliation/service.py:85-141 | a trade needs attention if and only if an expected order has no report, or it is hedged or closed and a reported order is not filled, or it is failed or half done and everything reported is filled; a resume is suggested if and only if every order is reported filled, for a failed, half-done or closed trade |
| AttentionMeaning.IssueIff | backend/app/reconciliation/service.py:199-238 | the summary lists a missing-report or a mismatch issue for a live trade if and only if the trade has it in that sense |
| AttentionMeaning.StatusTextsMean | backend/app/reconciliation/service.py:322-332 | the status texts of the exchange: FILLED, PARTIALLY_FILLED, NEW, CANCELED and the others, in any case and between blanks |
| AttentionMeaning.ReportedOrMissing | backend/app/reconciliation/service.py:85-141 | every expected order is listed as reported, with the text of its latest report, or as missing, by whether the store has it |
| Listings.CandidatesInOrder | backend/app/reconciliation/service.py:134-141 | trades that need attention come first, then the latest activity, then the greater id |
| Listings.CandidateTimes | backend/app/reconciliation/service.py:85-141 | the times a candidate shows are those of the latest event of the trade and the latest update of its reported orders |
| ReconciliationAgreement.SummaryCounts | backend/app/reconciliation/service.py:62-84 | the summary counts its own issues, kind by kind |
| ReportSync.RequestsAreAskedFor | backend/app/reconciliation/service.py:259-286 | the orders asked about are exactly those a filled or partly filled leg names, as text or as a number, each leg and id once |
| ReportSync.RequestsCarryClientIds | backend/app/reconciliation/service.py:259-286 | every query carries the client id, if any, of an event that asks for its order |
| OrderTrail.ExpectedGrows | backend/app/reconciliation/service.py:246-257 | new events put new orders at the end of the expected ones |
| ReportSync.FetchedAreTheAnswers | backend/app/reconciliation/service.py:143-177 | report i of a sync is the answer to query i, field by field, for the trade and the leg asked about |
| ReportSync.SyncTradeEndsAs | backend/app/reconciliation/service.py:143-177 | a sync is refused for an unknown or paper trade, returns if and only if no query raises, and keeps the store as it was when it raises |
| ReportSync.UpsertKeepsPlaces | backend/app/reconciliation/service.py:356-362 | an upsert leaves the orders of the store in their places and puts new ones at the end |
| Recovery.RecoveryService.BuildLatestEventIndex | backend/app/recovery/service.py:213-222 | every trade's latest event, the first listed of several at the same time |
| Recovery.RecoveryService.BuildIntentActionIndex | backend/app/recovery/service.py:224-236 | the action of every trade's latest intent |
| Recovery.RecoveryService.ListPlans | backend/app/recovery/service.py:30-67 | one plan for every failed or half-done trade, automatic ones first, then paper before live, then by id |
| Recovery.RecoveryService.ExecuteActionablePlans | backend/app/recovery/service.py:69-106 | the chosen plans are recovered in order; a ValueError skips a trade, any other exception is passed on |
| RecoveryDrain.AutomaticPlans | backend/app/recovery/service.py:108-211 | a plan is automatic if and only if it names an action: always for a paper trade; for a live one exactly when it has orders, all reported, every latest report filled; a live trade is never resumed as a close |
| RecoveryDrain.PlanIsDirect | backend/app/recovery/service.py:30-67 | with unique ids the candidate a plan is built from is the trade's own, so the plan depends on that trade alone |
| RecoveryDrain.RecoveryDrains | backend/app/recovery/service.py:69-106 | one run executes every plan it takes and skips none; result i answers plan i with the status its action leads to; afterwards those plans are gone from every listing and every other plan is unchanged |
| RecoveryDrain.RecoveryCountsDown | backend/app/recovery/service.py:69-106 | the queue shrinks from the front by exactly min(limit, length): what is left is the tail of the list as it was |
| RecoveryDrain.RecoveryNeverStops | backend/app/recovery/service.py:69-106 | whatever the plans and the ledger, a run never ends early and every plan is either executed or skipped |
| RecoveryDrain.PlanIsAnswered | backend/app/recovery/service.py:69-106 | a plan is executed if and only if it names an action and its trade still needs recovery; any other is skipped and changes nothing |
| RecoveryDrain.RecoveredLeavesList | backend/app/recovery/service.py:30-67 | saving one recovered trade and logging about it takes its plan, and no other, out of the list |
| RecoveryDirection.PaperDirectionIff | backend/app/recovery/service.py:238-247 | a paper trade is resumed as a close if and only if its latest intent, the first listed of several at one time, was a close or the type of its latest event contains "close" |
| RecoveryDirection.PaperFailuresResumeOpen | backend/app/recovery/service.py:238-247 | in every paper run, whatever the clock does, a failed trade is planned as a resumed open, and carrying that out leaves it hedged |
| RecoveryDirection.MentionsCloseIsText | backend/app/recovery/service.py:238-247 | the test on an event is the search for "close" in the type the log stores |
| RecoveryDirection.PlanCarries | backend/app/recovery/service.py:108-211 | a plan carries the symbol, the type of the latest event and, for a live trade, the orders without a report and the texts of the others |
| Listings.RecoveryPlansInOrder | backend/app/recovery/service.py:30-67 | automatic plans come first, among equals paper trades, then the smaller id |
| Compensation.CompensationService.ListPlans | backend/app/compensation/service.py:58-92 | one plan for every live trade, most urgent first, then by id |
| Compensation.CompensationService.ExecuteDirectSafeAction | backend/app/compensation/service.py:173-195 | a sync is executed, fails on a ValueError and passes any other exception on |
| Compensation.CompensationService.ExecuteRebalanceAction | backend/app/compensation/service.py:197-260 | a rebalance is skipped without delta, price or quantity, executed, failed on a ValueError, or passes the exception on |
| Compensation.CompensationService.ExecuteRecoveryActions | backend/app/compensation/service.py:262-333 | the waiting plans are recovered in one call, and each gets the outcome the recovery summary gives its trade |
| Compensation.CompensationService.ExecuteSafeActions | backend/app/compensation/service.py:110-171 | syncs and rebalances in plan order, then recoveries, then one result a plan with the three counts |
| CompensationSafety.PlanIsTheVerdict | backend/app/compensation/service.py:349-438 | every branch of the priority chain is decided by the trade's own orders, reports, status and exposure; no recovery plan is left to the operator; actionable means sync, resume or rebalance |
| CompensationSafety.ActionablePlansAreSafe | backend/app/compensation/service.py:349-438 | an actionable plan is a sync, a resumed open or a rebalance, and a resume implies orders, all reported, all filled |
| CompensationSafety.RunAnswersPlans | backend/app/compensation/service.py:110-171 | when the run returns there is one result a plan, in the plans' order and about the plan's trade and action, and executed, skipped and failed add up to attempted |
| CompensationSafety.ListedPlansAgree | backend/app/compensation/service.py:58-92 | plans of one trade ask for the same action even when the ledger lists the trade twice |
| CompensationRuns.RebalanceNeedsHedged | backend/app/compensation/service.py:197-260 | a rebalance plan is only ever executed for a hedged trade, which it settles; a plan that is not executed leaves the ledger as it was |
| CompensationDrain.RebalanceDrainsIff | backend/app/compensation/service.py:197-260 | a listed rebalance plan is executed, and gone from the next listing, if and only if the trade is hedged, there is a quantity to order, every check before the exchange passes, there is an adapter and it answers with a report |
| CompensationDrain.ClosedDriftNeverDrains | backend/app/compensation/service.py:197-260 | two calls from an empty start reach the failing case: a live trade opened 100 against 50 and closed is listed for a rebalance, carrying it out fails with a price at hand, and it is listed again |
| CompensationDrain.RebalanceListedIff | backend/app/compensation/service.py:58-92 | an actionable rebalance is listed for a live trade if and only if that is the verdict on it |
| CompensationRuns.SyncLands | backend/app/compensation/service.py:173-195 | a sync of a live trade, against a client that answers with the orders asked about, is executed and leaves none of its orders unreported; no stored order is lost whatever the client does |
| CompensationRuns.ActionsKeepStoredOrders | backend/app/compensation/service.py:110-171 | no run of syncs and rebalances loses a stored order |
| CompensationRuns.OtherErrorsStop | backend/app/compensation/service.py:110-260 | a run stops if and only if a sync or a rebalance raises something other than a ValueError, which is passed on as it is |
| CompensationRuns.IdlePlansAreSkipped | backend/app/compensation/service.py:110-171 | a plan for nothing or for an operator is skipped |
| CompensationRuns.ResumesFollowTheReports | backend/app/compensation/service.py:262-333 | a run that returns executes a resume if and only if, after the syncs of the run, the latest report of every order of the trade is filled |
| CompensationRuns.ResumesAloneAreExecuted | backend/app/compensation/service.py:262-333 | in a batch without syncs every resume is executed |
| PlanMeaning.PlanSays | backend/app/compensation/service.py:349-438 | the plan of a live trade, with action, priority, reason and delta: sync when an order is unreported, resume a failed or half-done trade when all orders read filled, review it by hand otherwise, rebalance over the limit, else nothing |
| Listings.CompensationPlansInOrder | backend/app/compensation/service.py:58-92 | critical plans come before high ones before medium before low, then by id |
| CompensationSafety.SummaryCounts | backend/app/compensation/service.py:110-171 | each count of a summary is the number of its results that ended that way |
| Opportunity.EdgesAreExact | backend/app/opportunity/scorer.py:28-109 | net and projected edge need no rounding: they are exact differences and whole multiples of rounded values |
| Opportunity.FinalScoreIsExact | backend/app/opportunity/scorer.py:28-109 | the final score is the exact sum of its rounded parts cut off at zero |
| ScoreAccuracy.ScoreIsAccurate | backend/app/opportunity/scorer.py:28-109 | after all its roundings the score is within a stated tolerance of the unrounded formula, which is written out independently |
| EdgeMonotonicity.ScoreMonotone | backend/app/opportunity/scorer.py:28-109 | a higher funding rate never lowers gross, net or projected edge, yearly rate or score |
| EdgeMonotonicity.HigherRateNeverHurts | backend/app/risk/policy.py:34-88 | through every rounding and the payback division, a higher funding rate never gives a lower score, a stricter decision, a smaller position or lower confidence |
| EdgeMonotonicity.ThinEdgePassesIff | backend/app/risk/policy.py:35-44 | a thin-edge row gets past the edge test if and only if the projected edge is exactly zero, the expected hold is below one period, and gross edge and score are positive |
| EdgeMonotonicity.ThinEdgeIsBlocked | backend/app/risk/policy.py:35-44 | with an expected hold of a period or more every thin-edge row is blocked |
| EdgeMonotonicity.ZeroHoldAllowsThinEdge | backend/app/risk/policy.py:35-88 | with a hold of zero a concrete thin-edge row is allowed at full size under the default policy |
| EdgeMonotonicity.DecidedBy | backend/app/risk/policy.py:34-88 | scorer and policy together: allowed if and only if viable and every threshold is met; blocked if and only if not viable, or a threshold is missed and the score is too low for review |
| Risk.BetterRowLaxerPolicy | backend/app/risk/policy.py:34-88 | a row that is nowhere worse, under a policy that is nowhere stricter, is never decided worse |
| Decimals.RoundHalfEvenCorrect | backend/app/opportunity/scorer.py:33-62 | the rounding function is the only integer that satisfies the definition of round-half-to-even (section 4.3.1 of IEEE 754-2008) |
| ScoreAccuracy.RowIsAccurate | backend/app/opportunity/scorer.py:28-109 | gross edge, cost, basis and yearly rate are the plain figures to the nearest unit, and the payback is cost over gross edge, or zero without one |
| Risk.SizesByDecision | backend/app/risk/policy.py:34-88 | full size when allowed, 35% in review, nothing when blocked, with a confidence in proportion to the score between the bounds of the decision |
| Risk.ReasonsSay | backend/app/risk/policy.py:34-88 | every reason is given exactly under its own condition |
| Tuning.AdaptationService.Recommend | backend/app/adaptation/service.py:60-87 | the four packages around the current configuration, the automatic choice last |
| Tuning.AdaptationService.Apply | backend/app/adaptation/service.py:92-101 | an unconfirmed package is refused and nothing changes; a confirmed one becomes the state |
| TuningSafety.EveryReachableConfigIsInLimits | backend/app/adaptation/service.py:186-270 | from the default state, any sequence of applying recommended packages, stale ones included, keeps hold in [4,12], the basis limit >= 4, the payback limit >= 0.6, the allow score >= 50, the backtest score >= 0 and top_k in [1,3], and leaves fees, carry weights and notional alone |
| TuningSafety.PackagesAreOrdered | backend/app/adaptation/service.py:186-270 | within the limits, for every scored row, the conservative policy is never laxer and the aggressive never stricter than the current one, and the balanced one decides the same |
| TuningSafety.ConservativeOrderIff | backend/app/adaptation/service.py:186-270 | the thresholds are ordered if and only if the current ones respect the floors the packages clamp to |
| TuningSafety.FiltersNest | backend/app/adaptation/service.py:206-260 | a row the conservative backtest takes passes the current one, and a row the current one takes passes the aggressive one |
| TuningSafety.TunedPoliciesStayMonotone | backend/app/adaptation/service.py:92-101 | in every reachable configuration and for every snapshot a higher funding rate never hurts and a thin-edge row is blocked |
| TuningSafety.TunedBacktestsNeverLose | backend/app/adaptation/service.py:122-156 | no reachable configuration backtests to a negative total |
| TuningSafety.BalancedIsChosenIff | backend/app/adaptation/service.py:272-292 | the automatic choice is balanced exactly with five samples or more and no weak metric |
| TuningSafety.AutoNeverLoosens | backend/app/adaptation/service.py:60-87 | the automatic package never loosens the risk policy |
| TuningSafety.DrawdownPercentile | backend/app/adaptation/service.py:158-184 | the drawdown percentile is the sorted drawdown 95% of the way to the last one, the place rounded down, to the nearest unit |
| TuningSafety.MetricsSay | backend/app/adaptation/service.py:158-184 | win rate, mean edges, mean shortfall and slow rate of a sample list, each to the nearest unit |
| TuningSafety.ReasonsNameTheWeak | backend/app/adaptation/service.py:272-292 | each weakness is named if and only if its metric is weak |
| TuningSafety.PackagesAre | backend/app/adaptation/service.py:60-87 | the packages in their order; the automatic one has the configuration of the one it is derived from |
| TuningSafety.BalancedSettles | backend/app/adaptation/service.py:222-238 | the balanced package only lengthens a short hold to six periods |
| TuningSafety.TightenedFromDefault | backend/app/adaptation/service.py:186-220 | the configuration after n conservative packages from the default, in closed form |
| TuningSafety.LoosenedFromDefault | backend/app/adaptation/service.py:240-270 | the configuration after n aggressive packages from the default, in closed form |
| Backtest.BacktestEngine.SelectRows | backend/app/backtest/engine.py:79-86 | walking down the ranking and stopping at top_k selects the first top_k passing rows |
| Backtest.BacktestEngine.Run | backend/app/backtest/engine.py:63-101 | the nested loops collect the trades of every period and their totals |
| Backtest.RankingSorts | backend/app/strategy/funding_arb.py:19-21 | every snapshot is scored once, and exactly those rows come back in descending score order |
| Backtest.RankingKeepsTies | backend/app/strategy/funding_arb.py:19-21 | rows of one score stay in the order of their snapshots |
| BacktestLaws.TotalIsNonNegative | backend/app/backtest/engine.py:63-142 | the estimated total is never negative |
| BacktestLaws.TradesNeverLose | backend/app/backtest/engine.py:118-142 | no selected trade has a negative estimate |
| BacktestLaws.SelectionIsTheBest | backend/app/backtest/engine.py:79-86 | a period takes as many rows as wanted or as pass, best first, and no passing row left out beats one that was taken |
| BacktestLaws.LooserExtendsPeriod | backend/app/backtest/engine.py:79-86 | lowering the score limit or raising top_k only appends to a period's trade list |
| BacktestLaws.LooserNeverLowersTotal | backend/app/backtest/engine.py:63-101 | lowering the score limit or raising top_k never lowers the estimated total nor loses a trade |
| BacktestLaws.EveryTradeIsMeant | backend/app/backtest/engine.py:63-142 | every trade of a backtest is of a scored snapshot of its period, meets every limit, and its estimate is its edge on the share of the notional the policy lets through, to the nearest unit |
| BacktestLaws.TotalsAddUp | backend/app/backtest/engine.py:63-116 | total and means of a result are the sum and the means over its own trades, each to the nearest unit |
| Scheduler.SchedulerService.OpenPositions | backend/app/scheduler/service.py:65-107 | the open loop with its running counters and its three ways to stop |
| Scheduler.SchedulerService.ClosePositions | backend/app/scheduler/service.py:109-140 | the close loop over the positions listed before any was opened |
| Scheduler.SchedulerService.RunCycle | backend/app/scheduler/service.py:32-156 | a cycle opens, then closes, and counts what it did |
| SchedulerCaps.CycleStaysWithinCaps | backend/app/scheduler/service.py:32-142 | whatever executions do, after a cycle the active positions are no more than before or within the cap, and their notional no more than before or within the cap plus one ticket |
| SchedulerCaps.CapsCountPositions | backend/app/scheduler/service.py:58-63 | what the caps are about: the number of trades that are open or hedged, and the sum of their larger legs |
| SchedulerCaps.CapsHoldOverCycles | backend/app/scheduler/service.py:32-142 | the same over any number of cycles, against the initial positions |
| SchedulerSignals.OpensTheBestAllowed | backend/app/scheduler/service.py:65-107 | a cycle tries the allowed rows from the top of the ranking, one action each, and stops early only at a cap or when it may not open |
| SchedulerSignals.OpeningTallies | backend/app/scheduler/service.py:65-107 | the counters say what the actions say: one position and a thousand of notional for each one executed |
| SchedulerSignals.ClosesTheTurned | backend/app/scheduler/service.py:109-140 | a cycle sends a close for exactly the hedged positions it may operate whose symbol, in its last row, has a negative funding rate or net edge, in ledger order |
| SchedulerSignals.OpenedPosition | backend/app/scheduler/service.py:83-97 | a position the cycle opened holds a thousand on each leg, in the mode of the cycle, without exposure |
| SchedulerSignals.ClosedPosition | backend/app/scheduler/service.py:109-140 | a live position that the cycle closed was closed on the exchange, a paper position was not |
| SafeRetry.BinanceLiveExecutionAdapter.SubmitWithSafeRetry | backend/app/execution/adapters.py:118-134 | submit, look up on an HTTP error, submit once more only when the order is reported missing |
| SafeRetry.BinanceLiveExecutionAdapter.Hedge | backend/app/execution/adapters.py:14-88 | spot first, then perp, nothing further after the first leg that raises |
| SafeRetry.BinanceLiveExecutionAdapter.Rebalance | backend/app/execution/adapters.py:90-116 | one perp order through the safe retry |
| SafeRetry.AtMostOneOrder | backend/app/execution/adapters.py:118-134 | with honest lookups one call places at most one order whatever fails before or after acceptance, and an answer means an order with the id is there |
| SafeRetry.ExactlyOneWhenItReturns | backend/app/execution/adapters.py:118-134 | under a fresh id a normal return means exactly one order |
| SafeRetry.TwoOrdersIff | backend/app/execution/adapters.py:118-134 | whatever the exchange does, two orders are placed if and only if it takes the first one while the client sees an HTTP error, the lookup denies it and it takes the second one |
| SafeRetry.DenialDoublesTheOrder | backend/app/execution/adapters.py:118-157 | a concrete denied lookup that doubles an order |
| SafeRetry.ReturnsWithoutOrderIff | backend/app/execution/adapters.py:90-134 | under a used id (ids are fixed per trade and action) a call returns without placing anything if and only if the submission failed untaken and the lookup found the old order |
| SafeRetry.PerpOnlyAfterSpot | backend/app/execution/adapters.py:14-88 | under fresh ids an open or close places nothing, the spot order, or the spot and then the perp order, and both when it returns |
| SafeRetry.LegsTellTheAnswers | backend/app/execution/adapters.py:14-146 | a returned open or close reports spot and then perp, each with the order id and the status the exchange gave: failed for rejected, expired or canceled, in any case |
| SafeRetry.RebalanceTellsTheAnswer | backend/app/execution/adapters.py:90-116 | the same for the one leg of a rebalance |
| SafeRetry.RefusedBeforeSending | backend/app/execution/adapters.py:14-88 | a request without the quantities its orders need is refused before anything is sent |
| SafeRetry.RebalanceRefusedIff | backend/app/execution/adapters.py:90-116 | the same for a rebalance without a positive quantity |
| SafeRetry.FailuresArePassedOn | backend/app/execution/adapters.py:118-134 | which failure the caller sees: the one of the submission, unless the lookup broke in another way or the second submission decided |
| SafeRetry.OrderIdsDiffer | backend/app/execution/adapters.py:14-116 | the five orders of a trade have five different client ids |
| Backfill.BackfillMany | backend/app/persistence/migration.py:118-146 | the store becomes old ++ new items; imported plus skipped is the number of source records |
| Backfill.NewItemsTakeFirsts | backend/app/persistence/migration.py:118-146 | the imported items are exactly the first occurrences of forms the store did not have, in source order |
| Backfill.SecondRunImportsNothing | backend/app/persistence/migration.py:118-146 | a second run over the source or any part of it imports nothing, and every form of the source is in the store |

## Left out

- Network and storage: HTTP clients, request signing, API routes, JSON files and MySQL; stores are in-memory sequences.
- The frontend, authentication, credentials, accounts, workers, monitors, metrics and read-only console services: display or easy bookkeeping.
- Concurrent calls: every call is one atomic step, so interleavings inside a save are not modelled.
- Binary floating point: numbers are exact decimals, and `int((n - 1) * 0.95)` is the exact floor.
- The safety service beyond its verdict, which enters `execute` and the scheduler as a boolean.
- The orchestrator's adapter answers from an arbitrary script; the exchange adapter of `SafeRetry` is modelled on its own and not plugged into it.
- Pydantic validation when records are read back from a store.
- Severity, summary and tags of audit events, payload fields nobody reads back, and the `updated_at` stamp of the breaker state.
- Texts: plan reasons and summaries, package titles, ISO time formatting, and upper- and lower-casing or stripping of characters beyond ASCII letters and blanks.
- Intent actions in imported events other than the three the orchestrator writes.
- Opportunity scores: bid and ask prices are copied through and left out; score breakdown fields that repeat other fields are left out.
- The scheduler's test for a risk tag `blocked`, which the scorer never gives.
- Scheduler counters that are always zero (`actions_skipped`), and the reasons attached to its actions.
- Learning-sample import and trade-journal extraction; the comparison of packages over a dataset beyond its single runs.
- The hedge overview and the execution of one selected hedge plan: simpler forms of the modelled run.
- Backfill of backtest datasets, whose saver replaces by id, and of the single tuning state: a comparison and an overwrite.
- `ReportSync.SyncClosesEveryGap`: stated for a client that answers each query with the order it was asked about; other clients are covered by `ReportSync.SyncAllKeepsOrders`.
- `Audit.AuditEventService.RecordEvent`: the source is always the orchestrator, and severity, summary and tags are not part of an event.
- `Audit.AuditEventService.ListEvents`: always asks for the orchestrator's events, as every planner does; the severity filter is not modelled.
- `Orchestration.ExecutionOrchestrator.ExecuteOpen`: the live stub event of lines 349-362 is not modelled, because live intents never reach the paper open.
- `Backtest.BacktestEngine.Run`: periods carry no observation time and configurations no strategy id; there is one strategy.
- `SafeRetry.BinanceLiveExecutionAdapter.Hedge`: a leg report keeps status and order id of the exchange's payload and none of its other fields.
- `SafeRetry.BinanceLiveExecutionAdapter.Rebalance`: a leg report keeps status and order id of the exchange's payload and none of its other fields.
- `BreakerHistory.PollMattersIff`: about one more poll at the end of a history; polls further back are covered by `BreakerHistory.IdlePollIsInvisible` and, under a forward clock, `BreakerHistory.PollsChangeNothing`.
- Ledgers that list a trade twice are left out of the recovery, hedge-drain, compensation and reconciliation-agreement theorems; runs never produce them.
