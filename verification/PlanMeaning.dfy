/** What a compensation plan says, read off the ledger and the texts the exchange reported. */
module PlanMeaning {
  import opened Options
  import opened Ledger
  import opened Audit
  import opened Execution
  import opened ExchangeReports
  import opened Reconciliation
  import opened AttentionMeaning
  import Recovery
  import RecoveryDrain
  import Hedge
  import Listings
  import opened Compensation
  import opened CompensationSafety

  predicate Tracked(status: TradeStatus)
  {
    status in {Hedged, RecoveryPending, Failed, Closing, Closed}
  }

  predicate ToRecover(status: TradeStatus)
  {
    status in {Failed, RecoveryPending}
  }

  /** The trade has orders and the latest report of each of them reads filled. */
  predicate AllFilledOnExchange(expected: seq<string>, index: ReportIndex)
  {
    expected != [] && forall id :: id in expected ==> ReportedFilled(index, id)
  }

  predicate OverLimit(r: TradeLedgerRecord, limitBps: real)
  {
    r.status in {Hedged, Closed, Cancelled} && Hedge.PlanFor(r, limitBps).exposureBps > limitBps
  }

  /** The five cases of a plan, each with its priority and its reason. */
  predicate Says(plan: CompensationPlan, r: TradeLedgerRecord, unreported: bool, settled: bool, over: bool)
  {
    if unreported then
      plan.action == SyncReports && plan.priority == Critical && plan.actionable && plan.reason == MissingReports
    else if ToRecover(r.status) && settled then
      && plan.action == ResumeTrade(ResumeOpen) && plan.priority == Critical && plan.actionable
      && plan.reason == RecoveryActionable
    else if ToRecover(r.status) then
      && plan.action == CompensationAction.ManualReview && plan.priority == High && !plan.actionable
      && plan.reason == AmbiguousRecovery
    else if over then
      && plan.action == RebalanceTrade && plan.priority == Medium && plan.actionable && plan.reason == ExposureDrift
      && -0.00005 <= plan.suggestedDelta - r.netExposure <= 0.00005
    else plan.action == Nothing && plan.priority == Low && !plan.actionable && plan.reason == NothingRequired
  }

  /** The plan of a live trade: missing reports are synced first; a failed or half-done trade
      is resumed when all its orders read filled and reviewed by hand when not; exposure over
      the limit is rebalanced; and nothing else is done. */
  lemma PlanSays(ledger: seq<TradeLedgerRecord>, log: seq<AuditEventRecord>, reports: seq<ExchangeOrderReport>,
                 symbol: Option<string>, limitBps: real, r: TradeLedgerRecord)
    requires UniqueIds(ledger) && r in ledger && r.mode == Live && (symbol == None || symbol == Some(r.symbol))
    ensures var plan := PlanOf(r, r, Candidates(ledger, log, reports, symbol, false),
                               Recovery.Plans(ledger, log, reports, symbol, false), limitBps);
            var expected, index := ExpectedOrders(Timeline(log), r.tradeId), LatestByOrder(reports);
            && plan.tradeId == r.tradeId && plan.symbol == r.symbol && plan.status == r.status
            && (plan.action != RebalanceTrade ==> plan.suggestedDelta == 0.0)
            && Says(plan, r, Tracked(r.status) && SomeUnreported(expected, index), AllFilledOnExchange(expected, index),
                    OverLimit(r, limitBps))
  {
    hide Timeline, LatestByOrder, Candidates, CandidateFor, Recovery.Plans, RecoveryDrain.DirectPlan, Hedge.PlanFor,
         ExpectedOrders, ReportedFilled;
    var events, index := Timeline(log), LatestByOrder(reports);
    CandidateOfSymbol(ledger, log, reports, symbol, r);
    RecoveryOfTrade(ledger, log, reports, symbol, r);
    MissingMeans(r, events, index);
    Listings.HedgePlanMeans(r, limitBps);
    if ToRecover(r.status) {
      RecoveryDrain.AutomaticPlans(r, events, index);
      FilledIsReported(ExpectedOrders(events, r.tradeId), index);
      match RecoveryDrain.DirectPlan(r, events, index).recommended {
        case ManualReview =>
        case Resume(action) => assert action == ResumeOpen;
      }
    }
  }

  lemma FilledIsReported(expected: seq<string>, index: ReportIndex)
    ensures AllFilledOnExchange(expected, index)
       <==> && expected != []
            && forall id :: id in expected ==> id in index && Normalize(index[id].status) == NormalFilled
  {
    hide Normalize, Reads;
    forall id | id in expected && id in index
      ensures Normalize(index[id].status) == NormalFilled <==> ReportedFilled(index, id)
    {
      StatusTextsMean(index[id].status);
    }
  }
}
