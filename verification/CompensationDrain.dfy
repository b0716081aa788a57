/** When a compensation plan leaves the list: a rebalance is executed, and gone from the next
    listing, under one exact condition on the state before it runs. */
module CompensationDrain {
  import opened Options
  import opened Lists
  import opened Decimals
  import opened Ledger
  import opened Audit
  import opened CircuitBreaker
  import opened Execution
  import opened ExecutionRuns
  import opened ExchangeReports
  import opened Reconciliation
  import Recovery
  import Hedge
  import opened HedgeDrain
  import opened Compensation
  import opened CompensationSafety
  import opened CompensationRuns

  /** What it takes for a rebalance plan of a live trade to be executed, before it is tried. */
  predicate WillExecute(cfg: ExecutionConfig, run: CompensationRun, plan: CompensationPlan, r: TradeLedgerRecord,
                        now: Time)
  {
    && r.status == Hedged
    && RebalanceQuantity(run.stored, plan).Some?
    && ExchangeAnswers(cfg, run.world, r.symbol, plan.suggestedDelta, now)
  }

  predicate WasExecuted(run: CompensationRun, tradeId: string)
  {
    run.stopped.None? && tradeId in run.items && run.items[tradeId].outcome == Hedge.Executed
  }

  lemma RebalanceExecutedIff(cfg: ExecutionConfig, uuid: Ids, run: CompensationRun, plan: CompensationPlan,
                             r: TradeLedgerRecord, limitBps: real, now: Time)
    requires run.stopped.None? && Find(run.world.ledger, r.tradeId) == Some(r) && r.mode == Live
    requires Hedge.WantsRebalance(Hedge.PlanFor(r, limitBps)) && plan.tradeId == r.tradeId
    ensures var next := RunRebalance(cfg, uuid, run, plan, now);
            && (WasExecuted(next, r.tradeId) <==> WillExecute(cfg, run, plan, r, now))
            && next.stored == run.stored
  {
    assert r.status != Open;
    hide Rebalance, Hedge.PlanFor, Hedge.PerpQuantity, ExchangeAnswers;
    var quantity := RebalanceQuantity(run.stored, plan);
    if quantity.Some? {
      RebalanceReturnsIff(cfg, uuid, run.world, r, plan.suggestedDelta, quantity.value, COMPENSATION_NOTE, now);
    }
  }

  // ---- the plan and its next listing -----------------------------------------------------------

  predicate IsRebalanceOf(plan: CompensationPlan, tradeId: string)
  {
    plan.tradeId == tradeId && plan.action == RebalanceTrade
  }

  predicate RebalanceListed(ledger: seq<TradeLedgerRecord>, log: seq<AuditEventRecord>,
                            reports: seq<ExchangeOrderReport>, symbol: Option<string>, limitBps: real,
                            tradeId: string)
  {
    exists p :: p in Plans(ledger, log, reports, symbol, true, limitBps) && IsRebalanceOf(p, tradeId)
  }

  /** An actionable rebalance is listed for a live trade exactly when that is the verdict on it. */
  lemma RebalanceListedIff(ledger: seq<TradeLedgerRecord>, log: seq<AuditEventRecord>,
                           reports: seq<ExchangeOrderReport>, symbol: Option<string>, limitBps: real,
                           r: TradeLedgerRecord)
    requires UniqueIds(ledger) && r in ledger && Selected(r, Some(Live), None, None, symbol)
    ensures RebalanceListed(ledger, log, reports, symbol, limitBps, r.tradeId)
       <==> Verdict(r, Timeline(log), LatestByOrder(reports), limitBps) == RebalanceTrade
  {
    hide Timeline, LatestByOrder, Candidates, Recovery.Plans, PlanOf, Verdict, Plans, Find;
    PlanIsTheVerdict(ledger, log, reports, symbol, limitBps, r);
    FindUnique(ledger, r);
    if p :| p in Plans(ledger, log, reports, symbol, true, limitBps) && IsRebalanceOf(p, r.tradeId) {
      var source := PlanSource(ledger, log, reports, symbol, true, limitBps, p);
    }
    if Verdict(r, Timeline(log), LatestByOrder(reports), limitBps) == RebalanceTrade {
      ActionablePlanListed(ledger, log, reports, symbol, limitBps, r);
    }
  }

  lemma ActionablePlanListed(ledger: seq<TradeLedgerRecord>, log: seq<AuditEventRecord>,
                             reports: seq<ExchangeOrderReport>, symbol: Option<string>, limitBps: real,
                             r: TradeLedgerRecord)
    requires UniqueIds(ledger) && r in ledger && Selected(r, Some(Live), None, None, symbol)
    ensures var plan := PlanOf(r, r, Candidates(ledger, log, reports, symbol, false),
                               Recovery.Plans(ledger, log, reports, symbol, false), limitBps);
            plan.actionable ==> plan in Plans(ledger, log, reports, symbol, true, limitBps)
  {
    hide Candidates, Recovery.Plans, PlanOf;
    var f := ListedPlan(ledger, Candidates(ledger, log, reports, symbol, false),
                        Recovery.Plans(ledger, log, reports, symbol, false), symbol, true, limitBps);
    FindUnique(ledger, r);
    var i :| 0 <= i < |ledger| && ledger[i] == r;
    if f(r).Some? {
      GatherContains(ledger, f, i);
    }
    CompensationOrder();
    SortSorts(Gather(ledger, f), CompensationLe);
  }

  lemma SettledVerdict(r: TradeLedgerRecord, events: seq<AuditEventRecord>, index: ReportIndex, limitBps: real)
    requires Settled(r, limitBps)
    ensures Verdict(r, events, index, limitBps) != RebalanceTrade
  {
    hide Hedge.ExposureBps;
    SettledIsNoCandidate(r, limitBps);
  }

  /** A rebalance, executed or not, leaves the ids unique and the trade's expected orders alone. */
  lemma RebalanceKeepsOrders(cfg: ExecutionConfig, uuid: Ids, run: CompensationRun, plan: CompensationPlan, now: Time)
    ensures var next := RunRebalance(cfg, uuid, run, plan, now);
            && (UniqueIds(run.world.ledger) ==> UniqueIds(next.world.ledger))
            && ExpectedOrders(Timeline(next.world.log), plan.tradeId)
               == ExpectedOrders(Timeline(run.world.log), plan.tradeId)
  {
    hide Rebalance, Hedge.PerpQuantity, Timeline, ExpectedOrders, CarriesOrder, UniqueIds;
    var quantity := RebalanceQuantity(run.stored, plan);
    if quantity.Some? {
      var more := RebalanceIsLocal(cfg, uuid, run.world, plan.tradeId, plan.suggestedDelta, quantity.value,
                                   COMPENSATION_NOTE, now);
      QuietEventsKeepOrders(run.world.log, more, plan.tradeId);
    }
  }

  /** What a run of one rebalance plan leaves of its trade: settled when executed, untouched,
      with the same verdict, when not. */
  lemma RebalanceLeaves(cfg: ExecutionConfig, uuid: Ids, run: CompensationRun, plan: CompensationPlan,
                        r: TradeLedgerRecord, limitBps: real, now: Time)
    requires run.stopped.None? && limitBps >= 0.0 && Find(run.world.ledger, r.tradeId) == Some(r) && r.mode == Live
    requires Hedge.WantsRebalance(Hedge.PlanFor(r, limitBps)) && plan.tradeId == r.tradeId
    requires plan.suggestedDelta == Hedge.PlanFor(r, limitBps).suggestedDelta
    ensures var next := RunRebalance(cfg, uuid, run, plan, now);
            && Find(next.world.ledger, r.tradeId).Some?
            && (WillExecute(cfg, run, plan, r, now) ==> Settled(Find(next.world.ledger, r.tradeId).value, limitBps))
            && (!WillExecute(cfg, run, plan, r, now) ==>
                  && next.world.ledger == run.world.ledger
                  && Verdict(r, Timeline(next.world.log), LatestByOrder(next.stored), limitBps)
                     == Verdict(r, Timeline(run.world.log), LatestByOrder(run.stored), limitBps))
  {
    RebalanceExecutedIff(cfg, uuid, run, plan, r, limitBps, now);
    RebalanceKeepsOrders(cfg, uuid, run, plan, now);
    hide Rebalance, Hedge.PerpQuantity, Settled, Timeline, LatestByOrder, Hedge.PlanFor, ExpectedOrders, WillExecute;
    var quantity := RebalanceQuantity(run.stored, plan);
    if quantity.Some? {
      RebalanceSettles(cfg, uuid, run.world, r, limitBps, quantity.value, now);
    }
  }

  /** A listed rebalance plan is executed if and only if the trade is hedged, there is a
      quantity to order, every check before the exchange passes and the exchange answers; and
      it is gone from the next listing exactly then. */
  lemma RebalanceDrainsIff(cfg: ExecutionConfig, uuid: Ids, run: CompensationRun, plan: CompensationPlan,
                           r: TradeLedgerRecord, symbol: Option<string>, limitBps: real, now: Time)
    requires run.stopped.None? && limitBps >= 0.0 && UniqueIds(run.world.ledger)
    requires Find(run.world.ledger, plan.tradeId) == Some(r) && plan.action == RebalanceTrade
    requires plan in Plans(run.world.ledger, run.world.log, run.stored, symbol, true, limitBps)
    ensures var next := RunRebalance(cfg, uuid, run, plan, now);
            && (WasExecuted(next, plan.tradeId) <==> WillExecute(cfg, run, plan, r, now))
            && (RebalanceListed(next.world.ledger, next.world.log, next.stored, symbol, limitBps, plan.tradeId)
                <==> !WillExecute(cfg, run, plan, r, now))
  {
    hide Timeline, LatestByOrder, Candidates, Recovery.Plans, PlanOf, Plans, Find, UniqueIds, WillExecute,
         Hedge.PlanFor, RunRebalance, RebalanceListed, Settled, ExpectedOrders, WasExecuted;
    var source := PlanSource(run.world.ledger, run.world.log, run.stored, symbol, true, limitBps, plan);
    PlanIsTheVerdict(run.world.ledger, run.world.log, run.stored, symbol, limitBps, r);
    FindBelongs(run.world.ledger, plan.tradeId);
    RebalanceExecutedIff(cfg, uuid, run, plan, r, limitBps, now);
    RebalanceLeaves(cfg, uuid, run, plan, r, limitBps, now);
    RebalanceKeepsOrders(cfg, uuid, run, plan, now);
    var next := RunRebalance(cfg, uuid, run, plan, now);
    if WillExecute(cfg, run, plan, r, now) {
      SettledIsNotListed(next.world.ledger, next.world.log, next.stored, symbol, limitBps, plan.tradeId);
    } else {
      RebalanceListedIff(next.world.ledger, next.world.log, next.stored, symbol, limitBps, r);
    }
  }

  lemma SettledIsNotListed(ledger: seq<TradeLedgerRecord>, log: seq<AuditEventRecord>,
                           reports: seq<ExchangeOrderReport>, symbol: Option<string>, limitBps: real,
                           tradeId: string)
    requires UniqueIds(ledger) && Find(ledger, tradeId).Some? && Settled(Find(ledger, tradeId).value, limitBps)
    ensures !RebalanceListed(ledger, log, reports, symbol, limitBps, tradeId)
  {
    hide Timeline, LatestByOrder, Candidates, Recovery.Plans, PlanOf, Plans, Find, Verdict, Settled;
    forall p | p in Plans(ledger, log, reports, symbol, true, limitBps) && p.tradeId == tradeId
      ensures p.action != RebalanceTrade
    {
      var r := PlanSource(ledger, log, reports, symbol, true, limitBps, p);
      PlanIsTheVerdict(ledger, log, reports, symbol, limitBps, r);
      SettledVerdict(r, Timeline(log), LatestByOrder(reports), limitBps);
    }
  }

  // ---- the case that never leaves, reached from an empty start --------------------------------------

  function DriftIntent(tradeId: string, symbol: string, action: Action): ExecutionIntentRequest
  {
    ExecutionIntentRequest(tradeId, Live, "funding-arb", symbol, action, 100.0, 50.0, Some(1.0), Some(1.0), 0.0, None,
                           None, false)
  }

  /** Live execution without limits and without a breaker, on an exchange that has only taken
      the orders so far. */
  predicate Unlimited(cfg: ExecutionConfig)
  {
    && cfg.liveExecutionEnabled && cfg.liveSymbolAllowlist == {} && cfg.maxLiveNotional.None?
    && cfg.hasAdapter && !cfg.hasBreaker
  }

  predicate OnlySubmitted(legs: seq<LegReport>)
  {
    forall leg :: leg in legs ==> leg.status == Submitted
  }

  function DriftRun(tradeId: string, symbol: string, opened': Time, closed: Time): seq<Call>
  {
    [ExecuteCall(DriftIntent(tradeId, symbol, OpenHedge), opened', true),
     ExecuteCall(DriftIntent(tradeId, symbol, CloseHedge), closed, true)]
  }

  /** Without a breaker a live call is its body and nothing else. */
  lemma LiveCallIsBody(cfg: ExecutionConfig, uuid: Ids, w: World, request: ExecutionIntentRequest, now: Time)
    requires Unlimited(cfg) && request.mode == Live && !IsReplay(w, request)
    ensures Execute(cfg, uuid, w, request, now, true).world
         == Land(uuid, w, request.tradeId, Load(cfg.breaker, w.journal), LiveBody(cfg, w, request, now))
  {
    hide LiveBody, Land;
  }

  lemma {:induction false} SubmittedLegsAreQuiet(phase: LegPhase, tradeId: string, legs: seq<LegReport>, now: Time)
    requires OnlySubmitted(legs)
    ensures forall d :: d in LegDrafts(phase, tradeId, legs, now) ==> d.kind.LiveLeg? && d.kind.status == Submitted
    ensures LiveStatus(legs, Hedged) == Hedged && LiveStatus(legs, Closed) == Closed
  {
    if legs != [] {
      SubmittedLegsAreQuiet(phase, tradeId, legs[..|legs| - 1], now);
    }
  }

  lemma QuietDrafts(uuid: Ids, log: seq<AuditEventRecord>, drafts: seq<Draft>)
    requires forall e :: e in log ==> !CarriesOrder(e)
    requires forall d :: d in drafts ==> (d.kind.LiveLeg? ==> d.kind.status == Submitted)
    ensures forall e :: e in Emit(uuid, log, drafts) ==> !CarriesOrder(e)
  {
    forall e | e in Stamped(uuid, |log|, drafts) ensures !CarriesOrder(e) {
      var i :| 0 <= i < |drafts| && Stamped(uuid, |log|, drafts)[i] == e;
      assert drafts[i] in drafts;
    }
  }

  function DriftOpened(tradeId: string, symbol: string, at: Time): TradeLedgerRecord
  {
    TradeLedgerRecord(tradeId, Live, "funding-arb", symbol, Hedged, at, None, 50.0, 100.0, 50.0, 0.0, None)
  }

  lemma DriftOpens(cfg: ExecutionConfig, uuid: Ids, legs: seq<LegReport>, later: seq<AdapterAnswer>, tradeId: string,
                   symbol: string, now: Time)
    requires Unlimited(cfg) && OnlySubmitted(legs)
    ensures var request := DriftIntent(tradeId, symbol, OpenHedge);
            var w := Execute(cfg, uuid, Start([Answers(legs)] + later), request, now, true).world;
            && w.ledger == [DriftOpened(tradeId, symbol, now)] && w.script == later
            && forall e :: e in w.log ==> !CarriesOrder(e)
  {
    var request := DriftIntent(tradeId, symbol, OpenHedge);
    var w := Start([Answers(legs)] + later);
    assert w.script[0] == Answers(legs) && w.script[1..] == later;
    LiveCallIsBody(cfg, uuid, w, request, now);
    SubmittedLegsAreQuiet(OpenPhase, tradeId, legs, now);
    Round4Grid(50.0);
    assert 50.0 * 10000.0 == 500000 as real;
    hide Execute, Round4, CarriesOrder, LegDrafts, AnyLeg, LiveStatus, Emit;
    QuietDrafts(uuid, [], LiveOpen(w, request, now).drafts);
  }

  lemma DriftCloses(cfg: ExecutionConfig, uuid: Ids, w: World, legs: seq<LegReport>, tradeId: string, symbol: string,
                    opened': Time, now: Time)
    requires Unlimited(cfg) && OnlySubmitted(legs)
    requires w.ledger == [DriftOpened(tradeId, symbol, opened')] && w.script == [Answers(legs)]
    requires forall e :: e in w.log ==> !CarriesOrder(e)
    ensures var after := Execute(cfg, uuid, w, DriftIntent(tradeId, symbol, CloseHedge), now, true).world;
            && after.ledger == [DriftOpened(tradeId, symbol, opened').(
                                  status := Closed, closedAt := Some(now + (|legs| + 1) * MILLISECOND))]
            && forall e :: e in after.log ==> !CarriesOrder(e)
  {
    var request := DriftIntent(tradeId, symbol, CloseHedge);
    LiveCallIsBody(cfg, uuid, w, request, now);
    SubmittedLegsAreQuiet(ClosePhase, tradeId, legs, now);
    hide Execute, CarriesOrder, LegDrafts, AnyLeg, LiveStatus, Emit;
    QuietDrafts(uuid, w.log, LiveClose(w, request, now).drafts);
  }

  lemma NoCarriersNoOrders(log: seq<AuditEventRecord>, tradeId: string)
    requires forall e :: e in log ==> !CarriesOrder(e)
    ensures ExpectedOrders(Timeline(log), tradeId) == []
  {
    hide CarriesOrder;
    assert [] + log == log;
    QuietEventsKeepOrders([], log, tradeId);
  }

  lemma DriftWantsRebalance(r: TradeLedgerRecord)
    requires r.status == Closed && r.netExposure == 50.0 && r.spotNotional == 100.0 && r.perpNotional == 50.0
    ensures Hedge.WantsRebalance(Hedge.PlanFor(r, 50.0)) && Hedge.PlanFor(r, 50.0).suggestedDelta == 50.0
  {
    Round4Grid(50.0);
    assert 50.0 * 10000.0 == 500000 as real;
    assert Abs(r.netExposure) / Max(Max(r.spotNotional, r.perpNotional), 1.0) * 10000.0 == 5000.0;
    RoundHalfEvenCorrect(500000.0, 500000);
  }

  predicate DriftLeft(w: World, tradeId: string)
  {
    && |w.ledger| == 1 && w.ledger[0].tradeId == tradeId && w.ledger[0].mode == Live && w.ledger[0].status == Closed
    && w.ledger[0].spotNotional == 100.0 && w.ledger[0].perpNotional == 50.0 && w.ledger[0].netExposure == 50.0
    && forall e :: e in w.log ==> !CarriesOrder(e)
  }

  lemma DriftIsReached(cfg: ExecutionConfig, uuid: Ids, legs: seq<LegReport>, tradeId: string, symbol: string,
                       opened': Time, closed: Time)
    requires Unlimited(cfg) && OnlySubmitted(legs)
    ensures var calls := DriftRun(tradeId, symbol, opened', closed);
            DriftLeft(Run(cfg, uuid, Start([Answers(legs), Answers(legs)]), calls), tradeId)
  {
    var start := Start([Answers(legs), Answers(legs)]);
    assert [Answers(legs), Answers(legs)] == [Answers(legs)] + [Answers(legs)];
    var calls := DriftRun(tradeId, symbol, opened', closed);
    RunOfTwo(cfg, uuid, start, calls[0], calls[1]);
    hide Run, Execute, CarriesOrder, Start;
    DriftOpens(cfg, uuid, legs, [Answers(legs)], tradeId, symbol, opened');
    DriftCloses(cfg, uuid, Step(cfg, uuid, start, calls[0]), legs, tradeId, symbol, opened', closed);
  }

  lemma RunOfTwo(cfg: ExecutionConfig, uuid: Ids, w: World, first: Call, second: Call)
    ensures Run(cfg, uuid, w, [first, second]) == Step(cfg, uuid, Step(cfg, uuid, w, first), second)
  {
    hide Step;
    assert [first, second][..1] == [first] && [first][..0] == [];
    assert Run(cfg, uuid, w, [first]) == Step(cfg, uuid, w, first);
  }

  lemma DriftIsListed(w: World, reports: seq<ExchangeOrderReport>, tradeId: string)
    requires DriftLeft(w, tradeId)
    ensures RebalanceListed(w.ledger, w.log, reports, None, 50.0, tradeId)
  {
    hide RebalanceListed, Timeline, LatestByOrder, CarriesOrder, Hedge.PlanFor, ExpectedOrders;
    NoCarriersNoOrders(w.log, tradeId);
    DriftWantsRebalance(w.ledger[0]);
    RebalanceListedIff(w.ledger, w.log, reports, None, 50.0, w.ledger[0]);
  }

  /** The failing case is reached by two calls from an empty start: a live trade opened 100
      against 50 and closed again is listed for a rebalance; carrying that plan out fails even
      with a price to order at, and the trade is listed again. */
  lemma ClosedDriftNeverDrains(cfg: ExecutionConfig, uuid: Ids, legs: seq<LegReport>, tradeId: string, symbol: string,
                               opened': Time, closed: Time, report: ExchangeOrderReport, now: Time)
    requires Unlimited(cfg) && OnlySubmitted(legs)
    requires PricesPerp(report, tradeId) && report.executedQty == report.cumQuoteQty == 1.0
    ensures var w := Run(cfg, uuid, Start([Answers(legs), Answers(legs)]), DriftRun(tradeId, symbol, opened', closed));
            && RebalanceListed(w.ledger, w.log, [report], None, 50.0, tradeId)
            && forall plan :: plan in Plans(w.ledger, w.log, [report], None, true, 50.0)
                              && plan.action == RebalanceTrade ==>
                 var next := RunRebalance(cfg, uuid, CompensationRun(w, [report], 0, map[], [], None), plan, now);
                 && next.items == map[tradeId := ItemFor(plan, Hedge.NotExecuted)]
                 && RebalanceListed(next.world.ledger, next.world.log, next.stored, None, 50.0, tradeId)
  {
    var w := Run(cfg, uuid, Start([Answers(legs), Answers(legs)]), DriftRun(tradeId, symbol, opened', closed));
    DriftIsReached(cfg, uuid, legs, tradeId, symbol, opened', closed);
    DriftIsListed(w, [report], tradeId);
    hide Run, RebalanceListed, RunRebalance, Plans, Start;
    forall plan | plan in Plans(w.ledger, w.log, [report], None, true, 50.0) && plan.action == RebalanceTrade
      ensures var next := RunRebalance(cfg, uuid, CompensationRun(w, [report], 0, map[], [], None), plan, now);
              && next.items == map[tradeId := ItemFor(plan, Hedge.NotExecuted)]
              && RebalanceListed(next.world.ledger, next.world.log, next.stored, None, 50.0, tradeId)
    {
      DriftIsRefused(cfg, uuid, w, tradeId, plan, report, now);
    }
  }

  lemma DriftIsRefused(cfg: ExecutionConfig, uuid: Ids, w: World, tradeId: string, plan: CompensationPlan,
                       report: ExchangeOrderReport, now: Time)
    requires DriftLeft(w, tradeId) && plan.action == RebalanceTrade
    requires PricesPerp(report, tradeId) && report.executedQty == report.cumQuoteQty == 1.0
    requires plan in Plans(w.ledger, w.log, [report], None, true, 50.0)
    ensures var next := RunRebalance(cfg, uuid, CompensationRun(w, [report], 0, map[], [], None), plan, now);
            && next.items == map[tradeId := ItemFor(plan, Hedge.NotExecuted)]
            && RebalanceListed(next.world.ledger, next.world.log, next.stored, None, 50.0, tradeId)
  {
    hide Plans, RebalanceListed, Candidates, Recovery.Plans, PlanOf, Timeline, LatestByOrder, CarriesOrder,
         Hedge.PlanFor, ExpectedOrders, Rebalance, RebalanceQuantity, ReferencePrice;
    var r := PlanSource(w.ledger, w.log, [report], None, true, 50.0, plan);
    FindBelongs(w.ledger, plan.tradeId);
    PlanIsTheVerdict(w.ledger, w.log, [report], None, 50.0, r);
    DriftWantsRebalance(r);
    DriftHasQuantity(report, plan);
    var run := CompensationRun(w, [report], 0, map[], [], None);
    ClosedIsRefused(cfg, uuid, w, r, plan.suggestedDelta, RebalanceQuantity([report], plan).value, now);
    RebalanceDrainsIff(cfg, uuid, run, plan, r, None, 50.0, now);
  }

  lemma ClosedIsRefused(cfg: ExecutionConfig, uuid: Ids, w: World, r: TradeLedgerRecord, delta: real, quantity: real,
                        now: Time)
    requires Find(w.ledger, r.tradeId) == Some(r) && r.status == Closed
    ensures Rebalance(cfg, uuid, w, r.tradeId, delta, quantity, COMPENSATION_NOTE, now)
         == StepResult(w, Raised(RebalanceRefusal(w, r.tradeId, quantity)))
    ensures RebalanceRefusal(w, r.tradeId, quantity).ValueError?
  {
  }

  lemma DriftHasQuantity(report: ExchangeOrderReport, plan: CompensationPlan)
    requires PricesPerp(report, plan.tradeId) && report.executedQty == report.cumQuoteQty == 1.0
    requires plan.suggestedDelta == 50.0
    ensures RebalanceQuantity([report], plan) == Some(50.0)
  {
    assert [report][..0] == [];
    assert Filter([report], PerpReports(plan.tradeId)) == [report];
    assert LatestReport([report]) == Some(report);
    assert report.cumQuoteQty / report.executedQty == 1.0;
    RoundHalfEvenCorrect(50000000.0, 50000000);
    assert Abs(50.0) / 1.0 * 1000000.0 == 50000000.0;
  }
}
