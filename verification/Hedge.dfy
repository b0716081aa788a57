/** The hedge manager: exposure, health, rebalance plans and their automatic execution. */
module Hedge {
  import opened Options
  import opened Lists
  import opened Decimals
  import opened Ledger
  import opened Audit
  import opened CircuitBreaker
  import opened Execution
  import opened ExchangeReports
  import opened Orchestration

  datatype HedgeHealth = Fine | Monitoring | RebalanceNeeded | RecoveryNeeded

  datatype HedgeAction = NoAction | MonitorOnly | RecoverTrade | IncreasePerpHedge | ReducePerpHedge

  datatype HedgeRebalancePlan = HedgeRebalancePlan(
    tradeId: string,
    symbol: string,
    status: TradeStatus,
    health: HedgeHealth,
    exposureLimitBps: real,
    netExposure: real,
    exposureBps: real,
    action: HedgeAction,
    suggestedDelta: real)

  function ExposureBps(r: TradeLedgerRecord): real
  {
    Round2(Abs(r.netExposure) / Max(Max(r.spotNotional, r.perpNotional), 1.0) * 10000.0)
  }

  function ClassifyHealth(r: TradeLedgerRecord, exposureBps: real, limitBps: real): HedgeHealth
  {
    if r.status in {Failed, RecoveryPending} then RecoveryNeeded
    else if r.status in {Candidate, Open, Closing} then Monitoring
    else if exposureBps > limitBps then RebalanceNeeded
    else Fine
  }

  function PlanFor(r: TradeLedgerRecord, limitBps: real): HedgeRebalancePlan
  {
    var bps := ExposureBps(r);
    var health := ClassifyHealth(r, bps, limitBps);
    var action :=
      match health
      case RecoveryNeeded => RecoverTrade
      case Monitoring => MonitorOnly
      case RebalanceNeeded => if r.netExposure > 0.0 then IncreasePerpHedge else ReducePerpHedge
      case Fine => NoAction;
    HedgeRebalancePlan(r.tradeId, r.symbol, r.status, health, limitBps, r.netExposure, bps, action,
                       if health == RebalanceNeeded then Round4(r.netExposure) else 0.0)
  }

  predicate WantsRebalance(plan: HedgeRebalancePlan)
  {
    plan.action == IncreasePerpHedge || plan.action == ReducePerpHedge
  }

  predicate ActiveRecord(r: TradeLedgerRecord, symbol: Option<string>)
  {
    && r.status in {Candidate, Open, Hedged, Closing, Failed, RecoveryPending}
    && (symbol.Some? ==> r.symbol == symbol.value)
  }

  /** The plan of one listed record; `build_rebalance_plan` looks the record up again by id. */
  function ListedPlan(ledger: seq<TradeLedgerRecord>, symbol: Option<string>, limitBps: real):
    TradeLedgerRecord -> Option<HedgeRebalancePlan>
  {
    (r: TradeLedgerRecord) =>
      if !ActiveRecord(r, symbol) then None
      else
        var found := Find(ledger, r.tradeId);
        if found.Some? && WantsRebalance(PlanFor(found.value, limitBps)) then Some(PlanFor(found.value, limitBps))
        else None
  }

  /** `sort(key=(exposure_bps, trade_id), reverse=True)`. */
  predicate PlanGe(a: HedgeRebalancePlan, b: HedgeRebalancePlan)
  {
    a.exposureBps > b.exposureBps || (a.exposureBps == b.exposureBps && TextLe(b.tradeId, a.tradeId))
  }

  lemma PlanOrder()
    ensures TotalPreorder(PlanGe)
  {
    forall x, y ensures PlanGe(x, y) || PlanGe(y, x) {
      TextLeTotal(x.tradeId, y.tradeId);
    }
    forall x, y, z | PlanGe(x, y) && PlanGe(y, z) ensures PlanGe(x, z) {
      if x.exposureBps == z.exposureBps {
        TextLeTransitive(z.tradeId, y.tradeId, x.tradeId);
      }
    }
  }

  function CandidatePlans(ledger: seq<TradeLedgerRecord>, symbol: Option<string>,
                          limitBps: real): seq<HedgeRebalancePlan>
  {
    Sort(Gather(ledger, ListedPlan(ledger, symbol, limitBps)), PlanGe)
  }

  // ---- automatic execution ---------------------------------------------------------

  datatype RebalanceOutcome = Executed | Skipped | NotExecuted

  datatype RebalanceItem = RebalanceItem(tradeId: string, outcome: RebalanceOutcome)

  datatype AutoRun = AutoRun(world: World, items: seq<RebalanceItem>)

  function PerpQuantity(delta: real, price: real): real
    requires price > 0.0
  {
    Round6(Abs(delta) / price)
  }

  const AUTO_NOTE := Some("auto hedge rebalance")

  /** One plan: skipped, executed, or refused by the orchestrator. */
  function RunPlan(cfg: ExecutionConfig, uuid: Ids, w: World, reports: seq<ExchangeOrderReport>,
                   plan: HedgeRebalancePlan, now: Time): AutoRun
  {
    var price := ReferencePrice(reports, plan.tradeId);
    if plan.suggestedDelta == 0.0 || price.None? || PerpQuantity(plan.suggestedDelta, price.value) <= 0.0 then
      AutoRun(w, [RebalanceItem(plan.tradeId, Skipped)])
    else
      var quantity := PerpQuantity(plan.suggestedDelta, price.value);
      var step := Rebalance(cfg, uuid, w, plan.tradeId, plan.suggestedDelta, quantity, AUTO_NOTE, now);
      AutoRun(step.world,
              [RebalanceItem(plan.tradeId, if step.outcome.Raised? then NotExecuted else Executed)])
  }

  function RunPlans(cfg: ExecutionConfig, uuid: Ids, w: World, reports: seq<ExchangeOrderReport>,
                    plans: seq<HedgeRebalancePlan>, clock: nat -> Time): AutoRun
  {
    if plans == [] then AutoRun(w, [])
    else
      var n := |plans| - 1;
      var earlier := RunPlans(cfg, uuid, w, reports, plans[..n], clock);
      var last := RunPlan(cfg, uuid, earlier.world, reports, plans[n], clock(n));
      AutoRun(last.world, earlier.items + last.items)
  }

  function CountOutcome(items: seq<RebalanceItem>, outcome: RebalanceOutcome): nat
  {
    if items == [] then 0
    else CountOutcome(items[..|items| - 1], outcome) + if items[|items| - 1].outcome == outcome then 1 else 0
  }

  datatype RebalanceSummary = RebalanceSummary(
    attempted: nat, executed: nat, skipped: nat, failed: nat, results: seq<RebalanceItem>)

  class HedgeManagerService {
    const ledger: TradeLedgerService
    const store: ExchangeOrderReportStore

    constructor (ledger: TradeLedgerService, store: ExchangeOrderReportStore)
      ensures this.ledger == ledger && this.store == store
    {
      this.ledger := ledger;
      this.store := store;
    }

    method BuildRebalancePlan(tradeId: string, limitBps: real) returns (outcome: Outcome<HedgeRebalancePlan>)
      ensures outcome == var found := Find(ledger.records, tradeId);
                         if found.Some? then Returned(PlanFor(found.value, limitBps)) else Raised(NotInLedger(tradeId))
    {
      var record := ledger.GetRecord(tradeId);
      if record.None? {
        return Raised(NotInLedger(tradeId));
      }
      return Returned(PlanFor(record.value, limitBps));
    }

    /** The plans of the listed trades that ask for a rebalance, largest exposure first. */
    method ListCandidatePlans(symbol: Option<string>, limitBps: real) returns (plans: seq<HedgeRebalancePlan>)
      ensures plans == CandidatePlans(ledger.records, symbol, limitBps)
    {
      hide PlanFor, Sort, Find;
      plans := [];
      ghost var f := ListedPlan(ledger.records, symbol, limitBps);
      var i := 0;
      assert ledger.records[0..] == ledger.records;
      while i < |ledger.records|
        invariant 0 <= i <= |ledger.records|
        invariant plans + Gather(ledger.records[i..], f) == Gather(ledger.records, f)
      {
        var record := ledger.records[i];
        assert ledger.records[i..][1..] == ledger.records[i + 1..];
        ghost var before := plans;
        if ActiveRecord(record, symbol) {
          var plan := BuildRebalancePlan(record.tradeId, limitBps);
          if plan.Returned? && WantsRebalance(plan.value) {
            plans := plans + [plan.value];
          }
        }
        assert plans == before + if f(record).Some? then [f(record).value] else [];
        ConcatAssociates(before, if f(record).Some? then [f(record).value] else [], Gather(ledger.records[i + 1..], f));
        i := i + 1;
      }
      assert Gather(ledger.records[i..], f) == [] && plans + [] == plans;
      plans := Sort(plans, PlanGe);
    }

    method ExecuteAutoRebalanceActions(orchestrator: ExecutionOrchestrator, symbol: Option<string>, limit: Option<nat>,
                                       limitBps: real, clock: nat -> Time)
      returns (summary: RebalanceSummary)
      requires orchestrator.ledger == ledger
      modifies orchestrator.ledger, orchestrator.audit, orchestrator.breaker, orchestrator.adapter
      ensures var plans := Take(CandidatePlans(old(ledger.records), symbol, limitBps), limit);
              var run := RunPlans(orchestrator.Config(), orchestrator.audit.uuid, old(orchestrator.State()),
                                  store.reports, plans, clock);
              && orchestrator.State() == run.world
              && summary == RebalanceSummary(|plans|, CountOutcome(run.items, Executed),
                                             CountOutcome(run.items, Skipped),
                                             CountOutcome(run.items, NotExecuted), run.items)
    {
      var plans := ListCandidatePlans(symbol, limitBps);
      plans := Take(plans, limit);
      var items: seq<RebalanceItem> := [];
      var i := 0;
      ghost var start := orchestrator.State();
      while i < |plans|
        invariant 0 <= i <= |plans|
        invariant AutoRun(orchestrator.State(), items)
               == RunPlans(orchestrator.Config(), orchestrator.audit.uuid, start, store.reports, plans[..i], clock)
      {
        var outcome := ExecutePlan(orchestrator, plans[i], clock(i));
        items := items + [RebalanceItem(plans[i].tradeId, outcome)];
        i := i + 1;
        assert plans[..i][..i - 1] == plans[..i - 1];
      }
      assert plans[..|plans|] == plans;
      var executed, skipped, failed := 0, 0, 0;
      i := 0;
      while i < |items|
        invariant 0 <= i <= |items|
        invariant executed == CountOutcome(items[..i], Executed)
        invariant skipped == CountOutcome(items[..i], Skipped)
        invariant failed == CountOutcome(items[..i], NotExecuted)
      {
        match items[i].outcome {
          case Executed => executed := executed + 1;
          case Skipped => skipped := skipped + 1;
          case NotExecuted => failed := failed + 1;
        }
        i := i + 1;
        assert items[..i][..i - 1] == items[..i - 1];
      }
      assert items[..|items|] == items;
      return RebalanceSummary(|plans|, executed, skipped, failed, items);
    }

    method ExecutePlan(orchestrator: ExecutionOrchestrator, plan: HedgeRebalancePlan, now: Time)
      returns (outcome: RebalanceOutcome)
      modifies orchestrator.ledger, orchestrator.audit, orchestrator.breaker, orchestrator.adapter
      ensures AutoRun(orchestrator.State(), [RebalanceItem(plan.tradeId, outcome)])
           == RunPlan(orchestrator.Config(), orchestrator.audit.uuid, old(orchestrator.State()), store.reports, plan,
                      now)
    {
      hide Rebalance, Round6;
      if plan.suggestedDelta == 0.0 {
        return Skipped;
      }
      var price := store.InferLatestPerpReferencePrice(plan.tradeId);
      if price.None? {
        return Skipped;
      }
      var quantity := PerpQuantity(plan.suggestedDelta, price.value);
      if quantity <= 0.0 {
        return Skipped;
      }
      var step := orchestrator.RebalanceHedge(plan.tradeId, plan.suggestedDelta, quantity, AUTO_NOTE, now);
      return if step.Raised? then NotExecuted else Executed;
    }
  }
}
