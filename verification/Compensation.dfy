/** Compensation: one plan for every live trade, taken from reconciliation, recovery and the
    hedge manager in that order, and the run that carries out the safe ones. */
module Compensation {
  import opened Options
  import opened Lists
  import opened Ledger
  import opened Audit
  import opened Execution
  import opened ExchangeReports
  import opened Reconciliation
  import opened Orchestration
  import Recovery
  import Hedge

  datatype CompensationAction =
    SyncReports | ResumeTrade(action: RecoveryAction) | RebalanceTrade | ManualReview | Nothing

  datatype Priority = Critical | High | Medium | Low

  datatype Reason =
    MissingReports | RecoveryActionable | OperatorDecision | AmbiguousRecovery | ExposureDrift | NothingRequired

  datatype CompensationPlan = CompensationPlan(
    tradeId: string,
    symbol: string,
    status: TradeStatus,
    action: CompensationAction,
    priority: Priority,
    actionable: bool,
    reason: Reason,
    suggestedDelta: real)

  function BuildPlan(r: TradeLedgerRecord, candidate: Option<ReconciliationCandidate>,
                     recovery: Option<Recovery.RecoveryPlan>, hedge: Hedge.HedgeRebalancePlan): CompensationPlan
  {
    if candidate.Some? && candidate.value.missing != [] then
      CompensationPlan(r.tradeId, r.symbol, r.status, SyncReports, Critical, true, MissingReports, 0.0)
    else if recovery.Some? then
      var auto := recovery.value.autoExecutable;
      match recovery.value.recommended
      case Resume(action) =>
        CompensationPlan(r.tradeId, r.symbol, r.status, ResumeTrade(action), if auto then Critical else High, auto,
                         if auto then RecoveryActionable else OperatorDecision, 0.0)
      case ManualReview =>
        CompensationPlan(r.tradeId, r.symbol, r.status, ManualReview, if NeedsRecovery(r.status) then High else Low,
                         false, AmbiguousRecovery, 0.0)
    else if Hedge.WantsRebalance(hedge) then
      CompensationPlan(r.tradeId, r.symbol, r.status, RebalanceTrade, Medium, true, ExposureDrift, hedge.suggestedDelta)
    else
      CompensationPlan(r.tradeId, r.symbol, r.status, Nothing, Low, false, NothingRequired, 0.0)
  }

  /** `{plan.trade_id: plan for ...}`: the last one listed for a trade. */
  function RecoveryOf(plans: seq<Recovery.RecoveryPlan>, tradeId: string): Option<Recovery.RecoveryPlan>
  {
    if plans == [] then None
    else if plans[|plans| - 1].tradeId == tradeId then Some(plans[|plans| - 1])
    else RecoveryOf(plans[..|plans| - 1], tradeId)
  }

  function PlanOf(r: TradeLedgerRecord, found: TradeLedgerRecord, candidates: seq<ReconciliationCandidate>,
                  recoveries: seq<Recovery.RecoveryPlan>, limitBps: real): CompensationPlan
  {
    BuildPlan(r, Recovery.CandidateOf(candidates, r.tradeId), RecoveryOf(recoveries, r.tradeId),
              Hedge.PlanFor(found, limitBps))
  }

  /** The hedge manager looks the record up again by id; a listed record is always found. */
  function ListedPlan(ledger: seq<TradeLedgerRecord>, candidates: seq<ReconciliationCandidate>,
                      recoveries: seq<Recovery.RecoveryPlan>, symbol: Option<string>, onlyActionable: bool,
                      limitBps: real): TradeLedgerRecord -> Option<CompensationPlan>
  {
    (r: TradeLedgerRecord) =>
      var found := Find(ledger, r.tradeId);
      if Selected(r, Some(Live), None, None, symbol) && found.Some?
         && (onlyActionable ==> PlanOf(r, found.value, candidates, recoveries, limitBps).actionable)
      then Some(PlanOf(r, found.value, candidates, recoveries, limitBps)) else None
  }

  function Rank(priority: Priority): nat
  {
    match priority
    case Critical => 0
    case High => 1
    case Medium => 2
    case Low => 3
  }

  /** `sorted(key=(PRIORITY_ORDER[priority], trade_id))`. */
  predicate CompensationLe(a: CompensationPlan, b: CompensationPlan)
  {
    Rank(a.priority) < Rank(b.priority) || (Rank(a.priority) == Rank(b.priority) && TextLe(a.tradeId, b.tradeId))
  }

  lemma CompensationOrder()
    ensures TotalPreorder(CompensationLe)
  {
    forall x, y ensures CompensationLe(x, y) || CompensationLe(y, x) {
      TextLeTotal(x.tradeId, y.tradeId);
    }
    forall x, y, z | CompensationLe(x, y) && CompensationLe(y, z) ensures CompensationLe(x, z) {
      if TextLe(x.tradeId, y.tradeId) && TextLe(y.tradeId, z.tradeId) {
        TextLeTransitive(x.tradeId, y.tradeId, z.tradeId);
      }
    }
  }

  function Plans(ledger: seq<TradeLedgerRecord>, log: seq<AuditEventRecord>, reports: seq<ExchangeOrderReport>,
                 symbol: Option<string>, onlyActionable: bool, limitBps: real): seq<CompensationPlan>
  {
    Sort(Gather(ledger, ListedPlan(ledger, Candidates(ledger, log, reports, symbol, false),
                                   Recovery.Plans(ledger, log, reports, symbol, false), symbol, onlyActionable,
                                   limitBps)),
         CompensationLe)
  }

  // ---- carrying the plans out ----------------------------------------------------------------

  datatype CompensationItem = CompensationItem(tradeId: string, action: CompensationAction,
                                               outcome: Hedge.RebalanceOutcome)

  function ItemFor(plan: CompensationPlan, outcome: Hedge.RebalanceOutcome): CompensationItem
  {
    CompensationItem(plan.tradeId, plan.action, outcome)
  }

  /** `items` is the result dictionary, `waiting` the plans left to recovery. An exception
      that is no `ValueError` stops the run. */
  datatype CompensationRun = CompensationRun(
    world: World,
    stored: seq<ExchangeOrderReport>,
    asked: nat,
    items: map<string, CompensationItem>,
    waiting: seq<CompensationPlan>,
    stopped: Option<Error>)

  const COMPENSATION_NOTE := Some("auto compensation rebalance")

  function Note<T>(run: CompensationRun, plan: CompensationPlan, outcome: Outcome<T>): CompensationRun
  {
    match outcome
    case Returned(_) => run.(items := run.items[plan.tradeId := ItemFor(plan, Hedge.Executed)])
    case Raised(ValueError(_)) => run.(items := run.items[plan.tradeId := ItemFor(plan, Hedge.NotExecuted)])
    case Raised(error) => run.(stopped := Some(error))
  }

  function RunSync(run: CompensationRun, plan: CompensationPlan, client: Client, ids: nat -> string): CompensationRun
  {
    var sync := SyncTrade(run.world.ledger, run.world.log, run.stored, plan.tradeId, client, ids, run.asked);
    Note(run.(stored := sync.stored, asked := sync.asked), plan, sync.outcome)
  }

  /** The quantity to order, when there is a delta, a price and something left to trade. */
  function RebalanceQuantity(stored: seq<ExchangeOrderReport>, plan: CompensationPlan): Option<real>
  {
    var price := ReferencePrice(stored, plan.tradeId);
    if plan.suggestedDelta == 0.0 || price.None?
       || Hedge.PerpQuantity(plan.suggestedDelta, price.value) <= 0.0 then None
    else Some(Hedge.PerpQuantity(plan.suggestedDelta, price.value))
  }

  function RunRebalance(cfg: ExecutionConfig, uuid: Ids, run: CompensationRun, plan: CompensationPlan, now: Time):
    CompensationRun
  {
    var quantity := RebalanceQuantity(run.stored, plan);
    if quantity.None? then run.(items := run.items[plan.tradeId := ItemFor(plan, Hedge.Skipped)])
    else
      var step := Rebalance(cfg, uuid, run.world, plan.tradeId, plan.suggestedDelta, quantity.value, COMPENSATION_NOTE,
                            now);
      Note(run.(world := step.world), plan, step.outcome)
  }

  function RunAction(cfg: ExecutionConfig, uuid: Ids, run: CompensationRun, plan: CompensationPlan, client: Client,
                     ids: nat -> string, now: Time): CompensationRun
  {
    if run.stopped.Some? then run
    else
      match plan.action
      case SyncReports => RunSync(run, plan, client, ids)
      case ResumeTrade(_) => run.(waiting := run.waiting + [plan])
      case RebalanceTrade => RunRebalance(cfg, uuid, run, plan, now)
      case _ => run.(items := run.items[plan.tradeId := ItemFor(plan, Hedge.Skipped)])
  }

  function RunActions(cfg: ExecutionConfig, uuid: Ids, w: World, stored: seq<ExchangeOrderReport>,
                      plans: seq<CompensationPlan>, client: Client, ids: nat -> string,
                      clock: nat -> Time): CompensationRun
  {
    if plans == [] then CompensationRun(w, stored, 0, map[], [], None)
    else
      var n := |plans| - 1;
      RunAction(cfg, uuid, RunActions(cfg, uuid, w, stored, plans[..n], client, ids, clock), plans[n], client, ids,
                clock(n))
  }

  predicate HasResult(results: seq<ExecutionResult>, tradeId: string)
  {
    exists r :: r in results && r.tradeId == tradeId
  }

  function RecoveryOutcome(run: Recovery.RecoveryRun, tradeId: string): Hedge.RebalanceOutcome
  {
    if run.stopped.Some? then Hedge.NotExecuted
    else if HasResult(run.results, tradeId) then Hedge.Executed
    else if tradeId in run.skipped then Hedge.Skipped
    else Hedge.NotExecuted
  }

  /** The items of the plans handed to recovery, on top of what is there. */
  function WithRecovered(items: map<string, CompensationItem>, waiting: seq<CompensationPlan>,
                         run: Recovery.RecoveryRun):
    map<string, CompensationItem>
  {
    if waiting == [] then items
    else
      var last := waiting[|waiting| - 1];
      WithRecovered(items, waiting[..|waiting| - 1],
                    run)[last.tradeId := ItemFor(last, RecoveryOutcome(run, last.tradeId))]
  }

  function TradeIds(plans: seq<CompensationPlan>): set<string>
  {
    set p | p in plans :: p.tradeId
  }

  function RecoverWaiting(cfg: ExecutionConfig, uuid: Ids, run: CompensationRun, clock: nat -> Time): CompensationRun
  {
    if run.stopped.Some? || run.waiting == [] then run
    else
      var plans := Recovery.ChosenPlans(run.world.ledger, run.world.log, run.stored, None, Some(TradeIds(run.waiting)),
                                        None);
      var recovery := Recovery.RunRecoveries(cfg, uuid, run.world, plans, clock);
      match recovery.stopped
      case Some(OtherError(_)) => run.(world := recovery.world, stopped := recovery.stopped)
      case _ => run.(world := recovery.world, items := WithRecovered(run.items, run.waiting, recovery))
  }

  function ItemOf(items: map<string, CompensationItem>): CompensationPlan -> Option<CompensationItem>
  {
    (p: CompensationPlan) => if p.tradeId in items then Some(items[p.tradeId]) else None
  }

  function CountItems(items: seq<CompensationItem>, outcome: Hedge.RebalanceOutcome): nat
  {
    if items == [] then 0
    else CountItems(items[..|items| - 1], outcome) + if items[|items| - 1].outcome == outcome then 1 else 0
  }

  datatype CompensationSummary = CompensationSummary(
    attempted: nat, executed: nat, skipped: nat, failed: nat, results: seq<CompensationItem>)

  function SafeRun(cfg: ExecutionConfig, uuid: Ids, w: World, stored: seq<ExchangeOrderReport>,
                   plans: seq<CompensationPlan>, client: Client, ids: nat -> string, clock: nat -> Time,
                   recoveryClock: nat -> Time): CompensationRun
  {
    RecoverWaiting(cfg, uuid, RunActions(cfg, uuid, w, stored, plans, client, ids, clock), recoveryClock)
  }

  function Summarise(plans: seq<CompensationPlan>, run: CompensationRun): Outcome<CompensationSummary>
  {
    if run.stopped.Some? then Raised(run.stopped.value)
    else
      var results := Gather(plans, ItemOf(run.items));
      Returned(CompensationSummary(|plans|, CountItems(results, Hedge.Executed), CountItems(results, Hedge.Skipped),
                                   CountItems(results, Hedge.NotExecuted), results))
  }

  class CompensationService {
    const ledger: TradeLedgerService
    const store: ExchangeOrderReportStore
    const reconciliation: ReconciliationService
    const recovery: Recovery.RecoveryService
    const hedge: Hedge.HedgeManagerService

    constructor (ledger: TradeLedgerService, store: ExchangeOrderReportStore, reconciliation: ReconciliationService,
                 recovery: Recovery.RecoveryService, hedge: Hedge.HedgeManagerService)
      ensures this.ledger == ledger && this.store == store && this.reconciliation == reconciliation
      ensures this.recovery == recovery && this.hedge == hedge
    {
      this.ledger := ledger;
      this.store := store;
      this.reconciliation := reconciliation;
      this.recovery := recovery;
      this.hedge := hedge;
    }

    /** All the services read the same ledger, log and report store. */
    predicate Shared()
    {
      && reconciliation.ledger == ledger && reconciliation.store == store
      && recovery.reconciliation == reconciliation && recovery.ledger == ledger
      && recovery.audit == reconciliation.audit
      && hedge.ledger == ledger
    }

    method BuildRecoveryIndex(plans: seq<Recovery.RecoveryPlan>) returns (index: map<string, Recovery.RecoveryPlan>)
      ensures forall id :: (if id in index then Some(index[id]) else None) == RecoveryOf(plans, id)
    {
      index := map[];
      for i := 0 to |plans|
        invariant forall id :: (if id in index then Some(index[id]) else None) == RecoveryOf(plans[..i], id)
      {
        index := index[plans[i].tradeId := plans[i]];
        assert plans[..i + 1][..i] == plans[..i];
      }
      assert plans[..|plans|] == plans;
    }

    method ListPlans(symbol: Option<string>, onlyActionable: bool, limitBps: real)
        returns (plans: seq<CompensationPlan>)
      requires Shared()
      ensures plans == Plans(ledger.records, reconciliation.audit.events, store.reports, symbol, onlyActionable,
                             limitBps)
    {
      hide Sort, Candidates, Recovery.Plans, Recovery.CandidateOf, RecoveryOf, BuildPlan, Hedge.PlanFor, Find, Selected;
      var records := ledger.records;
      var candidates := reconciliation.ListCandidates(symbol, false);
      var candidateByTrade := recovery.BuildCandidateIndex(candidates);
      var recoveries := recovery.ListPlans(symbol, false);
      var recoveryByTrade := BuildRecoveryIndex(recoveries);
      ghost var f := ListedPlan(records, candidates, recoveries, symbol, onlyActionable, limitBps);
      plans := [];
      assert records[0..] == records;
      for i := 0 to |records|
        invariant plans + Gather(records[i..], f) == Gather(records, f)
      {
        var r := records[i];
        assert records[i..][1..] == records[i + 1..];
        ghost var before := plans;
        if Selected(r, Some(Live), None, None, symbol) {
          var hedgePlan := hedge.BuildRebalancePlan(r.tradeId, limitBps);
          if hedgePlan.Returned? {
            var plan := BuildPlan(r, if r.tradeId in candidateByTrade then Some(candidateByTrade[r.tradeId]) else None,
                                  if r.tradeId in recoveryByTrade then Some(recoveryByTrade[r.tradeId]) else None,
                                  hedgePlan.value);
            assert plan == PlanOf(r, Find(records, r.tradeId).value, candidates, recoveries, limitBps);
            if !onlyActionable || plan.actionable {
              plans := plans + [plan];
            }
          }
        }
        assert plans == before + if f(r).Some? then [f(r).value] else [];
        ConcatAssociates(before, if f(r).Some? then [f(r).value] else [], Gather(records[i + 1..], f));
      }
      assert Gather(records[|records|..], f) == [] && plans + [] == plans;
      plans := Sort(plans, CompensationLe);
    }

    /** Syncs one trade; a `ValueError` becomes a failed item, anything else is passed on. */
    method ExecuteDirectSafeAction(plan: CompensationPlan, client: Client, ids: nat -> string, asked: nat,
                                   ghost run: CompensationRun)
      returns (outcome: Outcome<CompensationItem>, askedAfter: nat)
      requires Shared() && run.stopped.None? && run.asked == asked && run.stored == store.reports
      requires run.world.ledger == ledger.records && run.world.log == reconciliation.audit.events
      modifies store
      ensures var next := RunSync(run, plan, client, ids);
              && store.reports == next.stored && askedAfter == next.asked && next.waiting == run.waiting
              && next.world == run.world
              && (if outcome.Raised? then next.stopped == Some(outcome.error) && next.items == run.items
                  else next.stopped.None? && next.items == run.items[plan.tradeId := outcome.value])
    {
      hide SyncTrade;
      var synced;
      synced, askedAfter := reconciliation.SyncReportsForTrade(plan.tradeId, client, ids, asked);
      match synced {
        case Returned(_) => outcome := Returned(ItemFor(plan, Hedge.Executed));
        case Raised(ValueError(_)) => outcome := Returned(ItemFor(plan, Hedge.NotExecuted));
        case Raised(error) => outcome := Raised(error);
      }
    }

    method ExecuteRebalanceAction(orchestrator: ExecutionOrchestrator, plan: CompensationPlan, now: Time,
                                  ghost run: CompensationRun)
      returns (outcome: Outcome<CompensationItem>)
      requires run.stopped.None? && run.stored == store.reports && run.world == orchestrator.State()
      modifies orchestrator.ledger, orchestrator.audit, orchestrator.breaker, orchestrator.adapter
      ensures var next := RunRebalance(orchestrator.Config(), orchestrator.audit.uuid, run, plan, now);
              && orchestrator.State() == next.world && next.waiting == run.waiting
              && next.stored == run.stored && next.asked == run.asked
              && (if outcome.Raised? then next.stopped == Some(outcome.error) && next.items == run.items
                  else next.stopped.None? && next.items == run.items[plan.tradeId := outcome.value])
    {
      hide Rebalance, Hedge.PerpQuantity;
      var price := store.InferLatestPerpReferencePrice(plan.tradeId);
      if plan.suggestedDelta == 0.0 || price.None? {
        return Returned(ItemFor(plan, Hedge.Skipped));
      }
      var quantity := Hedge.PerpQuantity(plan.suggestedDelta, price.value);
      if quantity <= 0.0 {
        return Returned(ItemFor(plan, Hedge.Skipped));
      }
      var step := orchestrator.RebalanceHedge(plan.tradeId, plan.suggestedDelta, quantity, COMPENSATION_NOTE, now);
      match step {
        case Returned(_) => outcome := Returned(ItemFor(plan, Hedge.Executed));
        case Raised(ValueError(_)) => outcome := Returned(ItemFor(plan, Hedge.NotExecuted));
        case Raised(error) => outcome := Raised(error);
      }
    }
  
    /** Hands the waiting plans to the recovery service and reads back what became of each. */
    method ExecuteRecoveryActions(orchestrator: ExecutionOrchestrator, items: map<string, CompensationItem>,
                                  waiting: seq<CompensationPlan>, clock: nat -> Time, ghost run: CompensationRun)
      returns (outcome: Outcome<map<string, CompensationItem>>)
      requires run.items == items && run.waiting == waiting
      requires Shared() && orchestrator.ledger == ledger && orchestrator.audit == reconciliation.audit
      requires run.stopped.None? && run.waiting != [] && run.stored == store.reports
            && run.world == orchestrator.State()
      modifies orchestrator.ledger, orchestrator.audit, orchestrator.breaker, orchestrator.adapter
      ensures var next := RecoverWaiting(orchestrator.Config(), orchestrator.audit.uuid, run, clock);
              && orchestrator.State() == next.world
              && (if outcome.Raised? then next.stopped == Some(outcome.error)
                  else next.stopped.None? && next.items == outcome.value)
    {
      hide Recovery.ChosenPlans, Recovery.RunRecoveries;
      var recovered := recovery.ExecuteActionablePlans(orchestrator, None, None, Some(TradeIds(waiting)), clock);
      if recovered.Raised? && recovered.error.OtherError? {
        return Raised(recovered.error);
      }
      ghost var plans := Recovery.ChosenPlans(run.world.ledger, run.world.log, run.stored, None,
                                              Some(TradeIds(run.waiting)), None);
      ghost var all := Recovery.RunRecoveries(orchestrator.Config(), orchestrator.audit.uuid, run.world, plans, clock);
      var merged := items;
      for i := 0 to |waiting|
        invariant merged == WithRecovered(items, waiting[..i], all)
      {
        var plan := waiting[i];
        var outcome := Hedge.NotExecuted;
        if recovered.Returned? {
          if HasResult(recovered.value.results, plan.tradeId) {
            outcome := Hedge.Executed;
          } else if plan.tradeId in recovered.value.skipped {
            outcome := Hedge.Skipped;
          }
        }
        merged := merged[plan.tradeId := ItemFor(plan, outcome)];
        assert waiting[..i + 1][..i] == waiting[..i];
      }
      assert waiting[..|waiting|] == waiting;
      return Returned(merged);
    }

    method CountOutcomes(results: seq<CompensationItem>) returns (executed: nat, skipped: nat, failed: nat)
      ensures executed == CountItems(results, Hedge.Executed) && skipped == CountItems(results, Hedge.Skipped)
      ensures failed == CountItems(results, Hedge.NotExecuted)
      ensures executed + skipped + failed == |results|
    {
      executed, skipped, failed := 0, 0, 0;
      for i := 0 to |results|
        invariant executed == CountItems(results[..i], Hedge.Executed)
               && skipped == CountItems(results[..i], Hedge.Skipped)
        invariant failed == CountItems(results[..i], Hedge.NotExecuted)
        invariant executed + skipped + failed == i
      {
        match results[i].outcome {
          case Executed => executed := executed + 1;
          case Skipped => skipped := skipped + 1;
          case NotExecuted => failed := failed + 1;
        }
        assert results[..i + 1][..i] == results[..i];
      }
      assert results[..|results|] == results;
    }

    /** One plan: what the dictionary, the waiting list and the query count become. */
    method ExecuteAction(orchestrator: ExecutionOrchestrator, plan: CompensationPlan,
                         items: map<string, CompensationItem>,
                         waiting: seq<CompensationPlan>, asked: nat, client: Client, ids: nat -> string, now: Time,
                         ghost run: CompensationRun)
      returns (outcome: Outcome<map<string, CompensationItem>>, waitingAfter: seq<CompensationPlan>, askedAfter: nat)
      requires Shared() && orchestrator.ledger == ledger && orchestrator.audit == reconciliation.audit
      requires run == CompensationRun(orchestrator.State(), store.reports, asked, items, waiting, None)
      modifies store, orchestrator.ledger, orchestrator.audit, orchestrator.breaker, orchestrator.adapter
      ensures var next := RunAction(orchestrator.Config(), orchestrator.audit.uuid, run, plan, client, ids, now);
              && orchestrator.State() == next.world && store.reports == next.stored
              && askedAfter == next.asked && waitingAfter == next.waiting
              && (if outcome.Raised? then next.stopped == Some(outcome.error)
                  else next.stopped.None? && next.items == outcome.value)
    {
      hide RunRebalance, RunSync;
      askedAfter, waitingAfter := asked, waiting;
      var one: Outcome<CompensationItem>;
      match plan.action {
        case SyncReports =>
          one, askedAfter := ExecuteDirectSafeAction(plan, client, ids, asked, run);
        case ResumeTrade(_) =>
          return Returned(items), waiting + [plan], asked;
        case RebalanceTrade =>
          one := ExecuteRebalanceAction(orchestrator, plan, now, run);
        case _ =>
          return Returned(items[plan.tradeId := ItemFor(plan, Hedge.Skipped)]), waiting, asked;
      }
      outcome := if one.Raised? then Raised(one.error) else Returned(items[plan.tradeId := one.value]);
    }

    /** Every plan in turn, until one raises something that is no `ValueError`. */
    method ExecuteActions(orchestrator: ExecutionOrchestrator, plans: seq<CompensationPlan>, client: Client,
                          ids: nat -> string, clock: nat -> Time)
      returns (outcome: Outcome<map<string, CompensationItem>>, waiting: seq<CompensationPlan>, ghost asked: nat)
      requires Shared() && orchestrator.ledger == ledger && orchestrator.audit == reconciliation.audit
      modifies store, orchestrator.ledger, orchestrator.audit, orchestrator.breaker, orchestrator.adapter
      ensures var run := RunActions(orchestrator.Config(), orchestrator.audit.uuid, old(orchestrator.State()),
                                    old(store.reports), plans, client, ids, clock);
              && orchestrator.State() == run.world && store.reports == run.stored
              && (if outcome.Raised? then run.stopped == Some(outcome.error)
                  else run == CompensationRun(orchestrator.State(), store.reports, asked, outcome.value, waiting, None))
    {
      hide RunAction;
      ghost var cfg, uuid := orchestrator.Config(), orchestrator.audit.uuid;
      ghost var w, stored := orchestrator.State(), store.reports;
      var items: map<string, CompensationItem> := map[];
      var queries: nat := 0;
      waiting := [];
      for i := 0 to |plans|
        invariant RunActions(cfg, uuid, w, stored, plans[..i], client, ids, clock)
               == CompensationRun(orchestrator.State(), store.reports, queries, items, waiting, None)
      {
        assert plans[..i + 1][..i] == plans[..i];
        ghost var run := CompensationRun(orchestrator.State(), store.reports, queries, items, waiting, None);
        var one;
        one, waiting, queries := ExecuteAction(orchestrator, plans[i], items, waiting, queries, client, ids, clock(i),
                                               run);
        if one.Raised? {
          ActionsStop(cfg, uuid, w, stored, plans, client, ids, clock, i + 1);
          return one, waiting, queries;
        }
        items := one.value;
      }
      assert plans[..|plans|] == plans;
      return Returned(items), waiting, queries;
    }

    method ExecuteSafeActions(orchestrator: ExecutionOrchestrator, symbol: Option<string>, limit: Option<nat>,
                              limitBps: real,
                              client: Client, ids: nat -> string, clock: nat -> Time, recoveryClock: nat -> Time)
      returns (outcome: Outcome<CompensationSummary>)
      requires Shared() && orchestrator.ledger == ledger && orchestrator.audit == reconciliation.audit
      modifies store, orchestrator.ledger, orchestrator.audit, orchestrator.breaker, orchestrator.adapter
      ensures var plans := Take(Plans(old(ledger.records), old(reconciliation.audit.events), old(store.reports), symbol,
                                      true, limitBps), limit);
              var run := SafeRun(orchestrator.Config(), orchestrator.audit.uuid, old(orchestrator.State()),
                                 old(store.reports), plans, client, ids, clock, recoveryClock);
              && orchestrator.State() == run.world && store.reports == run.stored && outcome == Summarise(plans, run)
    {
      hide Plans, RunActions, WithRecovered;
      var plans := ListPlans(symbol, true, limitBps);
      plans := Take(plans, limit);
      var done, waiting;
      ghost var asked;
      done, waiting, asked := ExecuteActions(orchestrator, plans, client, ids, clock);
      if done.Raised? {
        return Raised(done.error);
      }
      var items := done.value;
      if waiting != [] {
        ghost var run := CompensationRun(orchestrator.State(), store.reports, asked, items, waiting, None);
        done := ExecuteRecoveryActions(orchestrator, items, waiting, recoveryClock, run);
        if done.Raised? {
          return Raised(done.error);
        }
        items := done.value;
      }
      var results := Gather(plans, ItemOf(items));
      var executed, skipped, failed := CountOutcomes(results);
      return Returned(CompensationSummary(|plans|, executed, skipped, failed, results));
    }
  }

  lemma {:induction false} ActionsStop(cfg: ExecutionConfig, uuid: Ids, w: World, stored: seq<ExchangeOrderReport>,
                                       plans: seq<CompensationPlan>, client: Client, ids: nat -> string,
                                       clock: nat -> Time, n: nat)
    requires n <= |plans| && RunActions(cfg, uuid, w, stored, plans[..n], client, ids, clock).stopped.Some?
    ensures RunActions(cfg, uuid, w, stored, plans, client, ids, clock)
         == RunActions(cfg, uuid, w, stored, plans[..n], client, ids, clock)
  {
    if n == |plans| {
      assert plans[..n] == plans;
    } else {
      assert plans[..|plans| - 1][..n] == plans[..n];
      ActionsStop(cfg, uuid, w, stored, plans[..|plans| - 1], client, ids, clock, n);
    }
  }
}
