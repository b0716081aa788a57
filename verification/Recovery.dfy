/** The recovery planner: which failed or half-done trades may be recovered automatically,
    and the run that recovers them. */
module Recovery {
  import opened Options
  import opened Lists
  import opened Ledger
  import opened Audit
  import opened Execution
  import opened ExchangeReports
  import opened Reconciliation
  import opened Orchestration

  datatype Recommendation = Resume(action: RecoveryAction) | ManualReview

  datatype RecoveryPlan = RecoveryPlan(
    tradeId: string,
    mode: TradeMode,
    symbol: string,
    status: TradeStatus,
    recommended: Recommendation,
    autoExecutable: bool,
    latestEventType: Option<EventType>,
    missing: seq<string>,
    exchangeStatuses: seq<string>)

  // ---- what the log says about a trade ------------------------------------------------

  /** The trade's latest event: of several at the same time the first listed. */
  function LatestEvent(events: seq<AuditEventRecord>, tradeId: string): Option<AuditEventRecord>
  {
    if events == [] then None
    else
      var earlier := LatestEvent(events[..|events| - 1], tradeId);
      var e := events[|events| - 1];
      if About(tradeId)(e) && (earlier.None? || e.occurredAt > earlier.value.occurredAt) then Some(e) else earlier
  }

  predicate IsIntent(e: AuditEventRecord)
  {
    e.eventType == IntentReceived && e.payload.action.Some?
  }

  datatype Intent = Intent(at: Time, action: Action)

  function LaterIntent(earlier: Option<Intent>, e: AuditEventRecord): Option<Intent>
  {
    if IsIntent(e) && (earlier.None? || e.occurredAt > earlier.value.at)
    then Some(Intent(e.occurredAt, e.payload.action.value)) else earlier
  }

  function LatestIntent(events: seq<AuditEventRecord>, tradeId: string): Option<Intent>
  {
    if events == [] then None
    else
      var earlier := LatestIntent(events[..|events| - 1], tradeId);
      var e := events[|events| - 1];
      if About(tradeId)(e) then LaterIntent(earlier, e) else earlier
  }

  // ---- the plan of one trade --------------------------------------------------------------

  function InferRecoveryAction(intent: Option<Intent>, latest: Option<AuditEventRecord>): RecoveryAction
  {
    if intent.Some? && intent.value.action == CloseHedge then ResumeClose
    else if latest.Some? && MentionsClose(latest.value.eventType) then ResumeClose
    else ResumeOpen
  }

  function BuildPlan(r: TradeLedgerRecord, latest: Option<AuditEventRecord>, intent: Option<Intent>,
                     candidate: Option<ReconciliationCandidate>): RecoveryPlan
  {
    var eventType := if latest.Some? then Some(latest.value.eventType) else None;
    if r.mode == Paper then
      RecoveryPlan(r.tradeId, r.mode, r.symbol, r.status, Resume(InferRecoveryAction(intent, latest)), true,
                   eventType, [], [])
    else if candidate.None? then
      RecoveryPlan(r.tradeId, r.mode, r.symbol, r.status, ManualReview, false, eventType, [], [])
    else
      var c := candidate.value;
      var resume :=
        if c.missing != [] || c.suggested == InspectExchange then ManualReview
        else if c.suggested == SuggestResumeOpen then Resume(ResumeOpen) else Resume(ResumeClose);
      RecoveryPlan(r.tradeId, r.mode, r.symbol, r.status, resume, resume.Resume?, eventType, c.missing,
                   c.exchangeStatuses)
  }

  /** `{candidate.trade_id: candidate for ...}`: the last one listed for a trade. */
  function CandidateOf(candidates: seq<ReconciliationCandidate>, tradeId: string): Option<ReconciliationCandidate>
  {
    if candidates == [] then None
    else if candidates[|candidates| - 1].tradeId == tradeId then Some(candidates[|candidates| - 1])
    else CandidateOf(candidates[..|candidates| - 1], tradeId)
  }

  function PlanOf(r: TradeLedgerRecord, events: seq<AuditEventRecord>,
                  candidates: seq<ReconciliationCandidate>): RecoveryPlan
  {
    BuildPlan(r, LatestEvent(events, r.tradeId), LatestIntent(events, r.tradeId), CandidateOf(candidates, r.tradeId))
  }

  // ---- the list of plans --------------------------------------------------------------------

  predicate Recoverable(r: TradeLedgerRecord, symbol: Option<string>)
  {
    (symbol.Some? ==> r.symbol == symbol.value) && NeedsRecovery(r.status)
  }

  function ListedPlan(events: seq<AuditEventRecord>, candidates: seq<ReconciliationCandidate>, symbol: Option<string>,
                      onlyActionable: bool): TradeLedgerRecord -> Option<RecoveryPlan>
  {
    (r: TradeLedgerRecord) =>
      if Recoverable(r, symbol) && (onlyActionable ==> PlanOf(r, events, candidates).autoExecutable)
      then Some(PlanOf(r, events, candidates)) else None
  }

  /** `sorted(key=(not auto_executable, mode != "paper", trade_id))`. */
  predicate RecoveryLe(a: RecoveryPlan, b: RecoveryPlan)
  {
    || (a.autoExecutable && !b.autoExecutable)
    || (&& a.autoExecutable == b.autoExecutable
        && (|| (a.mode == Paper && b.mode != Paper)
            || (a.mode == b.mode && TextLe(a.tradeId, b.tradeId))))
  }

  lemma RecoveryOrder()
    ensures TotalPreorder(RecoveryLe)
  {
    forall x, y ensures RecoveryLe(x, y) || RecoveryLe(y, x) {
      TextLeTotal(x.tradeId, y.tradeId);
    }
    forall x, y, z | RecoveryLe(x, y) && RecoveryLe(y, z) ensures RecoveryLe(x, z) {
      if TextLe(x.tradeId, y.tradeId) && TextLe(y.tradeId, z.tradeId) {
        TextLeTransitive(x.tradeId, y.tradeId, z.tradeId);
      }
    }
  }

  function Plans(ledger: seq<TradeLedgerRecord>, log: seq<AuditEventRecord>, reports: seq<ExchangeOrderReport>,
                 symbol: Option<string>, onlyActionable: bool): seq<RecoveryPlan>
  {
    Sort(Gather(ledger, ListedPlan(Timeline(log), Candidates(ledger, log, reports, None, false), symbol,
                                   onlyActionable)),
         RecoveryLe)
  }

  // ---- executing them ----------------------------------------------------------------------------

  const RECOVERY_NOTE := Some("auto recovery from recovery planner")

  datatype RecoveryRun = RecoveryRun(
    world: World, results: seq<ExecutionResult>, skipped: seq<string>, stopped: Option<Error>)

  /** One plan. Only a `ValueError` is caught; a recommendation that is no recovery action
      is refused by the request's own validation, which is a `ValueError` too. */
  function RunRecovery(cfg: ExecutionConfig, uuid: Ids, run: RecoveryRun, plan: RecoveryPlan, now: Time): RecoveryRun
  {
    if run.stopped.Some? then run
    else if plan.recommended == ManualReview then run.(skipped := run.skipped + [plan.tradeId])
    else
      var step := Recover(cfg, uuid, run.world, plan.tradeId, plan.recommended.action, RECOVERY_NOTE, now);
      match step.outcome
      case Returned(result) => run.(world := step.world, results := run.results + [result])
      case Raised(ValueError(_)) => run.(world := step.world, skipped := run.skipped + [plan.tradeId])
      case Raised(error) => run.(world := step.world, stopped := Some(error))
  }

  function RunRecoveries(cfg: ExecutionConfig, uuid: Ids, w: World, plans: seq<RecoveryPlan>,
                         clock: nat -> Time): RecoveryRun
  {
    if plans == [] then RecoveryRun(w, [], [], None)
    else
      var n := |plans| - 1;
      RunRecovery(cfg, uuid, RunRecoveries(cfg, uuid, w, plans[..n], clock), plans[n], clock(n))
  }

  function WithIds(tradeIds: Option<set<string>>): RecoveryPlan -> bool
  {
    (p: RecoveryPlan) => tradeIds.Some? ==> p.tradeId in tradeIds.value
  }

  /** The plans one call executes. */
  function ChosenPlans(ledger: seq<TradeLedgerRecord>, log: seq<AuditEventRecord>, reports: seq<ExchangeOrderReport>,
                       symbol: Option<string>, tradeIds: Option<set<string>>, limit: Option<nat>): seq<RecoveryPlan>
  {
    Take(Filter(Plans(ledger, log, reports, symbol, true), WithIds(tradeIds)), limit)
  }

  datatype RecoverySummary = RecoverySummary(
    attempted: nat, executed: nat, skippedCount: nat, results: seq<ExecutionResult>, skipped: seq<string>)

  class RecoveryService {
    const ledger: TradeLedgerService
    const audit: AuditEventService
    const reconciliation: ReconciliationService

    constructor (ledger: TradeLedgerService, audit: AuditEventService, reconciliation: ReconciliationService)
      ensures this.ledger == ledger && this.audit == audit && this.reconciliation == reconciliation
    {
      this.ledger := ledger;
      this.audit := audit;
      this.reconciliation := reconciliation;
    }

    /** The planner and the reconciliation it asks read the same ledger and log. */
    predicate Shared()
    {
      reconciliation.ledger == ledger && reconciliation.audit == audit
    }

    method BuildLatestEventIndex(events: seq<AuditEventRecord>) returns (index: map<string, AuditEventRecord>)
      ensures forall id :: (if id in index then Some(index[id]) else None) == LatestEvent(events, id)
    {
      index := map[];
      for i := 0 to |events|
        invariant forall id :: (if id in index then Some(index[id]) else None) == LatestEvent(events[..i], id)
      {
        var tradeId := events[i].payload.tradeId;
        assert events[..i + 1][..i] == events[..i];
        if tradeId.Some? {
          if tradeId.value !in index || events[i].occurredAt > index[tradeId.value].occurredAt {
            index := index[tradeId.value := events[i]];
          }
        }
      }
      assert events[..|events|] == events;
    }

    method BuildIntentActionIndex(events: seq<AuditEventRecord>) returns (index: map<string, Intent>)
      ensures forall id :: (if id in index then Some(index[id]) else None) == LatestIntent(events, id)
    {
      index := map[];
      for i := 0 to |events|
        invariant forall id :: (if id in index then Some(index[id]) else None) == LatestIntent(events[..i], id)
      {
        var tradeId := events[i].payload.tradeId;
        assert events[..i + 1][..i] == events[..i];
        if IsIntent(events[i]) && tradeId.Some? {
          if tradeId.value !in index || events[i].occurredAt > index[tradeId.value].at {
            index := index[tradeId.value := Intent(events[i].occurredAt, events[i].payload.action.value)];
          }
        }
      }
      assert events[..|events|] == events;
    }

    method BuildCandidateIndex(candidates: seq<ReconciliationCandidate>)
      returns (index: map<string, ReconciliationCandidate>)
      ensures forall id :: (if id in index then Some(index[id]) else None) == CandidateOf(candidates, id)
    {
      index := map[];
      for i := 0 to |candidates|
        invariant forall id :: (if id in index then Some(index[id]) else None) == CandidateOf(candidates[..i], id)
      {
        index := index[candidates[i].tradeId := candidates[i]];
        assert candidates[..i + 1][..i] == candidates[..i];
      }
      assert candidates[..|candidates|] == candidates;
    }

    method ListPlans(symbol: Option<string>, onlyActionable: bool) returns (plans: seq<RecoveryPlan>)
      requires Shared()
      ensures plans == Plans(ledger.records, audit.events, reconciliation.store.reports, symbol, onlyActionable)
    {
      hide Sort, Timeline, Candidates, LatestEvent, LatestIntent, CandidateOf, BuildPlan;
      var records := ledger.records;
      var events := audit.ListEvents(None);
      var latest := BuildLatestEventIndex(events);
      var intents := BuildIntentActionIndex(events);
      var candidates := reconciliation.ListCandidates(None, false);
      var candidateByTrade := BuildCandidateIndex(candidates);
      ghost var f := ListedPlan(events, candidates, symbol, onlyActionable);
      plans := [];
      assert records[0..] == records;
      for i := 0 to |records|
        invariant plans + Gather(records[i..], f) == Gather(records, f)
      {
        var r := records[i];
        assert records[i..][1..] == records[i + 1..];
        ghost var before := plans;
        if Recoverable(r, symbol) {
          var plan := BuildPlan(r, if r.tradeId in latest then Some(latest[r.tradeId]) else None,
                                if r.tradeId in intents then Some(intents[r.tradeId]) else None,
                                if r.tradeId in candidateByTrade then Some(candidateByTrade[r.tradeId]) else None);
          assert plan == PlanOf(r, events, candidates);
          if !onlyActionable || plan.autoExecutable {
            plans := plans + [plan];
          }
        }
        assert plans == before + if f(r).Some? then [f(r).value] else [];
        ConcatAssociates(before, if f(r).Some? then [f(r).value] else [], Gather(records[i + 1..], f));
      }
      assert Gather(records[|records|..], f) == [] && plans + [] == plans;
      plans := Sort(plans, RecoveryLe);
    }

    /** Recovers one trade after the other; a `ValueError` skips the trade, anything else ends
        the run. */
    method ExecutePlans(orchestrator: ExecutionOrchestrator, plans: seq<RecoveryPlan>, clock: nat -> Time)
      returns (results: seq<ExecutionResult>, skipped: seq<string>, stopped: Option<Error>)
      modifies orchestrator.ledger, orchestrator.audit, orchestrator.breaker, orchestrator.adapter
      ensures RunRecoveries(orchestrator.Config(), orchestrator.audit.uuid, old(orchestrator.State()), plans, clock)
           == RecoveryRun(orchestrator.State(), results, skipped, stopped)
    {
      hide Recover;
      results, skipped, stopped := [], [], None;
      ghost var start := orchestrator.State();
      for i := 0 to |plans|
        invariant RunRecoveries(orchestrator.Config(), orchestrator.audit.uuid, start, plans[..i], clock)
               == RecoveryRun(orchestrator.State(), results, skipped, None)
      {
        assert plans[..i + 1][..i] == plans[..i];
        if plans[i].recommended == ManualReview {
          skipped := skipped + [plans[i].tradeId];
        } else {
          var step := orchestrator.Recover(plans[i].tradeId, plans[i].recommended.action, RECOVERY_NOTE, clock(i));
          match step {
            case Returned(result) => results := results + [result];
            case Raised(ValueError(_)) => skipped := skipped + [plans[i].tradeId];
            case Raised(error) =>
              RunStops(orchestrator.Config(), orchestrator.audit.uuid, start, plans, clock, i + 1);
              return results, skipped, Some(error);
          }
        }
      }
      assert plans[..|plans|] == plans;
      stopped := None;
    }

    method ExecuteActionablePlans(orchestrator: ExecutionOrchestrator, limit: Option<nat>, symbol: Option<string>,
                                  tradeIds: Option<set<string>>, clock: nat -> Time)
      returns (outcome: Outcome<RecoverySummary>)
      requires Shared() && orchestrator.ledger == ledger && orchestrator.audit == audit
      modifies orchestrator.ledger, orchestrator.audit, orchestrator.breaker, orchestrator.adapter
      ensures var plans := ChosenPlans(old(ledger.records), old(audit.events), old(reconciliation.store.reports),
                                       symbol, tradeIds, limit);
              var run := RunRecoveries(orchestrator.Config(), orchestrator.audit.uuid, old(orchestrator.State()), plans,
                                       clock);
              && orchestrator.State() == run.world
              && outcome == if run.stopped.Some? then Raised(run.stopped.value)
                            else Returned(RecoverySummary(|plans|, |run.results|, |run.skipped|, run.results,
                                                          run.skipped))
    {
      hide Plans, RunRecoveries;
      var plans := ListPlans(symbol, true);
      plans := Filter(plans, WithIds(tradeIds));
      plans := Take(plans, limit);
      var results, skipped, stopped := ExecutePlans(orchestrator, plans, clock);
      if stopped.Some? {
        return Raised(stopped.value);
      }
      return Returned(RecoverySummary(|plans|, |results|, |skipped|, results, skipped));
    }
  }

  lemma {:induction false} RunStops(cfg: ExecutionConfig, uuid: Ids, w: World, plans: seq<RecoveryPlan>,
                                    clock: nat -> Time, n: nat)
    requires n <= |plans| && RunRecoveries(cfg, uuid, w, plans[..n], clock).stopped.Some?
    ensures RunRecoveries(cfg, uuid, w, plans, clock) == RunRecoveries(cfg, uuid, w, plans[..n], clock)
  {
    if n == |plans| {
      assert plans[..n] == plans;
    } else {
      assert plans[..|plans| - 1][..n] == plans[..n];
      RunStops(cfg, uuid, w, plans[..|plans| - 1], clock, n);
    }
  }
}
