/** What one orchestrator call does to the ledger, the audit log, the breaker and the
    exchange adapter, as functions of the state before the call. */
module Execution {
  import opened Options
  import opened Ledger
  import opened Audit
  import opened CircuitBreaker
  import opened Decimals

  datatype ExecutionIntentRequest = ExecutionIntentRequest(
    tradeId: string,
    mode: TradeMode,
    strategyId: string,
    symbol: string,
    action: Action,
    spotNotional: real,
    perpNotional: real,
    spotQuantity: Option<real>,
    perpQuantity: Option<real>,
    realizedPnl: real,
    netExposure: Option<real>,
    notes: Option<string>,
    simulatePerpLegFailure: bool)

  datatype RecoveryAction = ResumeOpen | ResumeClose

  /** Callers tell `ValueError` from every other exception. */
  datatype Error = ValueError(text: string) | OtherError(text: string)

  datatype Outcome<+T> = Returned(value: T) | Raised(error: Error)

  datatype LegReport = LegReport(leg: Leg, status: LegStatus, payload: Payload)

  /** What the exchange adapter does when it is called: anything at all. */
  datatype AdapterAnswer = Answers(reports: seq<LegReport>) | Raises(error: Error)

  datatype Side = Buy | Sell

  /** What the adapter is asked to do; only a rebalance that shrinks the short perp leg is
      reduce-only. */
  datatype AdapterOrder =
    | PlaceOpen(request: ExecutionIntentRequest)
    | PlaceClose(request: ExecutionIntentRequest)
    | MovePerp(symbol: string, side: Side, quantity: real, reduceOnly: bool)

  /** A call made to the adapter, with the breaker state stored at that moment. */
  datatype AdapterCall = AdapterCall(order: AdapterOrder, tradeId: string, gate: BreakerState)

  function MoveFor(symbol: string, delta: real, quantity: real): AdapterOrder
  {
    MovePerp(symbol, if delta > 0.0 then Sell else Buy, quantity, delta < 0.0)
  }

  datatype ExecutionResult = ExecutionResult(
    tradeId: string,
    action: Action,
    mode: TradeMode,
    symbol: string,
    status: TradeStatus,
    ledgerRecord: TradeLedgerRecord,
    events: seq<AuditEventRecord>,
    executedAt: Time)

  datatype ExecutionConfig = ExecutionConfig(
    liveExecutionEnabled: bool,
    liveSymbolAllowlist: set<string>,
    maxLiveNotional: Option<real>,
    hasAdapter: bool,
    hasBreaker: bool,
    breaker: BreakerConfig)

  /** Everything the orchestrator's calls read and write. `script` holds the adapter's
      future answers; once it is used up every further call raises. */
  datatype World = World(
    ledger: seq<TradeLedgerRecord>,
    log: seq<AuditEventRecord>,
    journal: Journal,
    script: seq<AdapterAnswer>,
    calls: seq<AdapterCall>)

  datatype StepResult = StepResult(world: World, outcome: Outcome<ExecutionResult>)

  function NextAnswer(script: seq<AdapterAnswer>): AdapterAnswer
  {
    if script == [] then Raises(OtherError("adapter unavailable")) else script[0]
  }

  function LaterAnswers(script: seq<AdapterAnswer>): seq<AdapterAnswer>
  {
    if script == [] then [] else script[1..]
  }

  /** `request.notes or existing.notes`: an empty note counts as none. */
  function OrNotes(given: Option<string>, existing: Option<string>): Option<string>
  {
    if given.Some? && given.value != "" then given else existing
  }

  function IntentDraft(request: ExecutionIntentRequest, now: Time): Draft
  {
    Draft(IntentReceived, now, Payload(Some(request.tradeId), Some(request.action), None, NoOrder, None))
  }

  /** `{"trade_id": trade_id, **report.payload}`. */
  function LegPayload(tradeId: string, payload: Payload): Payload
  {
    if payload.tradeId.None? then payload.(tradeId := Some(tradeId)) else payload
  }

  function LegDraft(phase: LegPhase, tradeId: string, report: LegReport, at: Time): Draft
  {
    Draft(LiveLeg(phase, report.leg, report.status), at, LegPayload(tradeId, report.payload))
  }

  /** One event a leg, a millisecond apart. */
  function LegDrafts(phase: LegPhase, tradeId: string, reports: seq<LegReport>, now: Time): seq<Draft>
  {
    if reports == [] then []
    else
      LegDrafts(phase, tradeId, reports[..|reports| - 1], now)
      + [LegDraft(phase, tradeId, reports[|reports| - 1], now + |reports| * MILLISECOND)]
  }

  predicate AnyLeg(reports: seq<LegReport>, status: LegStatus)
  {
    exists r :: r in reports && r.status == status
  }

  /** failed beats partial beats success; submitted legs count as success. */
  function LiveStatus(reports: seq<LegReport>, success: TradeStatus): TradeStatus
  {
    if AnyLeg(reports, LegFailed) then Failed
    else if AnyLeg(reports, Partial) then RecoveryPending
    else success
  }

  function ResolveNetExposure(request: ExecutionIntentRequest): real
  {
    if request.netExposure.Some? then request.netExposure.value
    else Round4(request.spotNotional - request.perpNotional)
  }

  function NewRecord(request: ExecutionIntentRequest, now: Time, status: TradeStatus): TradeLedgerRecord
  {
    TradeLedgerRecord(request.tradeId, request.mode, request.strategyId, request.symbol, status, now, None,
                      ResolveNetExposure(request), request.spotNotional, request.perpNotional, 0.0, request.notes)
  }

  function ResultFor(request: ExecutionIntentRequest, record: TradeLedgerRecord, at: Time): ExecutionResult
  {
    ExecutionResult(request.tradeId, request.action, request.mode, request.symbol, record.status, record, [], at)
  }

  // ---- the effect of one call, before the breaker's book-keeping -------------

  /** `saved` is the last record saved, if any; saves before it under the same id are
      overwritten by it. The result's own event list is filled in by `Land`. */
  datatype Body = Body(
    saved: Option<TradeLedgerRecord>,
    drafts: seq<Draft>,
    call: Option<AdapterOrder>,
    outcome: Outcome<ExecutionResult>)

  function Land(uuid: Ids, w: World, tradeId: string, gate: BreakerState, body: Body): World
  {
    World(if body.saved.Some? then Put(w.ledger, body.saved.value) else w.ledger,
          Emit(uuid, w.log, body.drafts),
          w.journal,
          if body.call.Some? then LaterAnswers(w.script) else w.script,
          if body.call.Some? then w.calls + [AdapterCall(body.call.value, tradeId, gate)] else w.calls)
  }

  function PaperOpen(request: ExecutionIntentRequest, now: Time): Body
  {
    if request.simulatePerpLegFailure then
      var record := NewRecord(request, now, Failed);
      Body(Some(record),
           [IntentDraft(request, now),
            Draft(SpotFilled, now + MILLISECOND, TradePayload(request.tradeId)),
            Draft(PerpFailed, now + 2 * MILLISECOND, TradePayload(request.tradeId)),
            Draft(RecoveryRequired, now + 3 * MILLISECOND, StatusPayload(request.tradeId, Failed))],
           None, Returned(ResultFor(request, record, now + 3 * MILLISECOND)))
    else
      var record := NewRecord(request, now, Hedged);
      Body(Some(record),
           [IntentDraft(request, now),
            Draft(SpotFilled, now + MILLISECOND, TradePayload(request.tradeId)),
            Draft(PerpFilled, now + 2 * MILLISECOND, TradePayload(request.tradeId)),
            Draft(OpenCompleted, now + 3 * MILLISECOND, StatusPayload(request.tradeId, Hedged))],
           None, Returned(ResultFor(request, record, now + 3 * MILLISECOND)))
  }

  function NotInLedger(tradeId: string): Error
  {
    ValueError("trade '" + tradeId + "' not found in ledger")
  }

  function PaperClose(w: World, request: ExecutionIntentRequest, now: Time): Body
  {
    var existing := Find(w.ledger, request.tradeId);
    if existing.None? then Body(None, [], None, Raised(NotInLedger(request.tradeId)))
    else
      var record := existing.value.(status := Closed, closedAt := Some(now + 2 * MILLISECOND),
                                    realizedPnl := request.realizedPnl,
                                    notes := OrNotes(request.notes, existing.value.notes));
      Body(Some(record),
           [IntentDraft(request, now),
            Draft(CloseStarted, now + MILLISECOND, TradePayload(request.tradeId)),
            Draft(CloseCompleted, now + 2 * MILLISECOND, TradePayload(request.tradeId))],
           None, Returned(ResultFor(request, record, now + 2 * MILLISECOND)))
  }

  /** The event that ends a live open or close. */
  function LiveEnd(tradeId: string, status: TradeStatus, at: Time): Draft
  {
    if NeedsRecovery(status) then Draft(RecoveryRequired, at, StatusPayload(tradeId, status))
    else if status == Closed then Draft(CloseCompleted, at, TradePayload(tradeId))
    else Draft(OpenCompleted, at, StatusPayload(tradeId, status))
  }

  function LiveOpen(w: World, request: ExecutionIntentRequest, now: Time): Body
  {
    var candidate := NewRecord(request, now, Candidate);
    match NextAnswer(w.script)
    case Raises(error) =>
      Body(Some(candidate), [IntentDraft(request, now)], Some(PlaceOpen(request)), Raised(error))
    case Answers(reports) =>
      var at := now + (|reports| + 1) * MILLISECOND;
      var record := candidate.(status := LiveStatus(reports, Hedged));
      Body(Some(record),
           [IntentDraft(request, now)] + LegDrafts(OpenPhase, request.tradeId, reports, now)
           + [LiveEnd(request.tradeId, record.status, at)],
           Some(PlaceOpen(request)), Returned(ResultFor(request, record, at)))
  }

  function LiveClose(w: World, request: ExecutionIntentRequest, now: Time): Body
  {
    var existing := Find(w.ledger, request.tradeId);
    if existing.None? then Body(None, [], None, Raised(NotInLedger(request.tradeId)))
    else
      var closing := existing.value.(status := Closing);
      match NextAnswer(w.script)
      case Raises(error) =>
        Body(Some(closing), [IntentDraft(request, now)], Some(PlaceClose(request)), Raised(error))
      case Answers(reports) =>
        var at := now + (|reports| + 1) * MILLISECOND;
        var status := LiveStatus(reports, Closed);
        var record := closing.(status := status,
                               closedAt := if status == Closed then Some(at) else None,
                               realizedPnl := request.realizedPnl, notes := OrNotes(request.notes, closing.notes));
        Body(Some(record),
             [IntentDraft(request, now)] + LegDrafts(ClosePhase, request.tradeId, reports, now)
             + [LiveEnd(request.tradeId, status, at)],
             Some(PlaceClose(request)), Returned(ResultFor(request, record, at)))
  }

  function LiveBody(cfg: ExecutionConfig, w: World, request: ExecutionIntentRequest, now: Time): Body
  {
    if !cfg.hasAdapter then
      Body(None, [], None, Raised(ValueError("live execution adapter is not configured")))
    else if request.action == OpenHedge then LiveOpen(w, request, now)
    else LiveClose(w, request, now)
  }

  // ---- breaker hooks ----------------------------------------------------------

  function GateJournal(cfg: ExecutionConfig, journal: Journal, now: Time): Journal
  {
    if cfg.hasBreaker then Polled(cfg.breaker, journal, now) else journal
  }

  predicate GateShut(cfg: ExecutionConfig, journal: Journal, now: Time)
  {
    cfg.hasBreaker && cfg.breaker.enabled && Current(cfg.breaker, journal, now).isOpen
  }

  const GATE_ERROR := ValueError("live execution circuit breaker is open")

  function BlockedWorld(cfg: ExecutionConfig, uuid: Ids, w: World, tradeId: string, now: Time): World
  {
    w.(journal := GateJournal(cfg, w.journal, now),
       log := Emit(uuid, w.log, [Draft(BreakerBlocked, now, TradePayload(tradeId))]))
  }

  function NoteFailure(cfg: ExecutionConfig, uuid: Ids, w: World, tradeId: string, at: Time, reason: string): World
  {
    if !cfg.hasBreaker then w
    else
      var before := Current(cfg.breaker, w.journal, at);
      var journal := AfterFailure(cfg.breaker, w.journal, at, tradeId, reason);
      var trips := !before.isOpen && Load(cfg.breaker, journal).isOpen;
      w.(journal := journal,
         log := if trips then Emit(uuid, w.log, [Draft(BreakerOpened, at, TradePayload(tradeId))]) else w.log)
  }

  function NoteSuccess(cfg: ExecutionConfig, uuid: Ids, w: World, tradeId: string, at: Time): World
  {
    if !cfg.hasBreaker then w
    else
      var before := Current(cfg.breaker, w.journal, at);
      var journal := AfterSuccess(cfg.breaker, w.journal, at, tradeId);
      var reset := before.consecutiveFailures > 0 && Load(cfg.breaker, journal).consecutiveFailures == 0;
      w.(journal := journal,
         log := if reset then Emit(uuid, w.log, [Draft(BreakerReset, at, TradePayload(tradeId))]) else w.log)
  }

  function ActionText(action: Action): string
  {
    match action
    case OpenHedge => "open_hedge"
    case CloseHedge => "close_hedge"
    case RebalanceHedge => "rebalance_hedge"
  }

  predicate NeedsRecovery(status: TradeStatus)
  {
    status == Failed || status == RecoveryPending
  }

  function EndedReason(action: Action, status: TradeStatus): string
  {
    "live " + ActionText(action) + " ended with status " + if status == Failed then "failed" else "recovery_pending"
  }

  function NoteResult(cfg: ExecutionConfig, uuid: Ids, w: World, result: ExecutionResult): World
  {
    if NeedsRecovery(result.status) then
      NoteFailure(cfg, uuid, w, result.tradeId, result.executedAt, EndedReason(result.action, result.status))
    else
      NoteSuccess(cfg, uuid, w, result.tradeId, result.executedAt)
  }

  // ---- the three public calls -------------------------------------------------

  predicate NotionalAllowed(cfg: ExecutionConfig, symbol: string, notional: real)
  {
    && cfg.liveExecutionEnabled
    && (cfg.liveSymbolAllowlist != {} ==> symbol in cfg.liveSymbolAllowlist)
    && (cfg.maxLiveNotional.Some? ==> notional <= cfg.maxLiveNotional.value)
  }

  function Refusal(cfg: ExecutionConfig, symbol: string): Error
  {
    if !cfg.liveExecutionEnabled then ValueError("live execution is disabled")
    else if cfg.liveSymbolAllowlist != {} && symbol !in cfg.liveSymbolAllowlist then
      ValueError("symbol '" + symbol + "' is not in live execution allowlist")
    else ValueError("requested notional exceeds configured live notional limit")
  }

  /** An intent for a trade that is already there and needs nothing done. */
  predicate IsReplay(w: World, request: ExecutionIntentRequest)
  {
    var existing := Find(w.ledger, request.tradeId);
    && existing.Some?
    && (|| (request.action == OpenHedge && existing.value.status in {Open, Hedged, Closing, Closed, RecoveryPending})
        || (request.action == CloseHedge && existing.value.status == Closed))
  }

  function Finish(uuid: Ids, w: World, tradeId: string, gate: BreakerState, body: Body): StepResult
  {
    var landed := Land(uuid, w, tradeId, gate, body);
    StepResult(landed,
               if body.outcome.Returned? then
                 Returned(body.outcome.value.(events := Stamped(uuid, |w.log|, body.drafts)))
               else body.outcome)
  }

  /** How a call's effect is recognised field by field. */
  lemma FinishIs(uuid: Ids, w: World, tradeId: string, gate: BreakerState, body: Body, after: World)
    requires after.ledger == if body.saved.Some? then Put(w.ledger, body.saved.value) else w.ledger
    requires after.log == Emit(uuid, w.log, body.drafts)
    requires after.journal == w.journal
    requires after.script == if body.call.Some? then LaterAnswers(w.script) else w.script
    requires after.calls == if body.call.Some? then w.calls + [AdapterCall(body.call.value, tradeId, gate)] else w.calls
    ensures Finish(uuid, w, tradeId, gate, body)
         == StepResult(after,
                       if body.outcome.Returned? then
                         Returned(body.outcome.value.(events := Stamped(uuid, |w.log|, body.drafts)))
                       else body.outcome)
  {
  }

  function ExecuteLive(cfg: ExecutionConfig, uuid: Ids, w: World, request: ExecutionIntentRequest,
                       now: Time): StepResult
  {
    if !NotionalAllowed(cfg, request.symbol, Max(request.spotNotional, request.perpNotional)) then
      StepResult(w, Raised(Refusal(cfg, request.symbol)))
    else if GateShut(cfg, w.journal, now) then
      StepResult(BlockedWorld(cfg, uuid, w, request.tradeId, now), Raised(GATE_ERROR))
    else
      var open := w.(journal := GateJournal(cfg, w.journal, now));
      var step := Finish(uuid, open, request.tradeId, Load(cfg.breaker, open.journal),
                         LiveBody(cfg, open, request, now));
      match step.outcome
      case Raised(error) =>
        StepResult(NoteFailure(cfg, uuid, step.world, request.tradeId, now, error.text), step.outcome)
      case Returned(result) =>
        StepResult(NoteResult(cfg, uuid, step.world, result), step.outcome)
  }

  function Execute(cfg: ExecutionConfig, uuid: Ids, w: World, request: ExecutionIntentRequest, now: Time,
                   safe: bool): StepResult
  {
    if IsReplay(w, request) then
      var existing := Find(w.ledger, request.tradeId).value;
      Finish(uuid, w, request.tradeId, Load(cfg.breaker, w.journal),
             Body(None, [Draft(IdempotentReplay, now, StatusPayload(request.tradeId, existing.status))], None,
                  Returned(ResultFor(request, existing, now))))
    else if !safe then
      StepResult(w, Raised(ValueError("blocked by the safety service")))
    else if request.mode == Live then
      ExecuteLive(cfg, uuid, w, request, now)
    else
      Finish(uuid, w, request.tradeId, Load(cfg.breaker, w.journal),
             if request.action == OpenHedge then PaperOpen(request, now) else PaperClose(w, request, now))
  }

  function RecoverBody(w: World, tradeId: string, action: RecoveryAction, notes: Option<string>, now: Time): Body
  {
    var existing := Find(w.ledger, tradeId);
    if existing.None? then Body(None, [], None, Raised(NotInLedger(tradeId)))
    else if !NeedsRecovery(existing.value.status) then
      Body(None, [], None, Raised(ValueError("trade '" + tradeId + "' is not in recoverable state")))
    else
      var found := existing.value;
      var started := Draft(RecoveryStarted, now, TradePayload(tradeId));
      var end := now + 2 * MILLISECOND;
      match action
      case ResumeOpen =>
        var record := found.(status := Hedged, notes := OrNotes(notes, found.notes));
        Body(Some(record),
             [started, Draft(RecoveryPerpFilled, now + MILLISECOND, TradePayload(tradeId)),
              Draft(RecoveryCompleted, end, StatusPayload(tradeId, Hedged))],
             None,
             Returned(ExecutionResult(tradeId, OpenHedge, found.mode, found.symbol, Hedged, record, [], end)))
      case ResumeClose =>
        var record := found.(status := Closed, closedAt := Some(end), notes := OrNotes(notes, found.notes));
        Body(Some(record),
             [started, Draft(RecoveryCompleted, end, StatusPayload(tradeId, Closed))],
             None,
             Returned(ExecutionResult(tradeId, CloseHedge, found.mode, found.symbol, Closed, record, [], end)))
  }

  function Recover(cfg: ExecutionConfig, uuid: Ids, w: World, tradeId: string, action: RecoveryAction,
                   notes: Option<string>, now: Time): StepResult
  {
    Finish(uuid, w, tradeId, Load(cfg.breaker, w.journal), RecoverBody(w, tradeId, action, notes, now))
  }

  predicate Rebalancable(w: World, tradeId: string, delta: real, quantity: real)
  {
    var existing := Find(w.ledger, tradeId);
    && existing.Some?
    && existing.value.status in {Hedged, Open}
    && quantity > 0.0
    && delta != 0.0
  }

  function RebalanceRefusal(w: World, tradeId: string, quantity: real): Error
  {
    var existing := Find(w.ledger, tradeId);
    if existing.None? then NotInLedger(tradeId)
    else if existing.value.status !in {Hedged, Open} then
      ValueError("trade '" + tradeId + "' is not in rebalancable state")
    else if quantity <= 0.0 then ValueError("rebalance_hedge requires positive perp_quantity")
    else ValueError("rebalance_hedge requires non-zero perp_notional_delta")
  }

  /** The record after `delta` of perp notional has been added to the hedge. */
  function Rebalanced(record: TradeLedgerRecord, delta: real, notes: Option<string>): TradeLedgerRecord
  {
    record.(status := Hedged,
            perpNotional := Round4(record.perpNotional + delta),
            netExposure := Round4(record.netExposure - delta),
            notes := OrNotes(notes, record.notes))
  }

  function RebalanceResult(record: TradeLedgerRecord, now: Time): ExecutionResult
  {
    ExecutionResult(record.tradeId, RebalanceHedge, record.mode, record.symbol, record.status, record, [],
                    now + 2 * MILLISECOND)
  }

  function RebalanceStart(tradeId: string, now: Time): Draft
  {
    Draft(RebalanceStarted, now, TradePayload(tradeId))
  }

  function RebalanceDone(found: TradeLedgerRecord, delta: real, notes: Option<string>, now: Time,
                         drafts: seq<Draft>, call: Option<AdapterOrder>): Body
  {
    var record := Rebalanced(found, delta, notes);
    Body(Some(record),
         drafts + [Draft(RebalanceCompleted, now + 2 * MILLISECOND, StatusPayload(found.tradeId, Hedged))],
         call, Returned(RebalanceResult(record, now)))
  }

  /** What the adapter's answer to the perp order makes of a live rebalance. */
  function LiveRebalance(w: World, found: TradeLedgerRecord, delta: real, quantity: real, notes: Option<string>,
                         now: Time): Body
  {
    var start := RebalanceStart(found.tradeId, now);
    var order := MoveFor(found.symbol, delta, quantity);
    match NextAnswer(w.script)
    case Raises(error) => Body(None, [start], Some(order), Raised(error))
    case Answers(reports) =>
      if reports == [] then Body(None, [start], Some(order), Raised(OtherError("no leg report")))
      else
        var leg := LegDraft(RebalancePhase, found.tradeId, reports[0], now + MILLISECOND);
        if reports[0].status == Filled then
          RebalanceDone(found, delta, notes, now, [start] + [leg], Some(order))
        else
          var status := if reports[0].status == LegFailed then Failed else RecoveryPending;
          var record := found.(status := status, notes := OrNotes(notes, found.notes));
          Body(Some(record),
               [start] + [leg] + [Draft(RecoveryRequired, now + 2 * MILLISECOND, StatusPayload(found.tradeId, status))],
               Some(order), Returned(RebalanceResult(record, now)))
  }

  /** A rebalance of a live trade that passed the entry checks; its start event is logged
      whatever the later checks say. */
  function RebalanceOnExchange(cfg: ExecutionConfig, uuid: Ids, w: World, found: TradeLedgerRecord, delta: real,
                               quantity: real, notes: Option<string>, now: Time): StepResult
  {
    var announced := w.(log := Emit(uuid, w.log, [RebalanceStart(found.tradeId, now)]));
    if !NotionalAllowed(cfg, found.symbol, Abs(delta)) then
      StepResult(announced, Raised(Refusal(cfg, found.symbol)))
    else if GateShut(cfg, w.journal, now) then
      StepResult(BlockedWorld(cfg, uuid, announced, found.tradeId, now), Raised(GATE_ERROR))
    else if !cfg.hasAdapter then
      StepResult(announced.(journal := GateJournal(cfg, w.journal, now)),
                 Raised(ValueError("live execution adapter is not configured")))
    else
      var open := w.(journal := GateJournal(cfg, w.journal, now));
      var step := Finish(uuid, open, found.tradeId, Load(cfg.breaker, open.journal),
                         LiveRebalance(open, found, delta, quantity, notes, now));
      match step.outcome
      case Raised(error) =>
        StepResult(NoteFailure(cfg, uuid, step.world, found.tradeId, now, error.text), step.outcome)
      case Returned(result) =>
        StepResult(NoteResult(cfg, uuid, step.world, result), step.outcome)
  }

  function RebalanceFound(cfg: ExecutionConfig, uuid: Ids, w: World, found: TradeLedgerRecord, delta: real,
                          quantity: real, notes: Option<string>, now: Time): StepResult
  {
    if found.mode == Live then RebalanceOnExchange(cfg, uuid, w, found, delta, quantity, notes, now)
    else
      Finish(uuid, w, found.tradeId, Load(cfg.breaker, w.journal),
             RebalanceDone(found, delta, notes, now, [RebalanceStart(found.tradeId, now)], None))
  }

  function Rebalance(cfg: ExecutionConfig, uuid: Ids, w: World, tradeId: string, delta: real, quantity: real,
                     notes: Option<string>, now: Time): StepResult
  {
    if !Rebalancable(w, tradeId, delta, quantity) then StepResult(w, Raised(RebalanceRefusal(w, tradeId, quantity)))
    else RebalanceFound(cfg, uuid, w, Find(w.ledger, tradeId).value, delta, quantity, notes, now)
  }
}
