/** The orchestrator itself: it saves record after record, appends event after event and
    pokes the breaker; every public call is proved to have the effect `Execution` states. */
module Orchestration {
  import opened Options
  import opened Lists
  import opened Ledger
  import opened Audit
  import opened CircuitBreaker
  import opened Execution
  import opened Decimals

  /** The exchange adapter seen from the orchestrator: it answers from a script nobody
      controls, or raises. */
  class LiveExecutionAdapter {
    var script: seq<AdapterAnswer>
    ghost var calls: seq<AdapterCall>

    constructor (script: seq<AdapterAnswer>)
      ensures this.script == script && calls == []
    {
      this.script := script;
      calls := [];
    }

    method Place(order: AdapterOrder, tradeId: string, ghost gate: BreakerState) returns (answer: AdapterAnswer)
      modifies this
      ensures answer == NextAnswer(old(script)) && script == LaterAnswers(old(script))
      ensures calls == old(calls) + [AdapterCall(order, tradeId, gate)]
    {
      calls := calls + [AdapterCall(order, tradeId, gate)];
      if |script| == 0 {
        return Raises(OtherError("adapter unavailable"));
      }
      answer := script[0];
      script := script[1..];
    }
  }

  class ExecutionOrchestrator {
    const ledger: TradeLedgerService
    const audit: AuditEventService
    const adapter: LiveExecutionAdapter
    const breaker: ExecutionCircuitBreakerService
    /** The adapter and the breaker are optional; false here is Python's None there. */
    const hasAdapter: bool
    const hasBreaker: bool
    const liveExecutionEnabled: bool
    const liveSymbolAllowlist: set<string>
    const maxLiveNotional: Option<real>

    constructor (ledger: TradeLedgerService, audit: AuditEventService,
                 adapter: LiveExecutionAdapter, hasAdapter: bool,
                 breaker: ExecutionCircuitBreakerService, hasBreaker: bool,
                 liveExecutionEnabled: bool, liveSymbolAllowlist: set<string>, maxLiveNotional: Option<real>)
      ensures this.ledger == ledger && this.audit == audit && this.adapter == adapter && this.breaker == breaker
      ensures Config() == ExecutionConfig(liveExecutionEnabled, liveSymbolAllowlist, maxLiveNotional,
                                          hasAdapter, hasBreaker, breaker.cfg)
    {
      this.ledger := ledger;
      this.audit := audit;
      this.adapter := adapter;
      this.hasAdapter := hasAdapter;
      this.breaker := breaker;
      this.hasBreaker := hasBreaker;
      this.liveExecutionEnabled := liveExecutionEnabled;
      this.liveSymbolAllowlist := liveSymbolAllowlist;
      this.maxLiveNotional := maxLiveNotional;
    }

    ghost function Config(): ExecutionConfig
    {
      ExecutionConfig(liveExecutionEnabled, liveSymbolAllowlist, maxLiveNotional, hasAdapter, hasBreaker, breaker.cfg)
    }

    ghost function State(): World
      reads ledger, audit, breaker, adapter
    {
      World(ledger.records, audit.events, breaker.saves, adapter.script, adapter.calls)
    }

    ghost function Gate(): BreakerState
      reads breaker
    {
      Load(breaker.cfg, breaker.saves)
    }

    /** Since the call began with log `base` it recorded exactly `drafts`, listed in `events`. */
    ghost predicate Logged(base: seq<AuditEventRecord>, drafts: seq<Draft>, events: seq<AuditEventRecord>)
      reads audit
    {
      audit.events == base + events && events == Stamped(audit.uuid, |base|, drafts)
    }

    lemma NothingLogged()
      ensures Logged(audit.events, [], [])
    {
    }

    /** Records one event and extends the call's own event list by it. */
    method RecordEvent(ghost base: seq<AuditEventRecord>, ghost drafts: seq<Draft>, draft: Draft,
                       events: seq<AuditEventRecord>)
      returns (listed: seq<AuditEventRecord>)
      requires Logged(base, drafts, events)
      modifies audit
      ensures Logged(base, drafts + [draft], listed)
    {
      StampedAppend(audit.uuid, |base|, drafts, [draft]);
      StampedOne(audit.uuid, |base| + |drafts|, draft);
      var event := audit.RecordEvent(draft);
      listed := events + [event];
      ConcatAssociates(base, events, [event]);
    }

    method Execute(request: ExecutionIntentRequest, now: Time, safe: bool) returns (outcome: Outcome<ExecutionResult>)
      modifies ledger, audit, breaker, adapter
      ensures State() == Execution.Execute(Config(), audit.uuid, old(State()), request, now, safe).world
      ensures outcome == Execution.Execute(Config(), audit.uuid, old(State()), request, now, safe).outcome
    {
      var replay := HandleIdempotentReplay(request, now);
      if replay.Some? {
        return Returned(replay.value);
      }
      if !safe {
        return Raised(ValueError("blocked by the safety service"));
      }
      if request.mode == Live {
        outcome := ExecuteLive(request, now);
      } else if request.action == OpenHedge {
        var result := ExecuteOpen(request, now);
        return Returned(result);
      } else {
        outcome := ExecuteClose(request, now);
      }
    }

    method HandleIdempotentReplay(request: ExecutionIntentRequest, now: Time) returns (replay: Option<ExecutionResult>)
      modifies ledger, audit, breaker, adapter
      ensures replay.Some? <==> IsReplay(old(State()), request)
      ensures replay.None? ==> State() == old(State())
      ensures replay.Some? ==>
                StepResult(State(), Returned(replay.value))
                == Execution.Execute(Config(), audit.uuid, old(State()), request, now, true)
                == Execution.Execute(Config(), audit.uuid, old(State()), request, now, false)
    {
      var existing := ledger.GetRecord(request.tradeId);
      if existing.None? {
        return None;
      }
      if (request.action == OpenHedge && existing.value.status in {Open, Hedged, Closing, Closed, RecoveryPending})
         || (request.action == CloseHedge && existing.value.status == Closed) {
        var draft := Draft(IdempotentReplay, now, StatusPayload(request.tradeId, existing.value.status));
        NothingLogged();
        var events := RecordEvent(audit.events, [], draft, []);
        assert [] + [draft] == [draft];
        return Some(ResultFor(request, existing.value, now).(events := events));
      }
      return None;
    }

    method ExecuteLive(request: ExecutionIntentRequest, now: Time) returns (outcome: Outcome<ExecutionResult>)
      modifies ledger, audit, breaker, adapter
      ensures State() == Execution.ExecuteLive(Config(), audit.uuid, old(State()), request, now).world
      ensures outcome == Execution.ExecuteLive(Config(), audit.uuid, old(State()), request, now).outcome
    {
      EmitNone(audit.uuid, audit.events);
      hide Stamped, Put, Find, LiveOpen, LiveClose, NoteFailure, NoteSuccess, NotionalAllowed, Refusal, GateShut,
           GateJournal, BlockedWorld;
      var refusal := ValidateLiveRequest(request.symbol, Max(request.spotNotional, request.perpNotional));
      if refusal.Some? {
        return Raised(refusal.value);
      }
      var allowed := EnsureLiveExecutionAllowed(request.tradeId, now);
      if !allowed {
        return Raised(GATE_ERROR);
      }
      if !hasAdapter {
        outcome := Raised(ValueError("live execution adapter is not configured"));
      } else if request.action == OpenHedge {
        outcome := ExecuteLiveOpen(request, now);
      } else {
        outcome := ExecuteLiveClose(request, now);
      }
      if outcome.Raised? {
        RecordLiveCircuitBreakerFailure(request.tradeId, now, outcome.error.text);
      } else {
        UpdateLiveCircuitBreakerAfterResult(outcome.value);
      }
    }

    /** The static limits on live trading; None when the request passes all of them. */
    method ValidateLiveRequest(symbol: string, notional: real) returns (refusal: Option<Error>)
      ensures refusal == if NotionalAllowed(Config(), symbol, notional) then None else Some(Refusal(Config(), symbol))
    {
      if !liveExecutionEnabled {
        return Some(ValueError("live execution is disabled"));
      }
      if liveSymbolAllowlist != {} && symbol !in liveSymbolAllowlist {
        return Some(ValueError("symbol '" + symbol + "' is not in live execution allowlist"));
      }
      if maxLiveNotional.Some? && notional > maxLiveNotional.value {
        return Some(ValueError("requested notional exceeds configured live notional limit"));
      }
      return None;
    }

    method EnsureLiveExecutionAllowed(tradeId: string, now: Time) returns (allowed: bool)
      modifies ledger, audit, breaker, adapter
      ensures allowed <==> !GateShut(Config(), old(breaker.saves), now)
      ensures State() == if allowed then old(State()).(journal := GateJournal(Config(), old(breaker.saves), now))
                         else BlockedWorld(Config(), audit.uuid, old(State()), tradeId, now)
    {
      if !hasBreaker {
        return true;
      }
      allowed := breaker.EnsureAllowsExecution(now);
      if !allowed {
        var event := audit.RecordEvent(Draft(BreakerBlocked, now, TradePayload(tradeId)));
      }
    }

    method RecordLiveCircuitBreakerFailure(tradeId: string, at: Time, reason: string)
      modifies ledger, audit, breaker, adapter
      ensures State() == NoteFailure(Config(), audit.uuid, old(State()), tradeId, at, reason)
    {
      if !hasBreaker {
        return;
      }
      PolledTwice(breaker.cfg, breaker.saves, at);
      var previous := breaker.GetState(at);
      var current := breaker.RecordFailure(tradeId, reason, at);
      if !previous.isOpen && current.isOpen {
        var event := audit.RecordEvent(Draft(BreakerOpened, at, TradePayload(tradeId)));
      }
    }

    method UpdateLiveCircuitBreakerAfterResult(result: ExecutionResult)
      modifies ledger, audit, breaker, adapter
      ensures State() == NoteResult(Config(), audit.uuid, old(State()), result)
    {
      if !hasBreaker {
        return;
      }
      if result.status == Failed || result.status == RecoveryPending {
        RecordLiveCircuitBreakerFailure(result.tradeId, result.executedAt, EndedReason(result.action, result.status));
        return;
      }
      PolledTwice(breaker.cfg, breaker.saves, result.executedAt);
      var previous := breaker.GetState(result.executedAt);
      var current := breaker.RecordSuccess(result.tradeId, result.executedAt);
      if previous.consecutiveFailures > 0 && current.consecutiveFailures == 0 {
        var event := audit.RecordEvent(Draft(BreakerReset, result.executedAt, TradePayload(result.tradeId)));
      }
    }

    method ExecuteOpen(request: ExecutionIntentRequest, now: Time) returns (result: ExecutionResult)
      modifies ledger, audit, breaker, adapter
      ensures State() == Finish(audit.uuid, old(State()), request.tradeId, old(Gate()), PaperOpen(request, now)).world
      ensures Returned(result)
           == Finish(audit.uuid, old(State()), request.tradeId, old(Gate()), PaperOpen(request, now)).outcome
    {
      NothingLogged();
      hide Stamped, Put, ResolveNetExposure, Load, Finish;
      ghost var base, book := audit.events, ledger.records;
      var d0 := IntentDraft(request, now);
      var events := RecordEvent(base, [], d0, []);
      assert [] + [d0] == [d0];

      var record := TradeLedgerRecord(request.tradeId, request.mode, request.strategyId, request.symbol, Candidate,
                                      now, None, ResolveNetExposure(request), request.spotNotional,
                                      request.perpNotional, 0.0, request.notes);
      ledger.SaveRecord(record);
      ghost var first := record;
      record := record.(status := Open);
      ledger.SaveRecord(record);
      PutPut(book, first, record);
      ghost var second := record;
      var d1 := Draft(SpotFilled, now + MILLISECOND, TradePayload(request.tradeId));
      events := RecordEvent(base, [d0], d1, events);

      if request.simulatePerpLegFailure {
        record := record.(status := Failed);
        ledger.SaveRecord(record);
        PutPut(book, second, record);
        var d2 := Draft(PerpFailed, now + 2 * MILLISECOND, TradePayload(request.tradeId));
        var d3 := Draft(RecoveryRequired, now + 3 * MILLISECOND, StatusPayload(request.tradeId, Failed));
        events := RecordEvent(base, [d0] + [d1], d2, events);
        events := RecordEvent(base, [d0] + [d1] + [d2], d3, events);
        assert [d0] + [d1] + [d2] + [d3] == [d0, d1, d2, d3];
        FinishIs(audit.uuid, old(State()), request.tradeId, old(Gate()), PaperOpen(request, now), State());
        return ResultFor(request, record, now + 3 * MILLISECOND).(events := events);
      }

      record := record.(status := Hedged);
      ledger.SaveRecord(record);
      PutPut(book, second, record);
      var d2 := Draft(PerpFilled, now + 2 * MILLISECOND, TradePayload(request.tradeId));
      var d3 := Draft(OpenCompleted, now + 3 * MILLISECOND, StatusPayload(request.tradeId, Hedged));
      events := RecordEvent(base, [d0] + [d1], d2, events);
      events := RecordEvent(base, [d0] + [d1] + [d2], d3, events);
      assert [d0] + [d1] + [d2] + [d3] == [d0, d1, d2, d3];
      FinishIs(audit.uuid, old(State()), request.tradeId, old(Gate()), PaperOpen(request, now), State());
      return ResultFor(request, record, now + 3 * MILLISECOND).(events := events);
    }

    method ExecuteClose(request: ExecutionIntentRequest, now: Time) returns (outcome: Outcome<ExecutionResult>)
      modifies ledger, audit, breaker, adapter
      ensures State() == Finish(audit.uuid, old(State()), request.tradeId, old(Gate()),
                                PaperClose(old(State()), request, now)).world
      ensures outcome
           == Finish(audit.uuid, old(State()), request.tradeId, old(Gate()),
                     PaperClose(old(State()), request, now)).outcome
    {
      var existing := ledger.GetRecord(request.tradeId);
      if existing.None? {
        EmitNone(audit.uuid, audit.events);
        return Raised(NotInLedger(request.tradeId));
      }
      FindBelongs(ledger.records, request.tradeId);
      NothingLogged();
      hide Stamped, Put, Find, Load, Finish;
      ghost var base, book := audit.events, ledger.records;
      var d0 := IntentDraft(request, now);
      var events := RecordEvent(base, [], d0, []);
      assert [] + [d0] == [d0];
      var closing := existing.value.(status := Closing);
      ledger.SaveRecord(closing);
      var d1 := Draft(CloseStarted, now + MILLISECOND, TradePayload(request.tradeId));
      events := RecordEvent(base, [d0], d1, events);
      var closed := closing.(status := Closed, closedAt := Some(now + 2 * MILLISECOND),
                             realizedPnl := request.realizedPnl, notes := OrNotes(request.notes, closing.notes));
      ledger.SaveRecord(closed);
      PutPut(book, closing, closed);
      var d2 := Draft(CloseCompleted, now + 2 * MILLISECOND, TradePayload(request.tradeId));
      events := RecordEvent(base, [d0] + [d1], d2, events);
      assert [d0] + [d1] + [d2] == [d0, d1, d2];
      FinishIs(audit.uuid, old(State()), request.tradeId, old(Gate()), PaperClose(old(State()), request, now), State());
      return Returned(ResultFor(request, closed, now + 2 * MILLISECOND).(events := events));
    }

    method ExecuteLiveOpen(request: ExecutionIntentRequest, now: Time) returns (outcome: Outcome<ExecutionResult>)
      modifies ledger, audit, breaker, adapter
      ensures State() == Finish(audit.uuid, old(State()), request.tradeId, old(Gate()),
                                LiveOpen(old(State()), request, now)).world
      ensures outcome
           == Finish(audit.uuid, old(State()), request.tradeId, old(Gate()),
                     LiveOpen(old(State()), request, now)).outcome
    {
      NothingLogged();
      hide Stamped, Put, LegDrafts, LiveStatus, LiveEnd, ResolveNetExposure, Load, Finish;
      ghost var base, book := audit.events, ledger.records;
      ghost var body := LiveOpen(State(), request, now);
      var intent := IntentDraft(request, now);
      var events := RecordEvent(base, [], intent, []);
      assert [] + [intent] == [intent];
      var record := TradeLedgerRecord(request.tradeId, request.mode, request.strategyId, request.symbol, Candidate,
                                      now, None, ResolveNetExposure(request), request.spotNotional,
                                      request.perpNotional, 0.0, request.notes);
      ledger.SaveRecord(record);
      var answer := adapter.Place(PlaceOpen(request), request.tradeId, Gate());
      if answer.Raises? {
        FinishIs(audit.uuid, old(State()), request.tradeId, old(Gate()), body, State());
        return Raised(answer.error);
      }
      var status := LiveStatus(answer.reports, Hedged);
      var at := now + (|answer.reports| + 1) * MILLISECOND;
      events := SettleLive(base, book, OpenPhase, intent, record, record.(status := status), answer.reports, now,
                           events);
      FinishIs(audit.uuid, old(State()), request.tradeId, old(Gate()), body, State());
      return Returned(ResultFor(request, record.(status := status), at).(events := events));
    }

    method ExecuteLiveClose(request: ExecutionIntentRequest, now: Time) returns (outcome: Outcome<ExecutionResult>)
      modifies ledger, audit, breaker, adapter
      ensures State() == Finish(audit.uuid, old(State()), request.tradeId, old(Gate()),
                                LiveClose(old(State()), request, now)).world
      ensures outcome
           == Finish(audit.uuid, old(State()), request.tradeId, old(Gate()),
                     LiveClose(old(State()), request, now)).outcome
    {
      var existing := ledger.GetRecord(request.tradeId);
      if existing.None? {
        EmitNone(audit.uuid, audit.events);
        return Raised(NotInLedger(request.tradeId));
      }
      FindBelongs(ledger.records, request.tradeId);
      NothingLogged();
      hide Stamped, Put, Find, LegDrafts, LiveStatus, LiveEnd, Load, Finish;
      ghost var base, book := audit.events, ledger.records;
      ghost var body := LiveClose(State(), request, now);
      var intent := IntentDraft(request, now);
      var events := RecordEvent(base, [], intent, []);
      assert [] + [intent] == [intent];
      var closing := existing.value.(status := Closing);
      ledger.SaveRecord(closing);
      var answer := adapter.Place(PlaceClose(request), request.tradeId, Gate());
      if answer.Raises? {
        FinishIs(audit.uuid, old(State()), request.tradeId, old(Gate()), body, State());
        return Raised(answer.error);
      }
      var status := LiveStatus(answer.reports, Closed);
      var at := now + (|answer.reports| + 1) * MILLISECOND;
      var closed := closing.(status := status,
                             closedAt := if status != Closed then None else Some(at),
                             realizedPnl := request.realizedPnl, notes := OrNotes(request.notes, closing.notes));
      events := SettleLive(base, book, ClosePhase, intent, closing, closed, answer.reports, now, events);
      FinishIs(audit.uuid, old(State()), request.tradeId, old(Gate()), body, State());
      return Returned(ResultFor(request, closed, at).(events := events));
    }

    /** Logs one event per leg report, one millisecond apart. */
    method RecordLegs(ghost base: seq<AuditEventRecord>, ghost drafts: seq<Draft>, phase: LegPhase, tradeId: string,
                      reports: seq<LegReport>, now: Time, events: seq<AuditEventRecord>)
      returns (listed: seq<AuditEventRecord>)
      requires Logged(base, drafts, events)
      modifies audit
      ensures Logged(base, drafts + LegDrafts(phase, tradeId, reports, now), listed)
    {
      listed := events;
      var i := 0;
      assert drafts + LegDrafts(phase, tradeId, reports[..0], now) == drafts;
      while i < |reports|
        invariant 0 <= i <= |reports|
        invariant Logged(base, drafts + LegDrafts(phase, tradeId, reports[..i], now), listed)
      {
        ghost var done := LegDrafts(phase, tradeId, reports[..i], now);
        var draft := LegDraft(phase, tradeId, reports[i], now + (i + 1) * MILLISECOND);
        listed := RecordEvent(base, drafts + done, draft, listed);
        i := i + 1;
        assert reports[..i][..i - 1] == reports[..i - 1];
        ConcatAssociates(drafts, done, [draft]);
      }
      assert reports[..|reports|] == reports;
    }

    /** The tail of a live open or close: leg events, the final save, the last event. */
    method SettleLive(ghost base: seq<AuditEventRecord>, ghost book: seq<TradeLedgerRecord>, phase: LegPhase,
                      ghost intent: Draft, ghost earlier: TradeLedgerRecord, record: TradeLedgerRecord,
                      reports: seq<LegReport>, now: Time, events: seq<AuditEventRecord>)
      returns (listed: seq<AuditEventRecord>)
      requires earlier.tradeId == record.tradeId && ledger.records == Put(book, earlier)
      requires Logged(base, [intent], events)
      modifies ledger, audit
      ensures ledger.records == Put(book, record)
      ensures Logged(base,
                     [intent] + LegDrafts(phase, record.tradeId, reports, now)
                     + [LiveEnd(record.tradeId, record.status, now + (|reports| + 1) * MILLISECOND)], listed)
    {
      hide Stamped, Put, LegDrafts;
      listed := RecordLegs(base, [intent], phase, record.tradeId, reports, now, events);
      ghost var drafts := [intent] + LegDrafts(phase, record.tradeId, reports, now);
      ledger.SaveRecord(record);
      PutPut(book, earlier, record);
      var at := now + (|reports| + 1) * MILLISECOND;
      var end: Draft;
      if record.status == Failed || record.status == RecoveryPending {
        end := Draft(RecoveryRequired, at, StatusPayload(record.tradeId, record.status));
      } else if record.status == Closed {
        end := Draft(CloseCompleted, at, TradePayload(record.tradeId));
      } else {
        end := Draft(OpenCompleted, at, StatusPayload(record.tradeId, record.status));
      }
      listed := RecordEvent(base, drafts, end, listed);
    }

    method Recover(tradeId: string, action: RecoveryAction, notes: Option<string>, now: Time)
      returns (outcome: Outcome<ExecutionResult>)
      modifies ledger, audit, breaker, adapter
      ensures State() == Execution.Recover(Config(), audit.uuid, old(State()), tradeId, action, notes, now).world
      ensures outcome == Execution.Recover(Config(), audit.uuid, old(State()), tradeId, action, notes, now).outcome
    {
      var existing := ledger.GetRecord(tradeId);
      if existing.None? || !NeedsRecovery(existing.value.status) {
        EmitNone(audit.uuid, audit.events);
        return Raised(if existing.None? then NotInLedger(tradeId)
                      else ValueError("trade '" + tradeId + "' is not in recoverable state"));
      }
      FindBelongs(ledger.records, tradeId);
      var result;
      if action == ResumeOpen {
        result := ResumeOpenTrade(existing.value, notes, now);
      } else {
        result := ResumeCloseTrade(existing.value, notes, now);
      }
      return Returned(result);
    }

    method ResumeOpenTrade(found: TradeLedgerRecord, notes: Option<string>, now: Time) returns (result: ExecutionResult)
      requires Find(ledger.records, found.tradeId) == Some(found) && NeedsRecovery(found.status)
      modifies ledger, audit, breaker, adapter
      ensures StepResult(State(), Returned(result))
           == Execution.Recover(Config(), audit.uuid, old(State()), found.tradeId, ResumeOpen, notes, now)
    {
      NothingLogged();
      hide Stamped, Put, Find, Load, Finish, OrNotes;
      ghost var base, body := audit.events, RecoverBody(State(), found.tradeId, ResumeOpen, notes, now);
      var end := now + 2 * MILLISECOND;
      var d0 := Draft(RecoveryStarted, now, TradePayload(found.tradeId));
      var events := RecordEvent(base, [], d0, []);
      assert [] + [d0] == [d0];
      var recovered := found.(status := Hedged, notes := OrNotes(notes, found.notes));
      ledger.SaveRecord(recovered);
      var d1 := Draft(RecoveryPerpFilled, now + MILLISECOND, TradePayload(found.tradeId));
      var d2 := Draft(RecoveryCompleted, end, StatusPayload(found.tradeId, Hedged));
      events := RecordEvent(base, [d0], d1, events);
      events := RecordEvent(base, [d0] + [d1], d2, events);
      assert [d0] + [d1] + [d2] == [d0, d1, d2];
      FinishIs(audit.uuid, old(State()), found.tradeId, old(Gate()), body, State());
      return ExecutionResult(found.tradeId, OpenHedge, found.mode, found.symbol, Hedged, recovered, events, end);
    }

    method ResumeCloseTrade(found: TradeLedgerRecord, notes: Option<string>, now: Time)
        returns (result: ExecutionResult)
      requires Find(ledger.records, found.tradeId) == Some(found) && NeedsRecovery(found.status)
      modifies ledger, audit, breaker, adapter
      ensures StepResult(State(), Returned(result))
           == Execution.Recover(Config(), audit.uuid, old(State()), found.tradeId, ResumeClose, notes, now)
    {
      NothingLogged();
      hide Stamped, Put, Find, Load, Finish, OrNotes;
      ghost var base, body := audit.events, RecoverBody(State(), found.tradeId, ResumeClose, notes, now);
      var end := now + 2 * MILLISECOND;
      var d0 := Draft(RecoveryStarted, now, TradePayload(found.tradeId));
      var events := RecordEvent(base, [], d0, []);
      assert [] + [d0] == [d0];
      var closed := found.(status := Closed, closedAt := Some(end), notes := OrNotes(notes, found.notes));
      ledger.SaveRecord(closed);
      var d1 := Draft(RecoveryCompleted, end, StatusPayload(found.tradeId, Closed));
      events := RecordEvent(base, [d0], d1, events);
      assert [d0] + [d1] == [d0, d1];
      FinishIs(audit.uuid, old(State()), found.tradeId, old(Gate()), body, State());
      return ExecutionResult(found.tradeId, CloseHedge, found.mode, found.symbol, Closed, closed, events, end);
    }

    method RebalanceHedge(tradeId: string, delta: real, quantity: real, notes: Option<string>, now: Time)
      returns (outcome: Outcome<ExecutionResult>)
      modifies ledger, audit, breaker, adapter
      ensures State() == Execution.Rebalance(Config(), audit.uuid, old(State()), tradeId, delta, quantity, notes,
                                             now).world
      ensures outcome == Execution.Rebalance(Config(), audit.uuid, old(State()), tradeId, delta, quantity, notes,
                                             now).outcome
    {
      var existing := ledger.GetRecord(tradeId);
      if existing.None? {
        return Raised(NotInLedger(tradeId));
      }
      var found := existing.value;
      if found.status != Hedged && found.status != Open {
        return Raised(ValueError("trade '" + tradeId + "' is not in rebalancable state"));
      }
      if quantity <= 0.0 {
        return Raised(ValueError("rebalance_hedge requires positive perp_quantity"));
      }
      if delta == 0.0 {
        return Raised(ValueError("rebalance_hedge requires non-zero perp_notional_delta"));
      }
      hide Execution.RebalanceOnExchange, RebalanceDone, Finish;
      NothingLogged();
      ghost var base := audit.events;
      var start := RebalanceStart(found.tradeId, now);
      var events := RecordEvent(base, [], start, []);
      assert [] + [start] == [start];
      if found.mode == Live {
        outcome := RebalanceOnExchange(base, old(State()), found, delta, quantity, notes, now, events);
      } else {
        var result := CompleteRebalance(base, [start], found, delta, notes, now, events);
        FinishIs(audit.uuid, old(State()), found.tradeId, old(Gate()),
                 RebalanceDone(found, delta, notes, now, [start], None), State());
        outcome := Returned(result);
      }
    }

    /** The checks, the breaker and the exchange, for a live trade. */
    method RebalanceOnExchange(ghost base: seq<AuditEventRecord>, ghost before: World, found: TradeLedgerRecord,
                               delta: real, quantity: real, notes: Option<string>, now: Time,
                               events: seq<AuditEventRecord>)
      returns (outcome: Outcome<ExecutionResult>)
      requires Logged(base, [RebalanceStart(found.tradeId, now)], events)
      requires before == State().(log := base)
      modifies ledger, audit, breaker, adapter
      ensures State() == Execution.RebalanceOnExchange(Config(), audit.uuid, before, found, delta, quantity, notes,
                                                   now).world
      ensures outcome == Execution.RebalanceOnExchange(Config(), audit.uuid, before, found, delta, quantity, notes,
                                                   now).outcome
    {
      hide Stamped, LiveRebalance, Finish, NoteFailure, NoteSuccess, NotionalAllowed, Refusal, GateShut, GateJournal,
           BlockedWorld;
      var refusal := ValidateLiveRequest(found.symbol, Abs(delta));
      if refusal.Some? {
        return Raised(refusal.value);
      }
      var allowed := EnsureLiveExecutionAllowed(found.tradeId, now);
      if !allowed {
        return Raised(GATE_ERROR);
      }
      if !hasAdapter {
        return Raised(ValueError("live execution adapter is not configured"));
      }
      ghost var passed := before.(journal := breaker.saves);
      outcome := PlaceRebalance(base, passed, found, delta, quantity, notes, now, events);
      if outcome.Raised? {
        RecordLiveCircuitBreakerFailure(found.tradeId, now, outcome.error.text);
      } else {
        UpdateLiveCircuitBreakerAfterResult(outcome.value);
      }
    }

    /** Places the perp order and books what came back. */
    method PlaceRebalance(ghost base: seq<AuditEventRecord>, ghost before: World, found: TradeLedgerRecord,
                          delta: real, quantity: real, notes: Option<string>, now: Time, events: seq<AuditEventRecord>)
      returns (outcome: Outcome<ExecutionResult>)
      requires Logged(base, [RebalanceStart(found.tradeId, now)], events)
      requires before == State().(log := base)
      modifies ledger, audit, adapter
      ensures State() == Finish(audit.uuid, before, found.tradeId, old(Gate()),
                                LiveRebalance(before, found, delta, quantity, notes, now)).world
      ensures outcome == Finish(audit.uuid, before, found.tradeId, old(Gate()),
                                LiveRebalance(before, found, delta, quantity, notes, now)).outcome
    {
      hide Stamped, Put, Rebalanced, Load, Finish;
      ghost var body := LiveRebalance(before, found, delta, quantity, notes, now);
      var start := RebalanceStart(found.tradeId, now);
      var answer := adapter.Place(MoveFor(found.symbol, delta, quantity), found.tradeId, Gate());
      if answer.Raises? || answer.reports == [] {
        FinishIs(audit.uuid, before, found.tradeId, old(Gate()), body, State());
        return Raised(if answer.Raises? then answer.error else OtherError("no leg report"));
      }
      var report := answer.reports[0];
      var leg := LegDraft(RebalancePhase, found.tradeId, report, now + MILLISECOND);
      var listed := RecordEvent(base, [start], leg, events);
      if report.status == Filled {
        var result := CompleteRebalance(base, [start] + [leg], found, delta, notes, now, listed);
        FinishIs(audit.uuid, before, found.tradeId, old(Gate()), body, State());
        return Returned(result);
      }
      var status := if report.status == LegFailed then Failed else RecoveryPending;
      var updated := found.(status := status, notes := OrNotes(notes, found.notes));
      ledger.SaveRecord(updated);
      var required := Draft(RecoveryRequired, now + 2 * MILLISECOND, StatusPayload(found.tradeId, status));
      listed := RecordEvent(base, [start] + [leg], required, listed);
      FinishIs(audit.uuid, before, found.tradeId, old(Gate()), body, State());
      return Returned(RebalanceResult(updated, now).(events := listed));
    }

    /** Moves the perp notional by `delta` and books the trade as hedged. */
    method CompleteRebalance(ghost base: seq<AuditEventRecord>, ghost drafts: seq<Draft>, found: TradeLedgerRecord,
                             delta: real, notes: Option<string>, now: Time, events: seq<AuditEventRecord>)
      returns (result: ExecutionResult)
      requires Logged(base, drafts, events)
      modifies ledger, audit
      ensures ledger.records == Put(old(ledger.records), Rebalanced(found, delta, notes))
      ensures Logged(base, RebalanceDone(found, delta, notes, now, drafts, None).drafts, result.events)
      ensures result == RebalanceResult(Rebalanced(found, delta, notes), now).(events := result.events)
    {
      hide Stamped, Put, Round4;
      var updated := found.(status := Hedged,
                            perpNotional := Round4(found.perpNotional + delta),
                            netExposure := Round4(found.netExposure - delta), notes := OrNotes(notes, found.notes));
      ledger.SaveRecord(updated);
      var completed := Draft(RebalanceCompleted, now + 2 * MILLISECOND, StatusPayload(found.tradeId, Hedged));
      var listed := RecordEvent(base, drafts, completed, events);
      return RebalanceResult(updated, now).(events := listed);
    }
  }
}
