/** What the caller is told: the status a call ends in, the record it leaves and the events
    it returns, said of the exchange's answer and of the world after the call. */
module CallResults {
  import opened Options
  import opened Lists
  import opened Ledger
  import opened Audit
  import opened CircuitBreaker
  import opened Execution
  import opened ExecutionRuns
  import opened TradeLifecycle
  import opened CallBooking
  import opened Decimals

  // ---- rebalancing --------------------------------------------------------------------------

  /** A live rebalance that returns got an answer, and its first leg decides: filled keeps the
      trade hedged and moves the delta, to within half a unit; failed leaves it failed and
      anything else pending, both with the amounts as they were. */
  lemma RebalanceEndsAs(cfg: ExecutionConfig, uuid: Ids, w: World, r: TradeLedgerRecord, delta: real, quantity: real,
                        notes: Option<string>, now: Time)
    requires Find(w.ledger, r.tradeId) == Some(r) && r.mode == Live
    requires Rebalance(cfg, uuid, w, r.tradeId, delta, quantity, notes, now).outcome.Returned?
    ensures NextAnswer(w.script).Answers? && NextAnswer(w.script).reports != []
    ensures var step := Rebalance(cfg, uuid, w, r.tradeId, delta, quantity, notes, now);
            var leg := NextAnswer(w.script).reports[0].status;
            var left := Find(step.world.ledger, r.tradeId);
            && left == Some(step.outcome.value.ledgerRecord) && left.value.status == step.outcome.value.status
            && (left.value.status == Hedged <==> leg == Filled)
            && (left.value.status == Failed <==> leg == LegFailed)
            && (left.value.status == RecoveryPending <==> leg == Partial || leg == Submitted)
            && SameButAmounts(left.value, r) && NoteAfter(left.value.notes, notes, r.notes)
            && if leg == Filled then MovedBy(left.value, r, delta)
               else left.value.perpNotional == r.perpNotional && left.value.netExposure == r.netExposure
  {
    FindBelongs(w.ledger, r.tradeId);
    LiveRebalanceEndsAs(w, r, delta, quantity, notes, now);
    hide LiveRebalance, MovedBy, OnGrid, Emit, Put, NotionalAllowed, GateShut, NoteFailure, NoteResult;
    RebalanceLands(cfg, uuid, w, r, delta, quantity, notes, now);
  }

  /** A note that is given and not empty replaces the one there. */
  predicate NoteAfter(notes: Option<string>, given: Option<string>, before: Option<string>)
  {
    if given == None || given == Some("") then notes == before else notes == given
  }

  /** Everything but status, amounts and notes is as it was. */
  predicate SameButAmounts(a: TradeLedgerRecord, r: TradeLedgerRecord)
  {
    a == r.(status := a.status, perpNotional := a.perpNotional, netExposure := a.netExposure, notes := a.notes)
  }

  /** The delta went from the exposure to the perp leg, each rounded to the nearest unit. */
  predicate MovedBy(a: TradeLedgerRecord, r: TradeLedgerRecord, delta: real)
  {
    && -0.00005 <= a.perpNotional - (r.perpNotional + delta) <= 0.00005 && OnGrid(a.perpNotional)
    && -0.00005 <= a.netExposure - (r.netExposure - delta) <= 0.00005 && OnGrid(a.netExposure)
  }

  lemma LiveRebalanceEndsAs(w: World, r: TradeLedgerRecord, delta: real, quantity: real, notes: Option<string>,
                            now: Time)
    ensures var body := LiveRebalance(w, r, delta, quantity, notes, now);
            body.outcome.Returned? ==>
              && NextAnswer(w.script).Answers? && NextAnswer(w.script).reports != []
              && var leg := NextAnswer(w.script).reports[0].status;
                 var left := body.outcome.value.ledgerRecord;
                 && body.saved == Some(left) && left.status == body.outcome.value.status
                 && (left.status == Hedged <==> leg == Filled)
                 && (left.status == Failed <==> leg == LegFailed)
                 && (left.status == RecoveryPending <==> leg == Partial || leg == Submitted)
                 && SameButAmounts(left, r) && NoteAfter(left.notes, notes, r.notes)
                 && if leg == Filled then MovedBy(left, r, delta)
                    else left.perpNotional == r.perpNotional && left.netExposure == r.netExposure
  {
    RebalancedMoves(r, delta, notes);
    hide Rebalanced;
    if NextAnswer(w.script).Answers? && NextAnswer(w.script).reports != [] {
      match NextAnswer(w.script).reports[0].status {
        case Submitted => case Filled => case Partial => case LegFailed =>
      }
    }
  }

  lemma RebalancedMoves(r: TradeLedgerRecord, delta: real, notes: Option<string>)
    ensures var a := Rebalanced(r, delta, notes);
            a.status == Hedged && SameButAmounts(a, r) && NoteAfter(a.notes, notes, r.notes) && MovedBy(a, r, delta)
  {
    Round4Error(r.perpNotional + delta);
    Round4Error(r.netExposure - delta);
    Round4Grid(r.perpNotional + delta);
    Round4Grid(r.netExposure - delta);
    hide Round4;
  }

  lemma RebalanceLands(cfg: ExecutionConfig, uuid: Ids, w: World, r: TradeLedgerRecord, delta: real, quantity: real,
                       notes: Option<string>, now: Time)
    requires Find(w.ledger, r.tradeId) == Some(r)
    requires RebalanceOnExchange(cfg, uuid, w, r, delta, quantity, notes, now).outcome.Returned?
    requires LiveRebalance(w, r, delta, quantity, notes, now).outcome.Returned? ==>
               LiveRebalance(w, r, delta, quantity, notes, now).saved.Some?
               && LiveRebalance(w, r, delta, quantity, notes, now).saved.value.tradeId == r.tradeId
    ensures var step := RebalanceOnExchange(cfg, uuid, w, r, delta, quantity, notes, now);
            var body := LiveRebalance(w, r, delta, quantity, notes, now);
            && body.outcome.Returned? && Find(step.world.ledger, r.tradeId) == body.saved
            && step.outcome.value.ledgerRecord == body.outcome.value.ledgerRecord
            && step.outcome.value.status == body.outcome.value.status
  {
    hide Rebalanced, Emit, Put;
    var body := LiveRebalance(w, r, delta, quantity, notes, now);
    assert body == LiveRebalance(w.(journal := GateJournal(cfg, w.journal, now)), r, delta, quantity, notes, now);
    FindPut(w.ledger, body.saved.value, r.tradeId);
  }

  // ---- closing ----------------------------------------------------------------------------------

  /** A live close that returns leaves the trade closed when every leg is filled or submitted,
      failed when a leg failed, in recovery otherwise; the result is booked, the closing time
      is that of the last event, and the amounts are as they were. */
  lemma LiveCloseEndsAs(cfg: ExecutionConfig, uuid: Ids, w: World, request: ExecutionIntentRequest, now: Time)
    requires request.action != OpenHedge && request.mode == Live && !IsReplay(w, request)
    requires Execute(cfg, uuid, w, request, now, true).outcome.Returned?
    ensures NextAnswer(w.script).Answers? && Find(w.ledger, request.tradeId).Some?
    ensures var step := Execute(cfg, uuid, w, request, now, true);
            var r := Find(w.ledger, request.tradeId).value;
            var legs, status := NextAnswer(w.script).reports, step.outcome.value.status;
            var left := Find(step.world.ledger, request.tradeId);
            && (status == Closed <==> forall leg :: leg in legs ==> leg.status in {Filled, Submitted})
            && (status == Failed <==> exists leg :: leg in legs && leg.status == LegFailed)
            && (status == RecoveryPending <==>
                  && (exists leg :: leg in legs && leg.status == Partial)
                  && forall leg :: leg in legs ==> leg.status != LegFailed)
            && left.Some? && left.value.status == status && left.value.realizedPnl == request.realizedPnl
            && left.value.closedAt == (if status == Closed then Some(now + (|legs| + 1) * MILLISECOND) else None)
            && SameButAmounts(left.value, r.(closedAt := left.value.closedAt, realizedPnl := request.realizedPnl))
            && left.value.perpNotional == r.perpNotional && left.value.netExposure == r.netExposure
            && NoteAfter(left.value.notes, request.notes, r.notes)
  {
    hide LegDrafts, NoteFailure, NoteResult;
    StepFinds(cfg, uuid, w, ExecuteCall(request, now, true), request.tradeId);
    var legs := NextAnswer(w.script).reports;
    forall leg | leg in legs ensures leg.status in {Filled, Submitted, Partial, LegFailed} {
      match leg.status { case Submitted => case Filled => case Partial => case LegFailed => }
    }
  }

  /** What a returned open leaves, paper or live; a paper open fails exactly when its perp leg
      is made to fail. */
  lemma OpenLeaves(cfg: ExecutionConfig, uuid: Ids, w: World, request: ExecutionIntentRequest, now: Time, safe: bool)
    requires request.action == OpenHedge && !IsReplay(w, request)
    requires Execute(cfg, uuid, w, request, now, safe).outcome.Returned?
    ensures var left := Find(Execute(cfg, uuid, w, request, now, safe).world.ledger, request.tradeId);
            && left.Some? && left.value.status in {Hedged, Failed, RecoveryPending}
            && left.value == TradeLedgerRecord(request.tradeId, request.mode, request.strategyId, request.symbol,
                                               left.value.status, now, None, left.value.netExposure,
                                               request.spotNotional, request.perpNotional, 0.0, request.notes)
            && (if request.netExposure.Some? then left.value.netExposure == request.netExposure.value
                else && OnGrid(left.value.netExposure)
                     && -0.00005 <= left.value.netExposure - (request.spotNotional - request.perpNotional) <= 0.00005)
            && (request.mode == Paper ==>
                  left.value.status == if request.simulatePerpLegFailure then Failed else Hedged)
  {
    Round4Error(request.spotNotional - request.perpNotional);
    Round4Grid(request.spotNotional - request.perpNotional);
    hide Round4, OnGrid, LegDrafts, NoteFailure, NoteResult;
    StepFinds(cfg, uuid, w, ExecuteCall(request, now, safe), request.tradeId);
  }

  /** What a paper close leaves: a close of a trade that is there never fails. */
  lemma PaperCloseLeaves(cfg: ExecutionConfig, uuid: Ids, w: World, request: ExecutionIntentRequest, now: Time)
    requires request.action != OpenHedge && request.mode == Paper && !IsReplay(w, request)
    ensures var step := Execute(cfg, uuid, w, request, now, true);
            var r, left := Find(w.ledger, request.tradeId), Find(step.world.ledger, request.tradeId);
            && (step.outcome.Returned? <==> r.Some?) && (left.Some? <==> r.Some?)
            && (r.Some? ==>
                  && left.value == r.value.(status := Closed, closedAt := Some(now + 2 * MILLISECOND),
                                            realizedPnl := request.realizedPnl, notes := left.value.notes)
                  && NoteAfter(left.value.notes, request.notes, r.value.notes))
  {
    StepFinds(cfg, uuid, w, ExecuteCall(request, now, true), request.tradeId);
  }

  /** What a recovery leaves: it returns exactly for a trade that is failed or half done, and
      changes its status, closing time and notes only. */
  lemma RecoverLeaves(cfg: ExecutionConfig, uuid: Ids, w: World, r: TradeLedgerRecord, action: RecoveryAction,
                      notes: Option<string>, now: Time)
    requires Find(w.ledger, r.tradeId) == Some(r)
    ensures var step := Recover(cfg, uuid, w, r.tradeId, action, notes, now);
            var left := Find(step.world.ledger, r.tradeId);
            && (step.outcome.Returned? <==> r.status in {Failed, RecoveryPending})
            && (step.outcome.Raised? ==> step.outcome.error.ValueError? && step.world == w)
            && (step.outcome.Returned? ==>
                  && left.Some? && NoteAfter(left.value.notes, notes, r.notes)
                  && left.value == r.(status := if action == ResumeOpen then Hedged else Closed,
                                      closedAt := if action == ResumeOpen then r.closedAt
                                                  else Some(step.outcome.value.executedAt),
                                      notes := left.value.notes))
  {
    StepFinds(cfg, uuid, w, RecoverCall(r.tradeId, action, notes, now), r.tradeId);
    EmitNone(uuid, w.log);
  }

  /** When the exchange raises, an open leaves a candidate and a close a closing trade, so the
      ledger shows that an order may be out. */
  lemma RaisingLeavesATrace(cfg: ExecutionConfig, uuid: Ids, w: World, request: ExecutionIntentRequest, now: Time,
                            safe: bool)
    requires LetThrough(cfg, w, request, now, safe) && cfg.hasAdapter && NextAnswer(w.script).Raises?
    ensures var step := Execute(cfg, uuid, w, request, now, safe);
            var before, left := Find(w.ledger, request.tradeId), Find(step.world.ledger, request.tradeId);
            && step.outcome.Raised?
            && (request.action == OpenHedge ==>
                  && step.outcome.error == NextAnswer(w.script).error
                  && left.Some? && left.value.status == Candidate && left.value.openedAt == now
                  && left.value.closedAt == None && left.value.mode == Live && left.value.symbol == request.symbol)
            && (request.action != OpenHedge && before.Some? ==>
                  && step.outcome.error == NextAnswer(w.script).error
                  && left == Some(before.value.(status := Closing)))
            && (request.action != OpenHedge && before.None? ==> step.outcome.error.ValueError? && left == None)
  {
    hide LegDrafts, NoteFailure, NoteResult, ResolveNetExposure;
    StepFinds(cfg, uuid, w, ExecuteCall(request, now, safe), request.tradeId);
  }

  // ---- the result and the world agree -------------------------------------------------------------

  /** The calls that answer with a result. */
  predicate Answering(call: Call)
  {
    call.ExecuteCall? || call.RecoverCall? || call.RebalanceCall?
  }

  function OutcomeOf(cfg: ExecutionConfig, uuid: Ids, w: World, call: Call): Outcome<ExecutionResult>
    requires Answering(call)
  {
    match call
    case ExecuteCall(request, now, safe) => Execute(cfg, uuid, w, request, now, safe).outcome
    case RecoverCall(tradeId, recovery, notes, now) => Recover(cfg, uuid, w, tradeId, recovery, notes, now).outcome
    case RebalanceCall(tradeId, delta, quantity, notes, now) =>
      Rebalance(cfg, uuid, w, tradeId, delta, quantity, notes, now).outcome
  }

  /** A returned result is the body's, with the body's events stamped in log order. */
  lemma ResultIsTheBody(cfg: ExecutionConfig, uuid: Ids, w: World, call: Call)
    requires Answering(call) && OutcomeOf(cfg, uuid, w, call).Returned?
    requires call.ExecuteCall? ==> !IsReplay(w, call.request)
    ensures var result, body := OutcomeOf(cfg, uuid, w, call).value, BodyOf(cfg, w, call);
            && body.outcome.Returned?
            && result == body.outcome.value.(events := Stamped(uuid, |w.log|, body.drafts))
  {
    hide Stamped, Put, Rebalanced, LegDrafts, LiveStatus, ResolveNetExposure, NoteFailure, NoteResult, NotionalAllowed;
    match call
    case ExecuteCall(request, now, safe) =>
      assert LiveBody(cfg, w.(journal := GateJournal(cfg, w.journal, now)), request, now)
          == LiveBody(cfg, w, request, now);
    case RebalanceCall(tradeId, delta, quantity, notes, now) =>
      var found := Find(w.ledger, tradeId).value;
      assert LiveRebalance(w.(journal := GateJournal(cfg, w.journal, now)), found, delta, quantity, notes, now)
          == LiveRebalance(w, found, delta, quantity, notes, now);
    case _ =>
  }

  /** Every returned body names the record it saves and ends when its last event happens. */
  lemma BodyAgrees(cfg: ExecutionConfig, w: World, call: Call)
    requires BodyOf(cfg, w, call).outcome.Returned?
    ensures var body := BodyOf(cfg, w, call);
            && body.saved == Some(body.outcome.value.ledgerRecord)
            && body.outcome.value.status == body.saved.value.status
            && TradeOf(call) == Some(body.outcome.value.tradeId) == Some(body.saved.value.tradeId)
            && body.drafts != [] && body.drafts[|body.drafts| - 1].at == body.outcome.value.executedAt
  {
    hide Round4, LegDrafts, LiveStatus, ResolveNetExposure, NotionalAllowed;
    if TradeOf(call).Some? { FindBelongs(w.ledger, TradeOf(call).value); }
  }

  // ---- the events of a call, in time ---------------------------------------------------------------

  predicate Marching(drafts: seq<Draft>)
  {
    forall i, j :: 0 <= i < j < |drafts| ==> drafts[i].at < drafts[j].at
  }

  /** Leg k of an answer is logged k milliseconds after the call, with its leg and status. */
  lemma {:induction false} LegDraftsAre(phase: LegPhase, tradeId: string, reports: seq<LegReport>, now: Time)
    ensures |LegDrafts(phase, tradeId, reports, now)| == |reports|
    ensures forall i :: 0 <= i < |reports| ==>
              LegDrafts(phase, tradeId, reports, now)[i]
              == LegDraft(phase, tradeId, reports[i], now + (i + 1) * MILLISECOND)
  {
    if reports != [] {
      LegDraftsAre(phase, tradeId, reports[..|reports| - 1], now);
    }
  }

  lemma FramedMarch(first: Draft, legs: seq<Draft>, end: Draft, now: Time)
    requires first.at == now && end.at == now + (|legs| + 1) * MILLISECOND
    requires forall i :: 0 <= i < |legs| ==> legs[i].at == now + (i + 1) * MILLISECOND
    ensures Marching([first] + legs + [end])
  {
    var all := [first] + legs + [end];
    forall i | 0 <= i < |all| ensures all[i].at == now + i * MILLISECOND {
      if 0 < i <= |legs| { assert all[i] == legs[i - 1]; }
    }
  }

  lemma BodyMarches(cfg: ExecutionConfig, w: World, call: Call)
    ensures Marching(BodyOf(cfg, w, call).drafts)
  {
    hide PaperOpen, PaperClose, LiveBody, RecoverBody, LiveRebalance, RebalanceDone, NotionalAllowed, GateShut;
    match call
    case ExecuteCall(request, now, safe) =>
      PaperMarches(w, request, now);
      LiveMarches(cfg, w, request, now);
    case RecoverCall(tradeId, recovery, notes, now) => RecoverMarches(w, tradeId, recovery, notes, now);
    case RebalanceCall(tradeId, delta, quantity, notes, now) =>
      if Rebalancable(w, tradeId, delta, quantity) {
        RebalanceMarches(w, Find(w.ledger, tradeId).value, delta, quantity, notes, now);
      }
    case _ =>
  }

  lemma PaperMarches(w: World, request: ExecutionIntentRequest, now: Time)
    ensures Marching(PaperOpen(request, now).drafts) && Marching(PaperClose(w, request, now).drafts)
  {
    hide ResolveNetExposure;
  }

  lemma RecoverMarches(w: World, tradeId: string, recovery: RecoveryAction, notes: Option<string>, now: Time)
    ensures Marching(RecoverBody(w, tradeId, recovery, notes, now).drafts)
  {
  }

  lemma RebalanceMarches(w: World, found: TradeLedgerRecord, delta: real, quantity: real, notes: Option<string>,
                         now: Time)
    ensures Marching(LiveRebalance(w, found, delta, quantity, notes, now).drafts)
    ensures Marching(RebalanceDone(found, delta, notes, now, [RebalanceStart(found.tradeId, now)], None).drafts)
  {
    hide Rebalanced;
  }

  lemma LiveMarches(cfg: ExecutionConfig, w: World, request: ExecutionIntentRequest, now: Time)
    ensures Marching(LiveBody(cfg, w, request, now).drafts)
  {
    hide LegDrafts, LiveStatus, ResolveNetExposure;
    if NextAnswer(w.script).Answers? {
      var legs := NextAnswer(w.script).reports;
      var at := now + (|legs| + 1) * MILLISECOND;
      var phase, status := if request.action == OpenHedge then OpenPhase else ClosePhase,
              if request.action == OpenHedge then LiveStatus(legs, Hedged) else LiveStatus(legs, Closed);
      LegTimes(phase, request.tradeId, legs, now);
      FramedMarch(IntentDraft(request, now), LegDrafts(phase, request.tradeId, legs, now),
                  LiveEnd(request.tradeId, status, at), now);
    }
  }

  lemma LegTimes(phase: LegPhase, tradeId: string, reports: seq<LegReport>, now: Time)
    ensures |LegDrafts(phase, tradeId, reports, now)| == |reports|
    ensures forall i :: 0 <= i < |reports| ==>
              LegDrafts(phase, tradeId, reports, now)[i].at == now + (i + 1) * MILLISECOND
  {
    LegDraftsAre(phase, tradeId, reports, now);
  }

  /** The events are listed, not empty, and strictly increasing in time up to `at`. */
  predicate EndsAt(events: seq<AuditEventRecord>, at: Time)
  {
    && events != [] && events[|events| - 1].occurredAt == at
    && forall i, j :: 0 <= i < j < |events| ==> events[i].occurredAt < events[j].occurredAt
  }

  predicate AtMostOneBreakerEvent(tail: seq<AuditEventRecord>)
  {
    |tail| <= 1 && forall e :: e in tail ==> BreakerKind(e.eventType)
  }

  lemma StampedMarch(uuid: Ids, position: nat, drafts: seq<Draft>)
    requires Marching(drafts) && drafts != []
    ensures EndsAt(Stamped(uuid, position, drafts), drafts[|drafts| - 1].at)
  {
  }

  lemma TailIsStamped(uuid: Ids, log: seq<AuditEventRecord>, drafts: seq<Draft>, breaker: seq<Draft>)
    returns (tail: seq<AuditEventRecord>)
    requires BreakerTail(breaker)
    ensures Emit(uuid, log, drafts + breaker) == log + Stamped(uuid, |log|, drafts) + tail
    ensures AtMostOneBreakerEvent(tail)
  {
    EmitAppend(uuid, log, drafts, breaker);
    tail := Stamped(uuid, |log| + |drafts|, breaker);
    forall e | e in tail ensures BreakerKind(e.eventType) {
      var i :| 0 <= i < |tail| && tail[i] == e;
      assert breaker[i] in breaker;
    }
  }

  /** A replay's result: the record as it is, and one replay event that names its status. */
  lemma ReplayTellsTheWorld(cfg: ExecutionConfig, uuid: Ids, w: World, request: ExecutionIntentRequest, now: Time,
                            safe: bool)
    requires IsReplay(w, request)
    ensures var step := Execute(cfg, uuid, w, request, now, safe);
            && step.outcome.Returned?
            && var result := step.outcome.value;
               && result.tradeId == request.tradeId
               && Find(step.world.ledger, request.tradeId) == Some(result.ledgerRecord)
               && result.status == result.ledgerRecord.status
               && step.world.log == w.log + result.events + [] && EndsAt(result.events, result.executedAt)
               && |result.events| == 1 && result.events[0].eventType == IdempotentReplay
               && result.events[0].payload.tradeId == Some(request.tradeId)
               && result.events[0].payload.status == Some(result.status) && result.executedAt == now
               && step.world.ledger == w.ledger && step.world.journal == w.journal && step.world.calls == w.calls
  {
  }

  /** A returned result tells the world after the call: its record is the one the ledger holds,
      its events are what the call appended to the log, in strictly increasing time and all
      before any event of the breaker, and it ended when the last of them happened. */
  lemma ResultTellsTheWorld(cfg: ExecutionConfig, uuid: Ids, w: World, call: Call) returns (tail: seq<AuditEventRecord>)
    requires Answering(call) && OutcomeOf(cfg, uuid, w, call).Returned?
    ensures var result, after := OutcomeOf(cfg, uuid, w, call).value, Step(cfg, uuid, w, call);
            && TradeOf(call) == Some(result.tradeId)
            && Find(after.ledger, result.tradeId) == Some(result.ledgerRecord)
            && result.status == result.ledgerRecord.status
            && after.log == w.log + result.events + tail && EndsAt(result.events, result.executedAt)
    ensures AtMostOneBreakerEvent(tail)
  {
    if call.ExecuteCall? && IsReplay(w, call.request) {
      hide Execute, EndsAt, Find;
      tail := [];
      ReplayTellsTheWorld(cfg, uuid, w, call.request, call.now, call.safe);
    } else {
      var drafts := StepIsBody(cfg, uuid, w, call);
      ResultIsTheBody(cfg, uuid, w, call);
      BodyAgrees(cfg, w, call);
      BodyMarches(cfg, w, call);
      StepFinds(cfg, uuid, w, call, TradeOf(call).value);
      hide BodyOf, Step, OutcomeOf, TradeOf, Find, Marching, EndsAt, AtMostOneBreakerEvent, Stamped, BreakerTail, Emit;
      var body := BodyOf(cfg, w, call);
      StampedMarch(uuid, |w.log|, body.drafts);
      tail := TailIsStamped(uuid, w.log, body.drafts, drafts);
    }
  }

  // ---- whose mode counts ----------------------------------------------------------------------------

  /** The mode of a close is the intent's, not the trade's: a live trade that an intent closes
      was closed on the exchange if and only if the intent said live. */
  lemma CloseFollowsTheIntent(cfg: ExecutionConfig, uuid: Ids, w: World, request: ExecutionIntentRequest, now: Time,
                              safe: bool)
    requires request.action == CloseHedge && Find(w.ledger, request.tradeId).Some?
    requires Find(w.ledger, request.tradeId).value.status != Closed
    requires var left := Find(Execute(cfg, uuid, w, request, now, safe).world.ledger, request.tradeId);
             left.Some? && left.value.status == Closed
    ensures |Execute(cfg, uuid, w, request, now, safe).world.calls|
         == |w.calls| + if request.mode == Live then 1 else 0
  {
    hide LegDrafts, LiveStatus, AfterFailure, AfterSuccess, Current, Emit, ExecuteLive;
    StepFinds(cfg, uuid, w, ExecuteCall(request, now, safe), request.tradeId);
    if request.mode == Live {
      LiveCalls(cfg, uuid, w, request, now);
    }
  }

  // ---- what a live call logs --------------------------------------------------------------------------

  /** The intent, then every leg of the answer in order with its status, then how it ended. */
  predicate LegsLogged(events: seq<AuditEventRecord>, action: Action, legs: seq<LegReport>, status: TradeStatus)
  {
    && |events| == |legs| + 2
    && events[0].eventType == IntentReceived && events[0].payload.action == Some(action)
    && (forall i :: 0 <= i < |legs| ==>
          && events[i + 1].eventType == LiveLeg(if action == OpenHedge then OpenPhase else ClosePhase, legs[i].leg,
                                                legs[i].status)
          && events[i + 1].payload.orderId == legs[i].payload.orderId)
    && events[|legs| + 1].eventType == (if status in {Failed, RecoveryPending} then RecoveryRequired
                                        else if action == OpenHedge then OpenCompleted else CloseCompleted)
  }

  /** What a live open or close that returns has logged. */
  lemma LegsAreLogged(cfg: ExecutionConfig, uuid: Ids, w: World, request: ExecutionIntentRequest, now: Time)
    requires request.mode == Live && !IsReplay(w, request)
    requires Execute(cfg, uuid, w, request, now, true).outcome.Returned?
    ensures NextAnswer(w.script).Answers?
    ensures var result := Execute(cfg, uuid, w, request, now, true).outcome.value;
            LegsLogged(result.events, request.action, NextAnswer(w.script).reports, result.status)
  {
    hide Execute, LiveBody, LegsLogged, LegDrafts, Stamped;
    LiveResult(cfg, uuid, w, request, now);
    BodyIsLogged(cfg, w, request, now);
    EventsOfBody(uuid, |w.log|, request, NextAnswer(w.script).reports,
                 LiveBody(cfg, w, request, now).outcome.value.status, now);
  }

  lemma LiveResult(cfg: ExecutionConfig, uuid: Ids, w: World, request: ExecutionIntentRequest, now: Time)
    requires request.mode == Live && !IsReplay(w, request)
    requires Execute(cfg, uuid, w, request, now, true).outcome.Returned?
    ensures var body := LiveBody(cfg, w, request, now);
            && body.outcome.Returned?
            && Execute(cfg, uuid, w, request, now, true).outcome.value
               == body.outcome.value.(events := Stamped(uuid, |w.log|, body.drafts))
  {
    hide ExecuteLive, LiveBody, Stamped;
    LiveStepResult(cfg, uuid, w, request, now);
  }

  lemma LiveStepResult(cfg: ExecutionConfig, uuid: Ids, w: World, request: ExecutionIntentRequest, now: Time)
    requires ExecuteLive(cfg, uuid, w, request, now).outcome.Returned?
    ensures var body := LiveBody(cfg, w, request, now);
            && body.outcome.Returned?
            && ExecuteLive(cfg, uuid, w, request, now).outcome.value
               == body.outcome.value.(events := Stamped(uuid, |w.log|, body.drafts))
  {
    var passed := w.(journal := GateJournal(cfg, w.journal, now));
    SameLiveBody(cfg, w, passed, request, now);
    hide LiveBody, Stamped, Put, NoteFailure, NoteResult, NotionalAllowed, GateShut, GateJournal;
  }

  /** A live body does not look at the breaker. */
  lemma SameLiveBody(cfg: ExecutionConfig, w: World, passed: World, request: ExecutionIntentRequest, now: Time)
    requires passed == w.(journal := passed.journal)
    ensures LiveBody(cfg, passed, request, now) == LiveBody(cfg, w, request, now)
  {
    hide LegDrafts, LiveStatus, ResolveNetExposure;
  }

  lemma EventsOfBody(uuid: Ids, position: nat, request: ExecutionIntentRequest, legs: seq<LegReport>,
                     status: TradeStatus, now: Time)
    requires status in {if request.action == OpenHedge then Hedged else Closed, Failed, RecoveryPending}
    ensures var phase := if request.action == OpenHedge then OpenPhase else ClosePhase;
            var drafts := [IntentDraft(request, now)] + LegDrafts(phase, request.tradeId, legs, now)
                          + [LiveEnd(request.tradeId, status, now + (|legs| + 1) * MILLISECOND)];
            LegsLogged(Stamped(uuid, position, drafts), request.action, legs, status)
  {
    var phase := if request.action == OpenHedge then OpenPhase else ClosePhase;
    LegDraftsAre(phase, request.tradeId, legs, now);
    LegSays(phase, request.tradeId, legs, now);
    FramedEvents(uuid, position, IntentDraft(request, now), LegDrafts(phase, request.tradeId, legs, now),
                 LiveEnd(request.tradeId, status, now + (|legs| + 1) * MILLISECOND));
    hide LegDrafts, LegDraft, Stamped;
  }

  lemma FramedEvents(uuid: Ids, position: nat, first: Draft, legs: seq<Draft>, end: Draft)
    ensures var events := Stamped(uuid, position, [first] + legs + [end]);
            && |events| == |legs| + 2
            && events[0].eventType == first.kind && events[0].payload == first.payload
            && (forall i :: 0 <= i < |legs| ==>
                  events[i + 1].eventType == legs[i].kind && events[i + 1].payload == legs[i].payload)
            && events[|legs| + 1].eventType == end.kind
  {
    var drafts := [first] + legs + [end];
    assert drafts[0] == first && drafts[|legs| + 1] == end && forall i :: 0 <= i < |legs| ==> drafts[i + 1] == legs[i];
    StampedSays(uuid, position, drafts);
    hide Stamped;
  }

  lemma StampedSays(uuid: Ids, position: nat, drafts: seq<Draft>)
    ensures forall i :: 0 <= i < |drafts| ==>
              && Stamped(uuid, position, drafts)[i].eventType == drafts[i].kind
              && Stamped(uuid, position, drafts)[i].payload == drafts[i].payload
  {
  }

  lemma LegSays(phase: LegPhase, tradeId: string, legs: seq<LegReport>, now: Time)
    ensures forall i :: 0 <= i < |legs| ==>
              var draft := LegDraft(phase, tradeId, legs[i], now + (i + 1) * MILLISECOND);
              draft.kind == LiveLeg(phase, legs[i].leg, legs[i].status)
              && draft.payload.orderId == legs[i].payload.orderId
  {
  }

  lemma BodyIsLogged(cfg: ExecutionConfig, w: World, request: ExecutionIntentRequest, now: Time)
    requires LiveBody(cfg, w, request, now).outcome.Returned?
    ensures NextAnswer(w.script).Answers?
    ensures var body, legs := LiveBody(cfg, w, request, now), NextAnswer(w.script).reports;
            var phase := if request.action == OpenHedge then OpenPhase else ClosePhase;
            var status := body.outcome.value.status;
            && body.drafts == [IntentDraft(request, now)] + LegDrafts(phase, request.tradeId, legs, now)
                              + [LiveEnd(request.tradeId, status, now + (|legs| + 1) * MILLISECOND)]
            && status in {if request.action == OpenHedge then Hedged else Closed, Failed, RecoveryPending}
  {
    hide LegDrafts, ResolveNetExposure;
  }

  // ---- what the other calls log, and what a result is about ---------------------------------------------

  /** The events of these types, so many milliseconds after `now`, all about one trade. */
  predicate Happened(events: seq<AuditEventRecord>, kinds: seq<EventType>, after: seq<int>, now: Time, tradeId: string)
  {
    && |events| == |kinds| == |after|
    && forall i :: 0 <= i < |events| ==>
         && events[i].eventType == kinds[i] && events[i].occurredAt == now + after[i] * 1000
         && events[i].payload.tradeId == Some(tradeId) && events[i].source == Orchestrator
  }

  /** A paper open logs spot and perp leg and how it ended, a millisecond apart. */
  lemma PaperOpenLogs(cfg: ExecutionConfig, uuid: Ids, w: World, request: ExecutionIntentRequest, now: Time)
    requires request.mode == Paper && request.action == OpenHedge && !IsReplay(w, request)
    ensures var outcome := Execute(cfg, uuid, w, request, now, true).outcome;
            && outcome.Returned?
            && Happened(outcome.value.events,
                        if request.simulatePerpLegFailure
                        then [IntentReceived, SpotFilled, PerpFailed, RecoveryRequired]
                        else [IntentReceived, SpotFilled, PerpFilled, OpenCompleted],
                        [0, 1, 2, 3], now, request.tradeId)
  {
    hide ResolveNetExposure, Put;
  }

  /** A paper close logs its start and its end. */
  lemma PaperCloseLogs(cfg: ExecutionConfig, uuid: Ids, w: World, request: ExecutionIntentRequest, now: Time)
    requires request.mode == Paper && request.action != OpenHedge && !IsReplay(w, request)
    requires Find(w.ledger, request.tradeId).Some?
    ensures var outcome := Execute(cfg, uuid, w, request, now, true).outcome;
            && outcome.Returned?
            && Happened(outcome.value.events, [IntentReceived, CloseStarted, CloseCompleted], [0, 1, 2], now,
                        request.tradeId)
  {
    hide Put;
  }

  /** A resumed open logs the leg it filled, a resumed close does not. */
  lemma RecoverLogs(cfg: ExecutionConfig, uuid: Ids, w: World, tradeId: string, action: RecoveryAction,
                    notes: Option<string>, now: Time)
    requires Recover(cfg, uuid, w, tradeId, action, notes, now).outcome.Returned?
    ensures var events := Recover(cfg, uuid, w, tradeId, action, notes, now).outcome.value.events;
            if action == ResumeOpen
            then Happened(events, [RecoveryStarted, RecoveryPerpFilled, RecoveryCompleted], [0, 1, 2], now, tradeId)
            else Happened(events, [RecoveryStarted, RecoveryCompleted], [0, 2], now, tradeId)
  {
    hide Put;
  }

  /** A paper rebalance logs its start and its end. */
  lemma PaperRebalanceLogs(cfg: ExecutionConfig, uuid: Ids, w: World, tradeId: string, delta: real, quantity: real,
                           notes: Option<string>, now: Time)
    requires Find(w.ledger, tradeId).Some? && Find(w.ledger, tradeId).value.mode == Paper
    requires Rebalance(cfg, uuid, w, tradeId, delta, quantity, notes, now).outcome.Returned?
    ensures Happened(Rebalance(cfg, uuid, w, tradeId, delta, quantity, notes, now).outcome.value.events,
                     [RebalanceStarted, RebalanceCompleted], [0, 2], now, tradeId)
  {
    FindBelongs(w.ledger, tradeId);
    hide Put, Rebalanced;
  }

  /** A live rebalance logs its start, the first leg of the answer and how it ended. */
  lemma LiveRebalanceLogs(cfg: ExecutionConfig, uuid: Ids, w: World, r: TradeLedgerRecord, delta: real, quantity: real,
                          notes: Option<string>, now: Time)
    requires Find(w.ledger, r.tradeId) == Some(r) && r.mode == Live
    requires Rebalance(cfg, uuid, w, r.tradeId, delta, quantity, notes, now).outcome.Returned?
    ensures NextAnswer(w.script).Answers? && NextAnswer(w.script).reports != []
    ensures var result := Rebalance(cfg, uuid, w, r.tradeId, delta, quantity, notes, now).outcome.value;
            var leg := NextAnswer(w.script).reports[0];
            && |result.events| == 3
            && result.events[0].eventType == RebalanceStarted && result.events[0].occurredAt == now
            && result.events[1].eventType == LiveLeg(RebalancePhase, leg.leg, leg.status)
            && result.events[1].payload.orderId == leg.payload.orderId
            && result.events[1].occurredAt == now + MILLISECOND
            && result.events[2].eventType == (if leg.status == Filled then RebalanceCompleted else RecoveryRequired)
            && result.events[2].payload.status == Some(result.status)
            && result.events[2].occurredAt == now + 2 * MILLISECOND
  {
    LiveRebalanceResult(cfg, uuid, w, r, delta, quantity, notes, now);
    hide Rebalance, LiveRebalance, LegDraft, Stamped;
    LiveRebalanceDrafts(w, r, delta, quantity, notes, now);
    var drafts := LiveRebalance(w, r, delta, quantity, notes, now).drafts;
    ThreeEvents(uuid, |w.log|, drafts[0], drafts[1], drafts[2]);
    LegDraftSays(r.tradeId, NextAnswer(w.script).reports[0], now + MILLISECOND);
  }

  lemma LegDraftSays(tradeId: string, leg: LegReport, at: Time)
    ensures var draft := LegDraft(RebalancePhase, tradeId, leg, at);
            draft.kind == LiveLeg(RebalancePhase, leg.leg, leg.status) && draft.at == at
            && draft.payload.orderId == leg.payload.orderId
  {
  }

  lemma ThreeEvents(uuid: Ids, position: nat, a: Draft, b: Draft, c: Draft)
    ensures Stamped(uuid, position, [a, b, c])
         == [Stamp(uuid, position, a), Stamp(uuid, position + 1, b), Stamp(uuid, position + 2, c)]
  {
  }

  lemma LiveRebalanceResult(cfg: ExecutionConfig, uuid: Ids, w: World, r: TradeLedgerRecord, delta: real,
                            quantity: real, notes: Option<string>, now: Time)
    requires Find(w.ledger, r.tradeId) == Some(r) && r.mode == Live
    requires Rebalance(cfg, uuid, w, r.tradeId, delta, quantity, notes, now).outcome.Returned?
    ensures var body := LiveRebalance(w, r, delta, quantity, notes, now);
            && body.outcome.Returned?
            && Rebalance(cfg, uuid, w, r.tradeId, delta, quantity, notes, now).outcome.value
               == body.outcome.value.(events := Stamped(uuid, |w.log|, body.drafts))
  {
    hide Rebalanced, Stamped, Put, NoteFailure, NoteResult, NotionalAllowed, GateShut;
    assert LiveRebalance(w.(journal := GateJournal(cfg, w.journal, now)), r, delta, quantity, notes, now)
        == LiveRebalance(w, r, delta, quantity, notes, now);
  }

  lemma LiveRebalanceDrafts(w: World, r: TradeLedgerRecord, delta: real, quantity: real, notes: Option<string>,
                            now: Time)
    requires LiveRebalance(w, r, delta, quantity, notes, now).outcome.Returned?
    ensures NextAnswer(w.script).Answers? && NextAnswer(w.script).reports != []
    ensures var body, leg := LiveRebalance(w, r, delta, quantity, notes, now), NextAnswer(w.script).reports[0];
            && body.drafts == [RebalanceStart(r.tradeId, now),
                               LegDraft(RebalancePhase, r.tradeId, leg, now + MILLISECOND),
                               Draft(if leg.status == Filled then RebalanceCompleted else RecoveryRequired,
                                     now + 2 * MILLISECOND, StatusPayload(r.tradeId, body.outcome.value.status))]
  {
    hide Round4;
  }

  /** What a result is about: the action, mode and symbol of the intent for an intent, those of
      the trade for a recovery or a rebalance. */
  lemma ResultNames(cfg: ExecutionConfig, uuid: Ids, w: World, call: Call)
    requires Answering(call) && OutcomeOf(cfg, uuid, w, call).Returned?
    ensures var result := OutcomeOf(cfg, uuid, w, call).value;
            match call
            case ExecuteCall(request, _, _) =>
              result.action == request.action && result.mode == request.mode && result.symbol == request.symbol
            case RecoverCall(tradeId, recovery, _, _) =>
              && Find(w.ledger, tradeId).Some? && result.mode == Find(w.ledger, tradeId).value.mode
              && result.symbol == Find(w.ledger, tradeId).value.symbol
              && result.action == if recovery == ResumeOpen then OpenHedge else CloseHedge
            case RebalanceCall(tradeId, _, _, _, _) =>
              && Find(w.ledger, tradeId).Some? && result.mode == Find(w.ledger, tradeId).value.mode
              && result.symbol == Find(w.ledger, tradeId).value.symbol && result.action == RebalanceHedge
  {
    if !(call.ExecuteCall? && IsReplay(w, call.request)) {
      ResultIsTheBody(cfg, uuid, w, call);
      hide OutcomeOf, Round4, LegDrafts, LiveStatus, ResolveNetExposure, NotionalAllowed, GateShut;
    }
  }
}
