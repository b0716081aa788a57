/** The breaker in command of live execution: what it guarantees over every run. */
module BreakerSafety {
  import opened Options
  import opened Ledger
  import opened Audit
  import opened CircuitBreaker
  import opened BreakerHistory
  import opened Decimals
  import opened Execution
  import opened ExecutionRuns
  import opened Lists

  predicate Guarded(cfg: ExecutionConfig)
  {
    cfg.hasBreaker && cfg.breaker.enabled && cfg.breaker.failureThreshold >= 1
  }

  /** How often the stored state went from closed (or nothing stored) to open. */
  function Trips(journal: Journal): nat
  {
    if journal == [] then 0
    else
      var earlier := journal[..|journal| - 1];
      Trips(earlier) + if journal[|journal| - 1].isOpen && !LastOpen(earlier) then 1 else 0
  }

  predicate LastOpen(journal: Journal)
  {
    journal != [] && journal[|journal| - 1].isOpen
  }

  function LastCount(journal: Journal): nat
  {
    if journal == [] then 0 else journal[|journal| - 1].consecutiveFailures
  }

  /** How many failures were booked: a failure is what raises the count. */
  function Failures(journal: Journal): nat
  {
    if journal == [] then 0
    else
      var earlier := journal[..|journal| - 1];
      Failures(earlier) + if journal[|journal| - 1].consecutiveFailures > LastCount(earlier) then 1 else 0
  }

  function OpenedEvents(log: seq<AuditEventRecord>): nat
  {
    if log == [] then 0
    else OpenedEvents(log[..|log| - 1]) + if log[|log| - 1].eventType == BreakerOpened then 1 else 0
  }

  lemma {:induction false} OpenedEventsAppend(log: seq<AuditEventRecord>, more: seq<AuditEventRecord>)
    ensures OpenedEvents(log + more) == OpenedEvents(log) + OpenedEvents(more)
  {
    if more == [] {
      assert log + more == log;
    } else {
      OpenedEventsAppend(log, more[..|more| - 1]);
      assert (log + more)[..|log + more| - 1] == log + more[..|more| - 1];
    }
  }

  lemma {:induction false} NoOpenedEvents(log: seq<AuditEventRecord>)
    requires forall e :: e in log ==> e.eventType != BreakerOpened
    ensures OpenedEvents(log) == 0
  {
    if log != [] {
      NoOpenedEvents(log[..|log| - 1]);
    }
  }

  lemma JournalSnoc(journal: Journal, state: BreakerState)
    ensures Trips(journal + [state]) == Trips(journal) + if state.isOpen && !LastOpen(journal) then 1 else 0
    ensures Failures(journal + [state])
         == Failures(journal) + if state.consecutiveFailures > LastCount(journal) then 1 else 0
  {
  }

  /** The breaker's part of a good world. */
  predicate JournalOk(cfg: BreakerConfig, journal: Journal)
  {
    forall s :: s in journal ==> Coherent(cfg, s) && s.consecutiveFailures <= cfg.failureThreshold
  }

  predicate BreakerOk(cfg: ExecutionConfig, w: World)
  {
    && JournalOk(cfg.breaker, w.journal)
    && OpenedEvents(w.log) == Trips(w.journal)
    && forall c :: c in w.calls ==> !c.gate.isOpen
  }

  // ---- one breaker operation ---------------------------------------------------

  lemma PollCounts(cfg: BreakerConfig, journal: Journal, now: Time)
    requires cfg.failureThreshold >= 1 && JournalOk(cfg, journal)
    ensures var polled := Polled(cfg, journal, now);
            && JournalOk(cfg, polled)
            && Trips(polled) == Trips(journal) && Failures(polled) == Failures(journal)
            && LastOpen(polled) == Load(cfg, polled).isOpen
            && LastCount(polled) == Load(cfg, polled).consecutiveFailures
            && (LastOpen(polled) ==> LastOpen(journal))
  {
  }

  lemma ClearCounts(cfg: BreakerConfig, journal: Journal, cleared: BreakerState)
    requires cfg.failureThreshold >= 1 && JournalOk(cfg, journal)
    requires !cleared.isOpen && cleared.consecutiveFailures == 0 && cleared.resumeAt == cleared.openedAt == None
    ensures JournalOk(cfg, journal + [cleared])
    ensures Trips(journal + [cleared]) == Trips(journal) && Failures(journal + [cleared]) == Failures(journal)
  {
  }

  /** A failure booked while the breaker is closed: one failure more, the count still
      within the threshold, and a trip exactly when the stored state turns open. */
  lemma FailureCounts(cfg: BreakerConfig, journal: Journal, now: Time, tradeId: string, reason: string)
    requires cfg.enabled && cfg.failureThreshold >= 1 && JournalOk(cfg, journal) && !LastOpen(journal)
    ensures var after := AfterFailure(cfg, journal, now, tradeId, reason);
            && JournalOk(cfg, after)
            && Failures(after) == Failures(journal) + 1
            && Trips(after) == Trips(journal) + (if Load(cfg, after).isOpen then 1 else 0)
            && !Current(cfg, journal, now).isOpen
  {
    PollCounts(cfg, journal, now);
    var polled := Polled(cfg, journal, now);
    assert Coherent(cfg, Load(cfg, polled)) && Load(cfg, polled).consecutiveFailures < cfg.failureThreshold by {
      if polled != [] { assert polled[|polled| - 1] in polled; }
    }
    var after := AfterFailure(cfg, journal, now, tradeId, reason);
    JournalSnoc(polled, after[|after| - 1]);
  }

  // ---- the hooks ----------------------------------------------------------------

  lemma NoteFailureKeeps(cfg: ExecutionConfig, uuid: Ids, w: World, tradeId: string, at: Time, reason: string)
    requires Guarded(cfg) && BreakerOk(cfg, w) && !LastOpen(w.journal)
    ensures var after := NoteFailure(cfg, uuid, w, tradeId, at, reason);
            BreakerOk(cfg, after) && Failures(after.journal) == Failures(w.journal) + 1 && after.calls == w.calls
  {
    FailureCounts(cfg.breaker, w.journal, at, tradeId, reason);
    var opened' := Draft(BreakerOpened, at, TradePayload(tradeId));
    StampedOne(uuid, |w.log|, opened');
    OpenedEventsAppend(w.log, Stamped(uuid, |w.log|, [opened']));
    assert [Stamp(uuid, |w.log|, opened')][..0] == [];
    assert OpenedEvents([Stamp(uuid, |w.log|, opened')]) == 1;
  }

  lemma NoteSuccessKeeps(cfg: ExecutionConfig, uuid: Ids, w: World, tradeId: string, at: Time)
    requires Guarded(cfg) && BreakerOk(cfg, w)
    ensures var after := NoteSuccess(cfg, uuid, w, tradeId, at);
            BreakerOk(cfg, after) && Failures(after.journal) == Failures(w.journal) && after.calls == w.calls
  {
    PollCounts(cfg.breaker, w.journal, at);
    var polled := Polled(cfg.breaker, w.journal, at);
    ClearCounts(cfg.breaker, polled, Cleared(Load(cfg.breaker, polled)).(lastTradeId := Some(tradeId)));
    EmitQuiet(uuid, w.log, [Draft(BreakerReset, at, TradePayload(tradeId))]);
  }

  /** Logging anything but a "breaker opened" event leaves the tally alone. */
  lemma EmitQuiet(uuid: Ids, log: seq<AuditEventRecord>, drafts: seq<Draft>)
    requires forall d :: d in drafts ==> d.kind != BreakerOpened
    ensures OpenedEvents(Emit(uuid, log, drafts)) == OpenedEvents(log)
  {
    var more := Stamped(uuid, |log|, drafts);
    OpenedEventsAppend(log, more);
    forall e | e in more ensures e.eventType != BreakerOpened {
      var i :| 0 <= i < |more| && more[i] == e;
      assert drafts[i] in drafts;
    }
    NoOpenedEvents(more);
  }

  // ---- whole calls ---------------------------------------------------------------

  /** A body logs no breaker event and makes its adapter call, if any, under `gate`. */
  lemma LandKeeps(cfg: ExecutionConfig, uuid: Ids, w: World, tradeId: string, gate: BreakerState, body: Body)
    requires BreakerOk(cfg, w) && (body.call.Some? ==> !gate.isOpen)
    requires forall d :: d in body.drafts ==> d.kind != BreakerOpened
    ensures BreakerOk(cfg, Land(uuid, w, tradeId, gate, body))
    ensures Land(uuid, w, tradeId, gate, body).journal == w.journal
    ensures |Land(uuid, w, tradeId, gate, body).calls| <= |w.calls| + 1
  {
    EmitQuiet(uuid, w.log, body.drafts);
  }

  lemma {:induction false} LegsAreQuiet(phase: LegPhase, tradeId: string, reports: seq<LegReport>, now: Time)
    ensures forall d :: d in LegDrafts(phase, tradeId, reports, now) ==> d.kind != BreakerOpened
  {
    if reports != [] {
      LegsAreQuiet(phase, tradeId, reports[..|reports| - 1], now);
    }
  }

  lemma LiveBodyIsQuiet(cfg: ExecutionConfig, w: World, request: ExecutionIntentRequest, now: Time)
    ensures forall d :: d in LiveBody(cfg, w, request, now).drafts ==> d.kind != BreakerOpened
  {
    hide ResolveNetExposure, LegDrafts, AnyLeg;
    if NextAnswer(w.script).Answers? {
      LegsAreQuiet(OpenPhase, request.tradeId, NextAnswer(w.script).reports, now);
      LegsAreQuiet(ClosePhase, request.tradeId, NextAnswer(w.script).reports, now);
    }
  }

  /** The promise one call makes to the next. */
  predicate CallOk(cfg: ExecutionConfig, before: World, after: World)
  {
    && BreakerOk(cfg, after)
    && Failures(before.journal) <= Failures(after.journal) <= Failures(before.journal) + 1
    && |after.calls| <= |before.calls| + 1
  }

  /** Booking the outcome of a body that landed while the breaker was closed. */
  lemma BookedKeeps(cfg: ExecutionConfig, uuid: Ids, w: World, body: Body, tradeId: string, now: Time)
    requires Guarded(cfg) && BreakerOk(cfg, w) && !LastOpen(w.journal)
    requires forall d :: d in body.drafts ==> d.kind != BreakerOpened
    ensures var step := Finish(uuid, w, tradeId, Load(cfg.breaker, w.journal), body);
            && (step.outcome.Raised? ==>
                  CallOk(cfg, w, NoteFailure(cfg, uuid, step.world, tradeId, now, step.outcome.error.text)))
            && (step.outcome.Returned? ==>
                  CallOk(cfg, w, NoteResult(cfg, uuid, step.world, step.outcome.value)))
  {
    LandKeeps(cfg, uuid, w, tradeId, Load(cfg.breaker, w.journal), body);
    var step := Finish(uuid, w, tradeId, Load(cfg.breaker, w.journal), body);
    hide Land, NoteFailure, NoteSuccess, BreakerOk;
    match step.outcome
    case Raised(error) => NoteFailureKeeps(cfg, uuid, step.world, tradeId, now, error.text);
    case Returned(r) =>
      if NeedsRecovery(r.status) {
        NoteFailureKeeps(cfg, uuid, step.world, r.tradeId, r.executedAt, EndedReason(r.action, r.status));
      } else {
        NoteSuccessKeeps(cfg, uuid, step.world, r.tradeId, r.executedAt);
      }
  }

  lemma GateKeeps(cfg: ExecutionConfig, uuid: Ids, w: World, drafts: seq<Draft>, now: Time)
    requires Guarded(cfg) && BreakerOk(cfg, w)
    requires forall d :: d in drafts ==> d.kind != BreakerOpened
    ensures var passed := w.(journal := GateJournal(cfg, w.journal, now));
            && CallOk(cfg, w, passed.(log := Emit(uuid, w.log, drafts)))
            && BreakerOk(cfg, passed) && Failures(passed.journal) == Failures(w.journal)
            && (!GateShut(cfg, w.journal, now) ==> !LastOpen(passed.journal))
  {
    PollCounts(cfg.breaker, w.journal, now);
    EmitQuiet(uuid, w.log, drafts);
  }

  lemma ExecuteLiveKeeps(cfg: ExecutionConfig, uuid: Ids, w: World, request: ExecutionIntentRequest, now: Time)
    requires Guarded(cfg) && BreakerOk(cfg, w)
    ensures CallOk(cfg, w, ExecuteLive(cfg, uuid, w, request, now).world)
  {
    GateKeeps(cfg, uuid, w, [Draft(BreakerBlocked, now, TradePayload(request.tradeId))], now);
    var passed := w.(journal := GateJournal(cfg, w.journal, now));
    LiveBodyIsQuiet(cfg, passed, request, now);
    if !GateShut(cfg, w.journal, now) {
      BookedKeeps(cfg, uuid, passed, LiveBody(cfg, passed, request, now), request.tradeId, now);
    }
    hide GateShut, GateJournal, LiveBody, Finish, NoteFailure, NoteResult, BreakerOk, Emit;
  }

  lemma RebalanceKeeps(cfg: ExecutionConfig, uuid: Ids, w: World, found: TradeLedgerRecord, delta: real, quantity: real,
                       notes: Option<string>, now: Time)
    requires Guarded(cfg) && BreakerOk(cfg, w)
    ensures CallOk(cfg, w, RebalanceOnExchange(cfg, uuid, w, found, delta, quantity, notes, now).world)
  {
    var start := RebalanceStart(found.tradeId, now);
    hide GateShut, GateJournal, LiveRebalance, NoteFailure, NoteResult, BreakerOk, Emit, NotionalAllowed, Stamped;
    if !NotionalAllowed(cfg, found.symbol, Abs(delta)) {
      AnnounceKeeps(cfg, uuid, w, start);
    } else if GateShut(cfg, w.journal, now) {
      var blocked := Draft(BreakerBlocked, now, TradePayload(found.tradeId));
      EmitAppend(uuid, w.log, [start], [blocked]);
      GateKeeps(cfg, uuid, w, [start] + [blocked], now);
    } else if !cfg.hasAdapter {
      GateKeeps(cfg, uuid, w, [start], now);
    } else {
      GateKeeps(cfg, uuid, w, [], now);
      var passed := w.(journal := GateJournal(cfg, w.journal, now));
      LiveRebalanceIsQuiet(passed, found, delta, quantity, notes, now);
      BookedKeeps(cfg, uuid, passed, LiveRebalance(passed, found, delta, quantity, notes, now), found.tradeId, now);
    }
  }

  lemma AnnounceKeeps(cfg: ExecutionConfig, uuid: Ids, w: World, start: Draft)
    requires BreakerOk(cfg, w) && start.kind != BreakerOpened
    ensures CallOk(cfg, w, w.(log := Emit(uuid, w.log, [start])))
  {
    EmitQuiet(uuid, w.log, [start]);
  }

  lemma LiveRebalanceIsQuiet(w: World, found: TradeLedgerRecord, delta: real, quantity: real, notes: Option<string>,
                             now: Time)
    ensures forall d :: d in LiveRebalance(w, found, delta, quantity, notes, now).drafts ==> d.kind != BreakerOpened
  {
    hide Rebalanced;
  }

  lemma PlainBodyKeeps(cfg: ExecutionConfig, uuid: Ids, w: World, tradeId: string, gate: BreakerState, body: Body)
    requires BreakerOk(cfg, w) && body.call.None?
    requires forall d :: d in body.drafts ==> d.kind != BreakerOpened
    ensures CallOk(cfg, w, Finish(uuid, w, tradeId, gate, body).world)
  {
    LandKeeps(cfg, uuid, w, tradeId, gate, body);
  }

  lemma PaperBodiesAreQuiet(w: World, request: ExecutionIntentRequest, now: Time)
    ensures PaperOpen(request, now).call.None? && PaperClose(w, request, now).call.None?
    ensures forall d :: d in PaperOpen(request, now).drafts ==> d.kind != BreakerOpened
    ensures forall d :: d in PaperClose(w, request, now).drafts ==> d.kind != BreakerOpened
  {
    hide ResolveNetExposure;
  }

  lemma ExecuteKeeps(cfg: ExecutionConfig, uuid: Ids, w: World, request: ExecutionIntentRequest, now: Time, safe: bool)
    requires Guarded(cfg) && BreakerOk(cfg, w)
    ensures CallOk(cfg, w, Execute(cfg, uuid, w, request, now, safe).world)
  {
    PaperBodiesAreQuiet(w, request, now);
    hide BreakerOk, Finish, ExecuteLive, PaperOpen, PaperClose;
    var gate := Load(cfg.breaker, w.journal);
    if IsReplay(w, request) {
      var existing := Find(w.ledger, request.tradeId).value;
      PlainBodyKeeps(cfg, uuid, w, request.tradeId, gate,
                     Body(None, [Draft(IdempotentReplay, now, StatusPayload(request.tradeId, existing.status))], None,
                          Returned(ResultFor(request, existing, now))));
    } else if safe && request.mode == Live {
      ExecuteLiveKeeps(cfg, uuid, w, request, now);
    } else if safe {
      PlainBodyKeeps(cfg, uuid, w, request.tradeId, gate,
                     if request.action == OpenHedge then PaperOpen(request, now) else PaperClose(w, request, now));
    }
  }

  lemma RebalanceCallKeeps(cfg: ExecutionConfig, uuid: Ids, w: World, tradeId: string, delta: real, quantity: real,
                           notes: Option<string>, now: Time)
    requires Guarded(cfg) && BreakerOk(cfg, w)
    ensures CallOk(cfg, w, Rebalance(cfg, uuid, w, tradeId, delta, quantity, notes, now).world)
  {
    hide BreakerOk, Finish, RebalanceOnExchange, Rebalanced;
    if Rebalancable(w, tradeId, delta, quantity) {
      var found := Find(w.ledger, tradeId).value;
      if found.mode == Live {
        RebalanceKeeps(cfg, uuid, w, found, delta, quantity, notes, now);
      } else {
        PlainBodyKeeps(cfg, uuid, w, found.tradeId, Load(cfg.breaker, w.journal),
                       RebalanceDone(found, delta, notes, now, [RebalanceStart(found.tradeId, now)], None));
      }
    }
  }

  lemma EveryCallKeeps(cfg: ExecutionConfig, uuid: Ids, w: World, call: Call)
    requires Guarded(cfg) && BreakerOk(cfg, w)
    ensures CallOk(cfg, w, Step(cfg, uuid, w, call))
  {
    hide Execute, Rebalance, CallOk, BreakerOk, Polled, AfterReset;
    match call
    case ExecuteCall(request, now, safe) => ExecuteKeeps(cfg, uuid, w, request, now, safe);
    case RecoverCall(tradeId, recovery, notes, now) =>
      PlainBodyKeeps(cfg, uuid, w, tradeId, Load(cfg.breaker, w.journal),
                     RecoverBody(w, tradeId, recovery, notes, now));
    case RebalanceCall(tradeId, delta, quantity, notes, now) =>
      RebalanceCallKeeps(cfg, uuid, w, tradeId, delta, quantity, notes, now);
    case ReadBreaker(now) => BreakerReadAndReset(cfg, w, now);
    case ResetBreaker(now) => BreakerReadAndReset(cfg, w, now);
  }

  lemma BreakerReadAndReset(cfg: ExecutionConfig, w: World, now: Time)
    requires Guarded(cfg) && BreakerOk(cfg, w)
    ensures CallOk(cfg, w, w.(journal := Polled(cfg.breaker, w.journal, now)))
    ensures CallOk(cfg, w, w.(journal := AfterReset(cfg.breaker, w.journal, now)))
  {
    PollCounts(cfg.breaker, w.journal, now);
    var polled := Polled(cfg.breaker, w.journal, now);
    ClearCounts(cfg.breaker, polled, Cleared(Load(cfg.breaker, polled)));
  }

  /** Over every run with the breaker enabled, whatever the adapter does and whatever the
      clock does: every adapter call was made with a closed breaker, no stored failure
      count exceeds the threshold, open states are exactly those that reached it, and the
      log holds one "breaker opened" event per closed-to-open transition. */
  lemma {:induction false} BreakerGuardsEveryRun(cfg: ExecutionConfig, uuid: Ids, script: seq<AdapterAnswer>,
                                                 calls: seq<Call>)
    requires Guarded(cfg)
    ensures BreakerOk(cfg, Run(cfg, uuid, Start(script), calls))
  {
    if calls != [] {
      var earlier := calls[..|calls| - 1];
      BreakerGuardsEveryRun(cfg, uuid, script, earlier);
      EveryCallKeeps(cfg, uuid, Run(cfg, uuid, Start(script), earlier), calls[|calls| - 1]);
    }
  }

  /** In every run each call books at most one failure and reaches the adapter at most once. */
  lemma EachCallFailsAtMostOnce(cfg: ExecutionConfig, uuid: Ids, script: seq<AdapterAnswer>, calls: seq<Call>,
                                call: Call)
    requires Guarded(cfg)
    ensures var before := Run(cfg, uuid, Start(script), calls);
            var after := Step(cfg, uuid, before, call);
            Failures(before.journal) <= Failures(after.journal) <= Failures(before.journal) + 1
            && |after.calls| <= |before.calls| + 1
  {
    BreakerGuardsEveryRun(cfg, uuid, script, calls);
    EveryCallKeeps(cfg, uuid, Run(cfg, uuid, Start(script), calls), call);
  }
}
