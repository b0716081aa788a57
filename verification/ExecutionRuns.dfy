/** Runs: any sequence of calls on one orchestrator, whatever the adapter answers. */
module ExecutionRuns {
  import opened Options
  import opened Ledger
  import opened Audit
  import opened CircuitBreaker
  import opened Execution
  import opened Decimals

  datatype Call =
    | ExecuteCall(request: ExecutionIntentRequest, now: Time, safe: bool)
    | RecoverCall(tradeId: string, recovery: RecoveryAction, notes: Option<string>, now: Time)
    | RebalanceCall(tradeId: string, delta: real, quantity: real, notes: Option<string>, now: Time)
    | ReadBreaker(now: Time)
    | ResetBreaker(now: Time)

  function Step(cfg: ExecutionConfig, uuid: Ids, w: World, call: Call): World
  {
    match call
    case ExecuteCall(request, now, safe) => Execute(cfg, uuid, w, request, now, safe).world
    case RecoverCall(tradeId, recovery, notes, now) => Recover(cfg, uuid, w, tradeId, recovery, notes, now).world
    case RebalanceCall(tradeId, delta, quantity, notes, now) =>
      Rebalance(cfg, uuid, w, tradeId, delta, quantity, notes, now).world
    case ReadBreaker(now) => w.(journal := Polled(cfg.breaker, w.journal, now))
    case ResetBreaker(now) => w.(journal := AfterReset(cfg.breaker, w.journal, now))
  }

  /** Nothing recorded yet; the adapter will answer by `script`. */
  function Start(script: seq<AdapterAnswer>): World
  {
    World([], [], [], script, [])
  }

  function Run(cfg: ExecutionConfig, uuid: Ids, w: World, calls: seq<Call>): World
  {
    if calls == [] then w
    else Step(cfg, uuid, Run(cfg, uuid, w, calls[..|calls| - 1]), calls[|calls| - 1])
  }

  // ---- every call saves at most one record, and logs it ----------------------

  function NoBody(drafts: seq<Draft>): Body
  {
    Body(None, drafts, None, Raised(OtherError("")))
  }

  /** The body a call reaches, whichever way the breaker then books the outcome. */
  function BodyOf(cfg: ExecutionConfig, w: World, call: Call): Body
  {
    match call
    case ExecuteCall(request, now, safe) =>
      if IsReplay(w, request) then
        NoBody([Draft(IdempotentReplay, now,
                      StatusPayload(request.tradeId, Find(w.ledger, request.tradeId).value.status))])
      else if !safe then NoBody([])
      else if request.mode == Live then
        if !NotionalAllowed(cfg, request.symbol, Max(request.spotNotional, request.perpNotional))
           || GateShut(cfg, w.journal, now) then NoBody([])
        else LiveBody(cfg, w, request, now)
      else if request.action == OpenHedge then PaperOpen(request, now)
      else PaperClose(w, request, now)
    case RecoverCall(tradeId, recovery, notes, now) => RecoverBody(w, tradeId, recovery, notes, now)
    case RebalanceCall(tradeId, delta, quantity, notes, now) =>
      if !Rebalancable(w, tradeId, delta, quantity) then NoBody([])
      else
        var found := Find(w.ledger, tradeId).value;
        var start := RebalanceStart(found.tradeId, now);
        if found.mode == Paper then RebalanceDone(found, delta, notes, now, [start], None)
        else if !NotionalAllowed(cfg, found.symbol, Abs(delta)) || GateShut(cfg, w.journal, now) || !cfg.hasAdapter then
          NoBody([start])
        else LiveRebalance(w, found, delta, quantity, notes, now)
    case ReadBreaker(_) => NoBody([])
    case ResetBreaker(_) => NoBody([])
  }

  function LedgerAfter(ledger: seq<TradeLedgerRecord>, body: Body): seq<TradeLedgerRecord>
  {
    if body.saved.Some? then Put(ledger, body.saved.value) else ledger
  }

  predicate BreakerKind(kind: EventType)
  {
    kind in {BreakerBlocked, BreakerOpened, BreakerReset}
  }

  predicate BreakerTail(tail: seq<Draft>)
  {
    |tail| <= 1 && forall d :: d in tail ==> BreakerKind(d.kind)
  }

  lemma NoteAppends(cfg: ExecutionConfig, uuid: Ids, w: World, tradeId: string, at: Time, reason: string)
    returns (failed: seq<Draft>, succeeded: seq<Draft>)
    ensures BreakerTail(failed) && BreakerTail(succeeded)
    ensures NoteFailure(cfg, uuid, w, tradeId, at, reason).log == Emit(uuid, w.log, failed)
    ensures NoteFailure(cfg, uuid, w, tradeId, at, reason).ledger == w.ledger
    ensures NoteSuccess(cfg, uuid, w, tradeId, at).log == Emit(uuid, w.log, succeeded)
    ensures NoteSuccess(cfg, uuid, w, tradeId, at).ledger == w.ledger
  {
    EmitNone(uuid, w.log);
    var failing := NoteFailure(cfg, uuid, w, tradeId, at, reason);
    failed := if failing.log == w.log then [] else [Draft(BreakerOpened, at, TradePayload(tradeId))];
    var passing := NoteSuccess(cfg, uuid, w, tradeId, at);
    succeeded := if passing.log == w.log then [] else [Draft(BreakerReset, at, TradePayload(tradeId))];
  }

  /** A call's whole effect on ledger and log is its body's, plus at most one breaker event. */
  lemma StepIsBody(cfg: ExecutionConfig, uuid: Ids, w: World, call: Call) returns (tail: seq<Draft>)
    ensures BreakerTail(tail)
    ensures Step(cfg, uuid, w, call).ledger == LedgerAfter(w.ledger, BodyOf(cfg, w, call))
    ensures Step(cfg, uuid, w, call).log == Emit(uuid, w.log, BodyOf(cfg, w, call).drafts + tail)
  {
    tail := [];
    var body := BodyOf(cfg, w, call);
    assert body.drafts + [] == body.drafts;
    EmitNone(uuid, w.log);
    match call
    case ExecuteCall(request, now, safe) =>
      if !IsReplay(w, request) && safe && request.mode == Live {
        tail := LiveStepIsBody(cfg, uuid, w, request, now);
      }
    case RebalanceCall(tradeId, delta, quantity, notes, now) =>
      if Rebalancable(w, tradeId, delta, quantity) && Find(w.ledger, tradeId).value.mode == Live {
        tail := ExchangeStepIsBody(cfg, uuid, w, Find(w.ledger, tradeId).value, delta, quantity, notes, now);
      }
    case _ =>
  }

  lemma LiveStepIsBody(cfg: ExecutionConfig, uuid: Ids, w: World, request: ExecutionIntentRequest, now: Time)
    returns (tail: seq<Draft>)
    ensures BreakerTail(tail)
    ensures var refused := !NotionalAllowed(cfg, request.symbol, Max(request.spotNotional, request.perpNotional))
                           || GateShut(cfg, w.journal, now);
            var body := if refused then NoBody([]) else LiveBody(cfg, w, request, now);
            var after := ExecuteLive(cfg, uuid, w, request, now).world;
            after.ledger == LedgerAfter(w.ledger, body) && after.log == Emit(uuid, w.log, body.drafts + tail)
  {
    EmitNone(uuid, w.log);
    if !NotionalAllowed(cfg, request.symbol, Max(request.spotNotional, request.perpNotional)) {
      tail := [];
      assert [] + tail == [];
    } else if GateShut(cfg, w.journal, now) {
      tail := [Draft(BreakerBlocked, now, TradePayload(request.tradeId))];
      assert [] + tail == tail;
    } else {
      var open := w.(journal := GateJournal(cfg, w.journal, now));
      var body := LiveBody(cfg, open, request, now);
      assert body == LiveBody(cfg, w, request, now);
      var step := Finish(uuid, open, request.tradeId, Load(cfg.breaker, open.journal), body);
      tail := BookedTail(cfg, uuid, step, request.tradeId, now, w.log, body.drafts);
    }
  }

  /** The breaker's own event after a body has landed. */
  lemma BookedTail(cfg: ExecutionConfig, uuid: Ids, step: StepResult, tradeId: string, now: Time,
                   log: seq<AuditEventRecord>, drafts: seq<Draft>)
    returns (tail: seq<Draft>)
    requires step.world.log == Emit(uuid, log, drafts)
    ensures BreakerTail(tail)
    ensures step.outcome.Raised? ==>
              var after := NoteFailure(cfg, uuid, step.world, tradeId, now, step.outcome.error.text);
              after.ledger == step.world.ledger && after.log == Emit(uuid, log, drafts + tail)
    ensures step.outcome.Returned? ==>
              var after := NoteResult(cfg, uuid, step.world, step.outcome.value);
              after.ledger == step.world.ledger && after.log == Emit(uuid, log, drafts + tail)
  {
    if step.outcome.Raised? {
      var failed, _ := NoteAppends(cfg, uuid, step.world, tradeId, now, step.outcome.error.text);
      tail := failed;
    } else {
      var r := step.outcome.value;
      var failed, succeeded := NoteAppends(cfg, uuid, step.world, r.tradeId, r.executedAt,
                                           EndedReason(r.action, r.status));
      tail := if NeedsRecovery(r.status) then failed else succeeded;
    }
    EmitAppend(uuid, log, drafts, tail);
  }

  lemma ExchangeStepIsBody(cfg: ExecutionConfig, uuid: Ids, w: World, found: TradeLedgerRecord, delta: real,
                           quantity: real, notes: Option<string>, now: Time)
    returns (tail: seq<Draft>)
    ensures BreakerTail(tail)
    ensures var start := RebalanceStart(found.tradeId, now);
            var refused := !NotionalAllowed(cfg, found.symbol, Abs(delta)) || GateShut(cfg, w.journal, now)
                    || !cfg.hasAdapter;
            var body := if refused then NoBody([start]) else LiveRebalance(w, found, delta, quantity, notes, now);
            var after := RebalanceOnExchange(cfg, uuid, w, found, delta, quantity, notes, now).world;
            after.ledger == LedgerAfter(w.ledger, body) && after.log == Emit(uuid, w.log, body.drafts + tail)
  {
    hide Rebalanced;
    var start := RebalanceStart(found.tradeId, now);
    assert [start] + [] == [start];
    if !NotionalAllowed(cfg, found.symbol, Abs(delta)) {
      tail := [];
    } else if GateShut(cfg, w.journal, now) {
      tail := [Draft(BreakerBlocked, now, TradePayload(found.tradeId))];
      EmitAppend(uuid, w.log, [start], tail);
    } else if !cfg.hasAdapter {
      tail := [];
    } else {
      var open := w.(journal := GateJournal(cfg, w.journal, now));
      var body := LiveRebalance(open, found, delta, quantity, notes, now);
      assert body == LiveRebalance(w, found, delta, quantity, notes, now);
      var step := Finish(uuid, open, found.tradeId, Load(cfg.breaker, open.journal), body);
      tail := BookedTail(cfg, uuid, step, found.tradeId, now, w.log, body.drafts);
    }
  }
}
