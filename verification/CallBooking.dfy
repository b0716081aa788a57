/** What a live call leaves in the breaker: exactly which calls reach the exchange, and that
    each of them is booked as a failure or a success by the way it ends. */
module CallBooking {
  import opened Options
  import opened Ledger
  import opened Audit
  import opened CircuitBreaker
  import opened BreakerHistory
  import opened Decimals
  import opened Execution
  import opened BreakerSafety

  /** The call raised, or it left its trade to recovery. */
  predicate Failing(outcome: Outcome<ExecutionResult>)
  {
    outcome.Raised? || outcome.value.status in {Failed, RecoveryPending}
  }

  /** The time a call is booked at: when it began if it raised, when it ended if it returned. */
  function BookedAt(outcome: Outcome<ExecutionResult>, now: Time): Time
  {
    if outcome.Raised? then now else outcome.value.executedAt
  }

  /** The count a failure adds to: an open breaker that lets a call pass has expired. */
  function CountBefore(journal: Journal): nat
  {
    if LastOpen(journal) then 0 else LastCount(journal)
  }

  /** One failure more, and the breaker open for a cooldown if that reaches the threshold; or
      no failure and a breaker that is clear. Either way the trade is named. */
  predicate Booked(cfg: BreakerConfig, before: Journal, after: Journal, tradeId: string, failing: bool, at: Time)
  {
    && after != [] && after[|after| - 1].lastTradeId == Some(tradeId)
    && (failing ==>
          && Failures(after) == Failures(before) + 1
          && LastCount(after) == CountBefore(before) + 1
          && after[|after| - 1].lastFailureAt == Some(at)
          && (LastOpen(after) <==> CountBefore(before) + 1 >= cfg.failureThreshold)
          && (LastOpen(after) ==> after[|after| - 1].resumeAt == Some(at + cfg.cooldown)))
    && (!failing ==> Failures(after) == Failures(before) && LastCount(after) == 0 && !LastOpen(after))
  }

  lemma PassedIsClear(cfg: ExecutionConfig, journal: Journal, now: Time)
    requires Guarded(cfg) && JournalOk(cfg.breaker, journal) && !GateShut(cfg, journal, now)
    ensures var passed := GateJournal(cfg, journal, now);
            && JournalOk(cfg.breaker, passed) && !LastOpen(passed) && LastCount(passed) == CountBefore(journal)
            && Failures(passed) == Failures(journal)
  {
    PollCounts(cfg.breaker, journal, now);
  }

  lemma FailureIsLast(cfg: BreakerConfig, journal: Journal, at: Time, tradeId: string, reason: string)
    requires cfg.enabled && !LastOpen(journal)
    ensures var after := AfterFailure(cfg, journal, at, tradeId, reason);
            && after != [] && LastCount(after) == CountBefore(journal) + 1
            && var last := after[|after| - 1];
               && last.lastFailureAt == Some(at) && last.lastTradeId == Some(tradeId)
               && (last.isOpen <==> CountBefore(journal) + 1 >= cfg.failureThreshold)
               && (last.isOpen ==> last.resumeAt == Some(at + cfg.cooldown))
  {
  }

  lemma FailureIsBooked(cfg: ExecutionConfig, uuid: Ids, w: World, tradeId: string, at: Time, reason: string)
    requires Guarded(cfg) && BreakerOk(cfg, w) && !LastOpen(w.journal)
    ensures Booked(cfg.breaker, w.journal, NoteFailure(cfg, uuid, w, tradeId, at, reason).journal, tradeId, true, at)
  {
    FailureCounts(cfg.breaker, w.journal, at, tradeId, reason);
    FailureIsLast(cfg.breaker, w.journal, at, tradeId, reason);
    hide Failures, Trips, JournalOk, AfterFailure, LastCount, CountBefore, Emit, Current;
  }

  lemma SuccessIsBooked(cfg: ExecutionConfig, uuid: Ids, w: World, tradeId: string, at: Time)
    requires Guarded(cfg) && BreakerOk(cfg, w) && !LastOpen(w.journal)
    ensures Booked(cfg.breaker, w.journal, NoteSuccess(cfg, uuid, w, tradeId, at).journal, tradeId, false, at)
  {
    NoteSuccessKeeps(cfg, uuid, w, tradeId, at);
    hide Failures, BreakerOk;
  }

  /** The booking of a call that was let through. */
  lemma OutcomeIsBooked(cfg: ExecutionConfig, uuid: Ids, step: StepResult, tradeId: string, now: Time)
    requires Guarded(cfg) && BreakerOk(cfg, step.world) && !LastOpen(step.world.journal)
    requires step.outcome.Returned? ==> step.outcome.value.tradeId == tradeId
    ensures var after := if step.outcome.Raised? then
                           NoteFailure(cfg, uuid, step.world, tradeId, now, step.outcome.error.text)
                         else NoteResult(cfg, uuid, step.world, step.outcome.value);
            Booked(cfg.breaker, step.world.journal, after.journal, tradeId, Failing(step.outcome),
                   BookedAt(step.outcome, now))
  {
    hide Booked, NoteFailure, NoteSuccess, BreakerOk;
    var at := BookedAt(step.outcome, now);
    if step.outcome.Raised? {
      FailureIsBooked(cfg, uuid, step.world, tradeId, at, step.outcome.error.text);
    } else {
      var r := step.outcome.value;
      FailureIsBooked(cfg, uuid, step.world, tradeId, at, EndedReason(r.action, r.status));
      SuccessIsBooked(cfg, uuid, step.world, tradeId, at);
    }
  }

  // ---- which calls get that far -----------------------------------------------------------------

  /** The safety gate, the limits and the breaker let a live intent through. */
  predicate LetThrough(cfg: ExecutionConfig, w: World, request: ExecutionIntentRequest, now: Time, safe: bool)
  {
    && request.mode == Live && safe && !IsReplay(w, request)
    && NotionalAllowed(cfg, request.symbol, Max(request.spotNotional, request.perpNotional))
    && !GateShut(cfg, w.journal, now)
  }

  lemma LandedIsBooked(cfg: ExecutionConfig, uuid: Ids, w: World, body: Body, tradeId: string, now: Time)
    requires Guarded(cfg) && BreakerOk(cfg, w) && !GateShut(cfg, w.journal, now)
    requires forall d :: d in body.drafts ==> d.kind != BreakerOpened
    requires body.outcome.Returned? ==> body.outcome.value.tradeId == tradeId
    ensures var passed := w.(journal := GateJournal(cfg, w.journal, now));
            var step := Finish(uuid, passed, tradeId, Load(cfg.breaker, passed.journal), body);
            var after := if step.outcome.Raised? then
                           NoteFailure(cfg, uuid, step.world, tradeId, now, step.outcome.error.text)
                         else NoteResult(cfg, uuid, step.world, step.outcome.value);
            Booked(cfg.breaker, w.journal, after.journal, tradeId, Failing(step.outcome), BookedAt(step.outcome, now))
  {
    PassedIsClear(cfg, w.journal, now);
    GateKeeps(cfg, uuid, w, [], now);
    var passed := w.(journal := GateJournal(cfg, w.journal, now));
    var gate := Load(cfg.breaker, passed.journal);
    LandKeeps(cfg, uuid, passed, tradeId, gate, body);
    hide Land, BreakerOk, NoteFailure, NoteResult, GateShut, GateJournal, Emit;
    OutcomeIsBooked(cfg, uuid, Finish(uuid, passed, tradeId, gate, body), tradeId, now);
  }

  /** A live intent that is let through is booked, as a failure exactly when it raises or
      leaves the trade failed or half done; every other intent books nothing. */
  lemma IntentIsBooked(cfg: ExecutionConfig, uuid: Ids, w: World, request: ExecutionIntentRequest, now: Time,
                       safe: bool)
    requires Guarded(cfg) && BreakerOk(cfg, w)
    ensures var step := Execute(cfg, uuid, w, request, now, safe);
            if LetThrough(cfg, w, request, now, safe) then
              Booked(cfg.breaker, w.journal, step.world.journal, request.tradeId, Failing(step.outcome),
                     BookedAt(step.outcome, now))
            else Failures(step.world.journal) == Failures(w.journal) && step.world.calls == w.calls
  {
    hide BreakerOk, NotionalAllowed, IsReplay, GateShut, ExecuteLive, Booked, Put, ResolveNetExposure;
    if LetThrough(cfg, w, request, now, safe) {
      PassedIsBooked(cfg, uuid, w, request, now);
    } else if request.mode == Live && safe && !IsReplay(w, request) {
      StoppedBooksNothing(cfg, uuid, w, request, now);
    }
  }

  lemma PassedIsBooked(cfg: ExecutionConfig, uuid: Ids, w: World, request: ExecutionIntentRequest, now: Time)
    requires Guarded(cfg) && BreakerOk(cfg, w)
    requires NotionalAllowed(cfg, request.symbol, Max(request.spotNotional, request.perpNotional))
    requires !GateShut(cfg, w.journal, now)
    ensures var step := ExecuteLive(cfg, uuid, w, request, now);
            Booked(cfg.breaker, w.journal, step.world.journal, request.tradeId, Failing(step.outcome),
                   BookedAt(step.outcome, now))
  {
    var passed := w.(journal := GateJournal(cfg, w.journal, now));
    LiveBodyIsQuiet(cfg, passed, request, now);
    LiveBodyNames(cfg, passed, request, now);
    hide BreakerOk, LiveBody, Finish, NoteFailure, NoteResult, GateJournal, GateShut, NotionalAllowed, Booked;
    LandedIsBooked(cfg, uuid, w, LiveBody(cfg, passed, request, now), request.tradeId, now);
  }

  lemma LiveBodyNames(cfg: ExecutionConfig, w: World, request: ExecutionIntentRequest, now: Time)
    ensures var outcome := LiveBody(cfg, w, request, now).outcome;
            outcome.Returned? ==> outcome.value.tradeId == request.tradeId
  {
    hide LegDrafts, LiveStatus, ResolveNetExposure;
  }

  lemma StoppedBooksNothing(cfg: ExecutionConfig, uuid: Ids, w: World, request: ExecutionIntentRequest, now: Time)
    requires Guarded(cfg) && BreakerOk(cfg, w)
    requires !NotionalAllowed(cfg, request.symbol, Max(request.spotNotional, request.perpNotional))
          || GateShut(cfg, w.journal, now)
    ensures var after := ExecuteLive(cfg, uuid, w, request, now).world;
            Failures(after.journal) == Failures(w.journal) && after.calls == w.calls
  {
    PollCounts(cfg.breaker, w.journal, now);
    hide BreakerOk, GateShut, NotionalAllowed, LiveBody, Emit;
  }

  /** A rebalance call gets as far as asking the exchange. */
  predicate AsksExchange(cfg: ExecutionConfig, w: World, tradeId: string, delta: real, quantity: real, now: Time)
  {
    && Rebalancable(w, tradeId, delta, quantity)
    && var found := Find(w.ledger, tradeId).value;
       && found.mode == Live && NotionalAllowed(cfg, found.symbol, Abs(delta)) && !GateShut(cfg, w.journal, now)
       && cfg.hasAdapter
  }

  /** A rebalance is booked when it asks the exchange, a missing leg report being a failure,
      and books nothing when it does not. */
  lemma RebalanceIsBooked(cfg: ExecutionConfig, uuid: Ids, w: World, tradeId: string, delta: real, quantity: real,
                          notes: Option<string>, now: Time)
    requires Guarded(cfg) && BreakerOk(cfg, w)
    ensures var step := Rebalance(cfg, uuid, w, tradeId, delta, quantity, notes, now);
            if AsksExchange(cfg, w, tradeId, delta, quantity, now) then
              Booked(cfg.breaker, w.journal, step.world.journal, tradeId, Failing(step.outcome),
                     BookedAt(step.outcome, now))
            else Failures(step.world.journal) == Failures(w.journal)
  {
    PollCounts(cfg.breaker, w.journal, now);
    FindBelongs(w.ledger, tradeId);
    if AsksExchange(cfg, w, tradeId, delta, quantity, now) {
      var found := Find(w.ledger, tradeId).value;
      var passed := w.(journal := GateJournal(cfg, w.journal, now));
      LiveRebalanceIsQuiet(passed, found, delta, quantity, notes, now);
      RebalanceBodyNames(passed, found, delta, quantity, notes, now);
      hide LiveRebalance, Rebalanced, BreakerOk, NotionalAllowed, GateShut, NoteFailure, NoteResult, Booked;
      LandedIsBooked(cfg, uuid, w, LiveRebalance(passed, found, delta, quantity, notes, now), tradeId, now);
    } else {
      hide LiveRebalance, Rebalanced, BreakerOk, NotionalAllowed, Put;
    }
  }

  /** One call was made on the exchange, for this trade and with this order. */
  predicate OneCall(before: World, after: World, tradeId: string, order: AdapterOrder)
  {
    && |after.calls| == |before.calls| + 1 && after.calls[..|before.calls|] == before.calls
    && after.calls[|before.calls|].tradeId == tradeId && after.calls[|before.calls|].order == order
  }

  /** The order of a rebalance that asks the exchange: the whole quantity, sold to add to the
      short perp leg and bought, reduce-only, to take from it. */
  lemma RebalanceOrders(cfg: ExecutionConfig, uuid: Ids, w: World, tradeId: string, delta: real, quantity: real,
                        notes: Option<string>, now: Time)
    ensures var after := Rebalance(cfg, uuid, w, tradeId, delta, quantity, notes, now).world;
            if AsksExchange(cfg, w, tradeId, delta, quantity, now) then
              var symbol := Find(w.ledger, tradeId).value.symbol;
              OneCall(w, after, tradeId, if delta > 0.0 then MovePerp(symbol, Sell, quantity, false)
                                         else MovePerp(symbol, Buy, quantity, true))
            else after.calls == w.calls
  {
    FindBelongs(w.ledger, tradeId);
    if AsksExchange(cfg, w, tradeId, delta, quantity, now) {
      var found := Find(w.ledger, tradeId).value;
      var passed := w.(journal := GateJournal(cfg, w.journal, now));
      RebalanceBodyNames(passed, found, delta, quantity, notes, now);
      hide LiveRebalance, NotionalAllowed, GateShut, NoteFailure, NoteResult, Emit, Put;
      NotesKeepCalls(cfg, uuid, Finish(uuid, passed, tradeId, Load(cfg.breaker, passed.journal),
                                       LiveRebalance(passed, found, delta, quantity, notes, now)), tradeId, now);
    } else {
      hide LiveRebalance, Rebalanced, NotionalAllowed, Put, Emit;
    }
  }

  lemma RebalanceBodyNames(w: World, found: TradeLedgerRecord, delta: real, quantity: real, notes: Option<string>,
                           now: Time)
    ensures var body := LiveRebalance(w, found, delta, quantity, notes, now);
            body.call == Some(MoveFor(found.symbol, delta, quantity))
            && (body.outcome.Returned? ==> body.outcome.value.tradeId == found.tradeId)
  {
    hide Round4;
  }

  lemma NotesKeepCalls(cfg: ExecutionConfig, uuid: Ids, step: StepResult, tradeId: string, now: Time)
    ensures step.outcome.Raised? ==>
              NoteFailure(cfg, uuid, step.world, tradeId, now, step.outcome.error.text).calls == step.world.calls
    ensures step.outcome.Returned? ==> NoteResult(cfg, uuid, step.world, step.outcome.value).calls == step.world.calls
  {
  }

  // ---- the same, said of the configuration, the ledger and the stored breaker state -----------------

  /** What a live order needs from the configuration and the breaker. */
  predicate MayTrade(cfg: ExecutionConfig, w: World, symbol: string, notional: real, now: Time)
  {
    && cfg.liveExecutionEnabled && cfg.hasAdapter
    && (cfg.liveSymbolAllowlist == {} || symbol in cfg.liveSymbolAllowlist)
    && (cfg.maxLiveNotional == None || notional <= cfg.maxLiveNotional.value)
    && (w.journal == [] || w.journal[|w.journal| - 1].resumeAt == None
        || now >= w.journal[|w.journal| - 1].resumeAt.value)
  }

  lemma GateByState(cfg: ExecutionConfig, w: World, now: Time)
    requires Guarded(cfg) && BreakerOk(cfg, w)
    ensures GateShut(cfg, w.journal, now) <==>
              && w.journal != [] && w.journal[|w.journal| - 1].resumeAt.Some?
              && now < w.journal[|w.journal| - 1].resumeAt.value
  {
    if w.journal != [] {
      assert Coherent(cfg.breaker, w.journal[|w.journal| - 1]);
    }
  }

  lemma MayTradeIff(cfg: ExecutionConfig, w: World, symbol: string, notional: real, now: Time)
    requires Guarded(cfg) && BreakerOk(cfg, w)
    ensures MayTrade(cfg, w, symbol, notional, now)
       <==> NotionalAllowed(cfg, symbol, notional) && !GateShut(cfg, w.journal, now) && cfg.hasAdapter
  {
    GateByState(cfg, w, now);
    hide GateShut, BreakerOk;
  }

  /** A live intent places exactly one call on the exchange if and only if it is safe, within
      the limits, the breaker's resume time is not ahead, and there is something to do: the
      trade of an open is new, still a candidate, failed or cancelled, the trade of a close is
      known and not closed. */
  lemma IntentReachesExchangeIff(cfg: ExecutionConfig, uuid: Ids, w: World, request: ExecutionIntentRequest, now: Time,
                                 safe: bool)
    requires Guarded(cfg) && BreakerOk(cfg, w) && request.mode == Live && request.action != RebalanceHedge
    ensures var after := Execute(cfg, uuid, w, request, now, safe).world;
            var existing := Find(w.ledger, request.tradeId);
            var notional := if request.spotNotional < request.perpNotional then request.perpNotional
                            else request.spotNotional;
            var reached := && safe && MayTrade(cfg, w, request.symbol, notional, now)
                           && if request.action == OpenHedge
                              then existing.None? || existing.value.status in {Candidate, Failed, Cancelled}
                              else existing.Some? && existing.value.status != Closed;
            && (reached ==> OneCall(w, after, request.tradeId, if request.action == OpenHedge then PlaceOpen(request)
                                                               else PlaceClose(request)))
            && (!reached ==> after.calls == w.calls)
  {
    var notional := Max(request.spotNotional, request.perpNotional);
    MayTradeIff(cfg, w, request.symbol, notional, now);
    ReplayIff(w, request);
    hide MayTrade, NotionalAllowed, GateShut, ExecuteLive, BreakerOk, OneCall, PaperOpen, PaperClose, Emit, IsReplay,
         Find;
    if safe && !IsReplay(w, request) {
      LiveCalls(cfg, uuid, w, request, now);
    }
  }

  /** An open or close is a replay exactly when its trade needs nothing done. */
  lemma ReplayIff(w: World, request: ExecutionIntentRequest)
    requires request.action != RebalanceHedge
    ensures var existing := Find(w.ledger, request.tradeId);
            IsReplay(w, request) <==>
              existing.Some? && if request.action == OpenHedge
                                then existing.value.status !in {Candidate, Failed, Cancelled}
                                else existing.value.status == Closed
  {
    var existing := Find(w.ledger, request.tradeId);
    if existing.Some? {
      match existing.value.status { case Candidate => case Open => case Hedged => case Closing => case Closed =>
        case Failed => case RecoveryPending => case Cancelled => }
    }
  }

  /** The one call of a live intent that passes limits and breaker. */
  lemma LiveCalls(cfg: ExecutionConfig, uuid: Ids, w: World, request: ExecutionIntentRequest, now: Time)
    ensures var after := ExecuteLive(cfg, uuid, w, request, now).world;
            var asked := NotionalAllowed(cfg, request.symbol, Max(request.spotNotional, request.perpNotional))
                         && !GateShut(cfg, w.journal, now) && cfg.hasAdapter
                         && (request.action == OpenHedge || Find(w.ledger, request.tradeId).Some?);
            if asked then
              OneCall(w, after, request.tradeId, if request.action == OpenHedge then PlaceOpen(request)
                                                 else PlaceClose(request))
            else after.calls == w.calls
  {
    var passed := w.(journal := GateJournal(cfg, w.journal, now));
    var gate := Load(cfg.breaker, passed.journal);
    var body := LiveBody(cfg, passed, request, now);
    hide GateShut, GateJournal, Emit, Put, LegDrafts, LiveStatus, ResolveNetExposure, NoteFailure, NoteResult,
         NotionalAllowed;
    NotesKeepCalls(cfg, uuid, Finish(uuid, passed, request.tradeId, gate, body), request.tradeId, now);
  }

  // ---- what the breaker tells the log -----------------------------------------------------------------

  /** A live intent that only the breaker stops says so in one event and does nothing else. */
  lemma BlockedIsLogged(cfg: ExecutionConfig, uuid: Ids, w: World, request: ExecutionIntentRequest, now: Time)
    requires request.mode == Live && !IsReplay(w, request)
    requires NotionalAllowed(cfg, request.symbol, Max(request.spotNotional, request.perpNotional))
    requires GateShut(cfg, w.journal, now)
    ensures var step := Execute(cfg, uuid, w, request, now, true);
            && step.outcome.Raised? && step.outcome.error.ValueError?
            && step.world.ledger == w.ledger && step.world.script == w.script && step.world.calls == w.calls
            && |step.world.log| == |w.log| + 1 && step.world.log[..|w.log|] == w.log
            && step.world.log[|w.log|].eventType == BreakerBlocked
            && step.world.log[|w.log|].payload.tradeId == Some(request.tradeId)
            && step.world.log[|w.log|].occurredAt == now
  {
  }

  /** A success is told as a reset exactly when failures were counted before it. */
  lemma ResetIsLogged(cfg: ExecutionConfig, uuid: Ids, w: World, tradeId: string, at: Time)
    requires Guarded(cfg) && BreakerOk(cfg, w) && !LastOpen(w.journal)
    ensures var after := NoteSuccess(cfg, uuid, w, tradeId, at).log;
            if LastCount(w.journal) == 0 then after == w.log
            else |after| == |w.log| + 1 && after[..|w.log|] == w.log && after[|w.log|].eventType == BreakerReset
                 && after[|w.log|].payload.tradeId == Some(tradeId) && after[|w.log|].occurredAt == at
  {
  }

  // ---- calls that are refused ---------------------------------------------------------------------------

  /** The limits of the configuration rule out a live order of this size. */
  predicate BeyondLimits(cfg: ExecutionConfig, symbol: string, notional: real)
  {
    || !cfg.liveExecutionEnabled
    || (cfg.liveSymbolAllowlist != {} && symbol !in cfg.liveSymbolAllowlist)
    || (cfg.maxLiveNotional.Some? && notional > cfg.maxLiveNotional.value)
  }

  /** An intent that is no replay is refused as a bad value, without a trace, by the safety gate
      or, in live mode, by a limit. */
  lemma RefusedWithoutATrace(cfg: ExecutionConfig, uuid: Ids, w: World, request: ExecutionIntentRequest, now: Time,
                             safe: bool)
    requires !IsReplay(w, request)
    requires !safe || (request.mode == Live
                       && BeyondLimits(cfg, request.symbol, Max(request.spotNotional, request.perpNotional)))
    ensures var step := Execute(cfg, uuid, w, request, now, safe);
            step.world == w && step.outcome.Raised? && step.outcome.error.ValueError?
  {
  }

  /** A rebalance of a live trade announces itself before it is refused: by a limit or for want
      of an adapter after the start event alone, by the breaker with the blocked event after it.
      A trade, delta or quantity that is no good leaves no trace at all. */
  lemma RefusedRebalanceLogs(cfg: ExecutionConfig, uuid: Ids, w: World, r: TradeLedgerRecord, delta: real,
                             quantity: real, notes: Option<string>, now: Time)
    returns (more: seq<AuditEventRecord>)
    requires Find(w.ledger, r.tradeId) == Some(r) && r.mode == Live
    requires !AsksExchange(cfg, w, r.tradeId, delta, quantity, now)
    ensures var step := Rebalance(cfg, uuid, w, r.tradeId, delta, quantity, notes, now);
            && step.outcome.Raised? && step.outcome.error.ValueError?
            && step.world.ledger == w.ledger && step.world.log == w.log + more
            && (r.status !in {Hedged, Open} || quantity <= 0.0 || delta == 0.0 ==> step.world == w)
    ensures r.status in {Hedged, Open} && quantity > 0.0 && delta != 0.0 ==>
              && |more| == (if !BeyondLimits(cfg, r.symbol, if delta < 0.0 then -delta else delta)
                               && GateShut(cfg, w.journal, now) then 2 else 1)
              && more[0].eventType == RebalanceStarted && more[0].payload.tradeId == Some(r.tradeId)
              && (|more| == 2 ==>
                    more[1].eventType == BreakerBlocked && more[1].payload.tradeId == Some(r.tradeId))
  {
    var start, blocked := RebalanceStart(r.tradeId, now), Draft(BreakerBlocked, now, TradePayload(r.tradeId));
    StampedOne(uuid, |w.log|, start);
    StampedOne(uuid, |w.log| + 1, blocked);
    hide LiveRebalance, GateShut, Stamped;
    if !Rebalancable(w, r.tradeId, delta, quantity) {
      more := [];
    } else if NotionalAllowed(cfg, r.symbol, Abs(delta)) && GateShut(cfg, w.journal, now) {
      more := [Stamp(uuid, |w.log|, start), Stamp(uuid, |w.log| + 1, blocked)];
      assert w.log + more == (w.log + [more[0]]) + [more[1]];
    } else {
      more := [Stamp(uuid, |w.log|, start)];
    }
  }
}
