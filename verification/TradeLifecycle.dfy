/** The life of a trade over whole runs. */
module TradeLifecycle {
  import opened Options
  import opened Ledger
  import opened Audit
  import opened CircuitBreaker
  import opened Execution
  import opened ExecutionRuns
  import opened Decimals

  /** Open and close intents, recovery and rebalancing. A rebalance sent as an execution
      intent is another matter: it runs the close path. */
  predicate Plain(call: Call)
  {
    call.ExecuteCall? ==> call.request.action != RebalanceHedge
  }

  function TradeOf(call: Call): Option<string>
  {
    match call
    case ExecuteCall(request, _, _) => Some(request.tradeId)
    case RecoverCall(tradeId, _, _, _) => Some(tradeId)
    case RebalanceCall(tradeId, _, _, _, _) => Some(tradeId)
    case _ => None
  }

  /** A call saves only under its own trade's id. */
  lemma SavesItsOwnTrade(cfg: ExecutionConfig, w: World, call: Call)
    ensures BodyOf(cfg, w, call).saved.Some? ==> Some(BodyOf(cfg, w, call).saved.value.tradeId) == TradeOf(call)
  {
    hide Round4, ResolveNetExposure, LegDrafts, AnyLeg;
    if TradeOf(call).Some? { FindBelongs(w.ledger, TradeOf(call).value); }
  }

  /** What a call leaves under any id. */
  lemma StepFinds(cfg: ExecutionConfig, uuid: Ids, w: World, call: Call, id: string)
    ensures var body := BodyOf(cfg, w, call);
            Find(Step(cfg, uuid, w, call).ledger, id)
            == if body.saved.Some? && TradeOf(call) == Some(id) then body.saved else Find(w.ledger, id)
  {
    var tail := StepIsBody(cfg, uuid, w, call);
    SavesItsOwnTrade(cfg, w, call);
    hide BodyOf, Step;
    var body := BodyOf(cfg, w, call);
    if body.saved.Some? {
      FindPut(w.ledger, body.saved.value, id);
    }
  }

  predicate IsClosed(w: World, id: string)
  {
    Find(w.ledger, id).Some? && Find(w.ledger, id).value.status == Closed
  }

  lemma CallKeepsClosed(cfg: ExecutionConfig, uuid: Ids, w: World, call: Call, id: string)
    requires Plain(call) && IsClosed(w, id)
    ensures Find(Step(cfg, uuid, w, call).ledger, id) == Find(w.ledger, id)
  {
    StepFinds(cfg, uuid, w, call, id);
    assert TradeOf(call) == Some(id) ==> BodyOf(cfg, w, call).saved.None?;
  }

  /** A closed record never changes again, whatever runs afterwards. */
  lemma {:induction false} ClosedStaysClosed(cfg: ExecutionConfig, uuid: Ids, w: World, calls: seq<Call>, id: string)
    requires IsClosed(w, id) && forall c :: c in calls ==> Plain(c)
    ensures Find(Run(cfg, uuid, w, calls).ledger, id) == Find(w.ledger, id)
  {
    if calls != [] {
      ClosedStaysClosed(cfg, uuid, w, calls[..|calls| - 1], id);
      CallKeepsClosed(cfg, uuid, Run(cfg, uuid, w, calls[..|calls| - 1]), calls[|calls| - 1], id);
    }
  }

  /** The one way round: an execution intent whose action is a rebalance, that is let
      through by the safety gate and, in live mode, by every check before the exchange. */
  predicate ClosesAgain(cfg: ExecutionConfig, w: World, request: ExecutionIntentRequest, now: Time, safe: bool)
  {
    && request.action == RebalanceHedge
    && safe
    && (request.mode == Live ==>
          && NotionalAllowed(cfg, request.symbol, Max(request.spotNotional, request.perpNotional))
          && !GateShut(cfg, w.journal, now)
          && cfg.hasAdapter)
  }

  /** The closing time such a close would stamp, if it gets as far as closing. */
  function StampedAt(w: World, request: ExecutionIntentRequest, now: Time): Option<Time>
  {
    if request.mode == Paper then Some(now + 2 * MILLISECOND)
    else
      match NextAnswer(w.script)
      case Answers(reports) =>
        if LiveStatus(reports, Closed) == Closed then Some(now + (|reports| + 1) * MILLISECOND) else None
      case Raises(_) => None
  }

  /** The close would write what is there already: same time, same result, same notes. */
  predicate WritesTheSame(w: World, request: ExecutionIntentRequest, now: Time)
    requires Find(w.ledger, request.tradeId).Some?
  {
    var r := Find(w.ledger, request.tradeId).value;
    && r.closedAt.Some? && r.closedAt == StampedAt(w, request, now)
    && r.realizedPnl == request.realizedPnl && OrNotes(request.notes, r.notes) == r.notes
  }

  /** Exactly those intents change a closed record, unless what they write is what it holds
      already, which takes a closing time that still lies ahead. */
  lemma ClosedRecordKeptIff(cfg: ExecutionConfig, uuid: Ids, w: World, request: ExecutionIntentRequest, now: Time,
                            safe: bool)
    requires IsClosed(w, request.tradeId)
    ensures Find(Execute(cfg, uuid, w, request, now, safe).world.ledger, request.tradeId)
         == Find(w.ledger, request.tradeId)
       <==> !ClosesAgain(cfg, w, request, now, safe) || WritesTheSame(w, request, now)
    ensures WritesTheSame(w, request, now) ==> Find(w.ledger, request.tradeId).value.closedAt.value > now
  {
    hide AnyLeg, LegDrafts;
    var call := ExecuteCall(request, now, safe);
    StepFinds(cfg, uuid, w, call, request.tradeId);
  }

  // ---- ids --------------------------------------------------------------------------

  /** No run lists a trade twice, unless its first ledger did. */
  lemma {:induction false} RunsKeepIdsUnique(cfg: ExecutionConfig, uuid: Ids, w: World, calls: seq<Call>)
    requires UniqueIds(w.ledger)
    ensures UniqueIds(Run(cfg, uuid, w, calls).ledger)
  {
    if calls != [] {
      var earlier, call := calls[..|calls| - 1], calls[|calls| - 1];
      RunsKeepIdsUnique(cfg, uuid, w, earlier);
      var before := Run(cfg, uuid, w, earlier);
      var tail := StepIsBody(cfg, uuid, before, call);
      hide BodyOf, Step, Put;
      if BodyOf(cfg, before, call).saved.Some? {
        PutKeepsUnique(before.ledger, BodyOf(cfg, before, call).saved.value);
      }
    }
  }

  /** Every ledger reachable from an empty start lists each trade once. */
  lemma ReachableIdsAreUnique(cfg: ExecutionConfig, uuid: Ids, script: seq<AdapterAnswer>, calls: seq<Call>)
    ensures UniqueIds(Run(cfg, uuid, Start(script), calls).ledger)
  {
    RunsKeepIdsUnique(cfg, uuid, Start(script), calls);
  }

  // ---- what a live call's status means ---------------------------------------------------

  /** A live open that gets an answer ends failed when a leg failed, in recovery when none
      failed and one is partial, and hedged otherwise: legs that are only submitted count as
      success. */
  lemma LiveOpenEndsAs(cfg: ExecutionConfig, uuid: Ids, w: World, request: ExecutionIntentRequest, now: Time)
    requires request.action == OpenHedge && request.mode == Live && !IsReplay(w, request)
    requires Execute(cfg, uuid, w, request, now, true).outcome.Returned?
    ensures NextAnswer(w.script).Answers?
    ensures var legs := NextAnswer(w.script).reports;
            var status := Execute(cfg, uuid, w, request, now, true).outcome.value.status;
            && (status == Hedged <==> forall leg :: leg in legs ==> leg.status in {Filled, Submitted})
            && (status == Failed <==> exists leg :: leg in legs && leg.status == LegFailed)
            && (status == RecoveryPending <==>
                  && (exists leg :: leg in legs && leg.status == Partial)
                  && forall leg :: leg in legs ==> leg.status != LegFailed)
  {
    hide ResolveNetExposure, LegDrafts, NoteFailure, NoteResult;
    var legs := NextAnswer(w.script).reports;
    forall leg | leg in legs ensures leg.status in {Filled, Submitted, Partial, LegFailed} {
      match leg.status { case Submitted => case Filled => case Partial => case LegFailed => }
    }
  }

  // ---- opening twice ------------------------------------------------------------

  /** Once an open intent has returned, sending another one for the same trade is a replay
      exactly when the first did not end in failure, and a replay leaves the ledger alone. */
  lemma OpenIsIdempotent(cfg: ExecutionConfig, uuid: Ids, w: World, first: ExecutionIntentRequest,
                         again: ExecutionIntentRequest, now: Time, later: Time, safe: bool, safeLater: bool)
    requires first.action == again.action == OpenHedge && first.tradeId == again.tradeId
    requires Execute(cfg, uuid, w, first, now, safe).outcome.Returned?
    ensures var step := Execute(cfg, uuid, w, first, now, safe);
            && (IsReplay(step.world, again) <==> step.outcome.value.status != Failed)
            && (step.outcome.value.status != Failed ==>
                  var second := Execute(cfg, uuid, step.world, again, later, safeLater);
                  && second.world.ledger == step.world.ledger
                  && second.outcome.Returned?
                  && second.outcome.value.status == step.outcome.value.status)
  {
    hide ResolveNetExposure, LegDrafts;
    StepFinds(cfg, uuid, w, ExecuteCall(first, now, safe), first.tradeId);
    OpenReturnsWhatItSaved(cfg, uuid, w, first, now, safe);
  }

  lemma OpenReturnsWhatItSaved(cfg: ExecutionConfig, uuid: Ids, w: World, request: ExecutionIntentRequest, now: Time,
                               safe: bool)
    requires request.action == OpenHedge && Execute(cfg, uuid, w, request, now, safe).outcome.Returned?
    ensures var step := Execute(cfg, uuid, w, request, now, safe);
            var body := BodyOf(cfg, w, ExecuteCall(request, now, safe));
            && (IsReplay(w, request) ==>
                step.outcome.value.status == Find(w.ledger, request.tradeId).value.status && body.saved.None?)
            && (!IsReplay(w, request) ==> body.saved.Some? && body.saved.value.status == step.outcome.value.status
                                          && body.saved.value.status in {Hedged, RecoveryPending, Failed})
  {
    hide ResolveNetExposure, LegDrafts;
  }

  // ---- timestamps ------------------------------------------------------------------

  /** closed_at is set exactly on closed records, and lies after opened_at. */
  predicate Dated(r: TradeLedgerRecord, latest: Time)
  {
    && r.openedAt <= latest
    && (r.closedAt.Some? <==> r.status == Closed)
    && (r.closedAt.Some? ==> r.openedAt < r.closedAt.value)
  }

  predicate ClockForward(calls: seq<Call>)
  {
    forall i, j :: 0 <= i < j < |calls| ==> calls[i].now <= calls[j].now
  }

  lemma SavedIsDated(cfg: ExecutionConfig, w: World, call: Call)
    requires Plain(call) && forall r :: r in w.ledger ==> Dated(r, call.now)
    ensures BodyOf(cfg, w, call).saved.Some? ==> Dated(BodyOf(cfg, w, call).saved.value, call.now)
  {
    hide Round4, ResolveNetExposure, LegDrafts, AnyLeg;
    if TradeOf(call).Some? { FindBelongs(w.ledger, TradeOf(call).value); }
  }

  lemma PutMembers(ledger: seq<TradeLedgerRecord>, record: TradeLedgerRecord)
    ensures forall r :: r in Put(ledger, record) ==> r == record || r in ledger
  {
  }

  lemma {:induction false} ClosedAtMeansClosed(cfg: ExecutionConfig, uuid: Ids, script: seq<AdapterAnswer>,
                                               calls: seq<Call>, latest: Time)
    requires ClockForward(calls) && forall c :: c in calls ==> Plain(c) && c.now <= latest
    ensures forall r :: r in Run(cfg, uuid, Start(script), calls).ledger ==> Dated(r, latest)
  {
    if calls != [] {
      var earlier, call := calls[..|calls| - 1], calls[|calls| - 1];
      var w := Run(cfg, uuid, Start(script), earlier);
      ClosedAtMeansClosed(cfg, uuid, script, earlier, call.now);
      var tail := StepIsBody(cfg, uuid, w, call);
      SavedIsDated(cfg, w, call);
      hide BodyOf, Step;
      if BodyOf(cfg, w, call).saved.Some? {
        PutMembers(w.ledger, BodyOf(cfg, w, call).saved.value);
      }
    }
  }

  // ---- paper trading -----------------------------------------------------------------

  predicate PaperCall(call: Call)
  {
    call.ExecuteCall? ==> call.request.mode == Paper
  }

  predicate PaperRecord(r: TradeLedgerRecord)
  {
    r.mode == Paper && r.status in {Hedged, Failed, Closed}
  }

  lemma SavedIsPaper(cfg: ExecutionConfig, w: World, call: Call)
    requires PaperCall(call) && forall r :: r in w.ledger ==> PaperRecord(r)
    ensures BodyOf(cfg, w, call).saved.Some? ==> PaperRecord(BodyOf(cfg, w, call).saved.value)
  {
    hide Round4, ResolveNetExposure, LegDrafts, AnyLeg;
    if TradeOf(call).Some? { FindBelongs(w.ledger, TradeOf(call).value); }
  }

  lemma PaperCallStaysOffTheExchange(cfg: ExecutionConfig, uuid: Ids, w: World, call: Call)
    requires PaperCall(call) && forall r :: r in w.ledger ==> PaperRecord(r)
    ensures Step(cfg, uuid, w, call).calls == w.calls
  {
    hide Round4, ResolveNetExposure, LegDrafts, AnyLeg;
    if TradeOf(call).Some? { FindBelongs(w.ledger, TradeOf(call).value); }
  }

  /** Paper-only runs never reach the exchange, and between calls every trade is hedged,
      failed or closed. */
  lemma {:induction false} PaperRunsSettle(cfg: ExecutionConfig, uuid: Ids, script: seq<AdapterAnswer>,
                                           calls: seq<Call>)
    requires forall c :: c in calls ==> PaperCall(c)
    ensures forall r :: r in Run(cfg, uuid, Start(script), calls).ledger ==> PaperRecord(r)
    ensures Run(cfg, uuid, Start(script), calls).calls == []
  {
    if calls != [] {
      var earlier, call := calls[..|calls| - 1], calls[|calls| - 1];
      var w := Run(cfg, uuid, Start(script), earlier);
      PaperRunsSettle(cfg, uuid, script, earlier);
      var tail := StepIsBody(cfg, uuid, w, call);
      SavedIsPaper(cfg, w, call);
      PaperCallStaysOffTheExchange(cfg, uuid, w, call);
      hide BodyOf, Step;
      if BodyOf(cfg, w, call).saved.Some? {
        PutMembers(w.ledger, BodyOf(cfg, w, call).saved.value);
      }
    }
  }
}
