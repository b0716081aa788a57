/** The audit log tells the whole story: replaying it gives the ledger's statuses. */
module AuditReplay {
  import opened Options
  import opened Ledger
  import opened Audit
  import opened CircuitBreaker
  import opened Execution
  import opened ExecutionRuns
  import opened Lists

  /** What an event says about the status of its trade: an open intent makes a candidate,
      any other intent a closing trade, leg and final events give their status, and the
      rest say nothing. */
  function StatusSaid(kind: EventType, payload: Payload): Option<TradeStatus>
  {
    match kind
    case IntentReceived => Some(if payload.action == Some(OpenHedge) then Candidate else Closing)
    case SpotFilled => Some(Open)
    case PerpFilled => Some(Hedged)
    case PerpFailed => Some(Failed)
    case CloseCompleted => Some(Closed)
    case OpenCompleted => payload.status
    case RecoveryRequired => payload.status
    case RecoveryCompleted => payload.status
    case RebalanceCompleted => payload.status
    case _ => None
  }

  type Statuses = map<string, TradeStatus>

  function Observe(seen: Statuses, kind: EventType, payload: Payload): Statuses
  {
    var said := StatusSaid(kind, payload);
    if said.Some? && payload.tradeId.Some? then seen[payload.tradeId.value := said.value] else seen
  }

  /** The statuses read off a log in append order. */
  function ReplayLog(log: seq<AuditEventRecord>): Statuses
  {
    if log == [] then map[]
    else
      var last := log[|log| - 1];
      Observe(ReplayLog(log[..|log| - 1]), last.eventType, last.payload)
  }

  function LedgerStatuses(ledger: seq<TradeLedgerRecord>): Statuses
  {
    map id | id in AsMap(ledger) :: AsMap(ledger)[id].status
  }

  // ---- replaying what one call appends ----------------------------------------

  function ReplayDrafts(seen: Statuses, drafts: seq<Draft>): Statuses
  {
    if drafts == [] then seen
    else
      var last := drafts[|drafts| - 1];
      Observe(ReplayDrafts(seen, drafts[..|drafts| - 1]), last.kind, last.payload)
  }

  lemma {:induction false} ReplayEmitted(uuid: Ids, log: seq<AuditEventRecord>, drafts: seq<Draft>)
    ensures ReplayLog(Emit(uuid, log, drafts)) == ReplayDrafts(ReplayLog(log), drafts)
  {
    EmitNone(uuid, log);
    if drafts != [] {
      var earlier, last := drafts[..|drafts| - 1], drafts[|drafts| - 1];
      ReplayEmitted(uuid, log, earlier);
      assert earlier + [last] == drafts;
      EmitAppend(uuid, log, earlier, [last]);
      var before := Emit(uuid, log, earlier);
      StampedOne(uuid, |before|, last);
      assert Emit(uuid, log, drafts)[..|before|] == before;
    }
  }

  lemma ReplaySnoc(seen: Statuses, drafts: seq<Draft>, last: Draft)
    ensures ReplayDrafts(seen, drafts + [last]) == Observe(ReplayDrafts(seen, drafts), last.kind, last.payload)
  {
  }

  /** Events that say nothing change nothing. */
  lemma {:induction false} ReplaySilent(seen: Statuses, drafts: seq<Draft>, silent: seq<Draft>)
    requires forall d :: d in silent ==> StatusSaid(d.kind, d.payload).None?
    ensures ReplayDrafts(seen, drafts + silent) == ReplayDrafts(seen, drafts)
  {
    if silent == [] {
      assert drafts + silent == drafts;
    } else {
      var earlier, last := silent[..|silent| - 1], silent[|silent| - 1];
      ReplaySilent(seen, drafts, earlier);
      assert drafts + silent == (drafts + earlier) + [last];
      ReplaySnoc(seen, drafts + earlier, last);
    }
  }

  lemma {:induction false} LegsAreSilent(phase: LegPhase, tradeId: string, reports: seq<LegReport>, now: Time)
    ensures forall d :: d in LegDrafts(phase, tradeId, reports, now) ==> d.kind.LiveLeg?
  {
    if reports != [] {
      LegsAreSilent(phase, tradeId, reports[..|reports| - 1], now);
    }
  }

  /** A draft that names the trade and its status settles the matter, whatever came before. */
  lemma ReplaySettles(seen: Statuses, drafts: seq<Draft>, last: Draft, tradeId: string, status: TradeStatus)
    requires last.payload.tradeId == Some(tradeId) && StatusSaid(last.kind, last.payload) == Some(status)
    requires forall id :: id != tradeId ==>
               (id in ReplayDrafts(seen, drafts) <==> id in seen)
               && (id in seen ==> ReplayDrafts(seen, drafts)[id] == seen[id])
    ensures ReplayDrafts(seen, drafts + [last]) == seen[tradeId := status]
  {
  }

  /** Drafts that speak of one trade only leave every other trade's status alone. */
  lemma {:induction false} ReplayOneTrade(seen: Statuses, drafts: seq<Draft>, tradeId: string)
    requires forall d :: d in drafts ==> StatusSaid(d.kind, d.payload).Some? ==> d.payload.tradeId == Some(tradeId)
    ensures forall id :: id != tradeId ==>
              (id in ReplayDrafts(seen, drafts) <==> id in seen)
              && (id in seen ==> ReplayDrafts(seen, drafts)[id] == seen[id])
  {
    if drafts != [] {
      ReplayOneTrade(seen, drafts[..|drafts| - 1], tradeId);
      assert drafts[|drafts| - 1] in drafts;
    }
  }

  /** What a body must look like for its events to tell what it saves. */
  predicate Truthful(body: Body)
  {
    if body.saved.None? then forall d :: d in body.drafts ==> StatusSaid(d.kind, d.payload).None?
    else
      var r := body.saved.value;
      && body.drafts != []
      && body.drafts[|body.drafts| - 1].payload.tradeId == Some(r.tradeId)
      && StatusSaid(body.drafts[|body.drafts| - 1].kind, body.drafts[|body.drafts| - 1].payload) == Some(r.status)
      && forall d :: d in body.drafts ==> StatusSaid(d.kind, d.payload).Some? ==> d.payload.tradeId == Some(r.tradeId)
  }

  lemma EveryBodyIsTruthful(cfg: ExecutionConfig, w: World, call: Call)
    ensures Truthful(BodyOf(cfg, w, call))
  {
    hide PaperOpen, PaperClose, LiveOpen, LiveClose, RecoverBody, LiveRebalance, RebalanceDone;
    match call
    case ExecuteCall(request, now, safe) =>
      PaperBodiesAreTruthful(w, request, now);
      if request.action == OpenHedge {
        LiveOpenIsTruthful(w, request, now);
      } else {
        LiveCloseIsTruthful(w, request, now);
      }
    case RecoverCall(tradeId, recovery, notes, now) => RecoverIsTruthful(w, tradeId, recovery, notes, now);
    case RebalanceCall(tradeId, delta, quantity, notes, now) =>
      if Rebalancable(w, tradeId, delta, quantity) {
        RebalancesAreTruthful(w, Find(w.ledger, tradeId).value, delta, quantity, notes, now);
      }
    case _ =>
  }

  lemma PaperBodiesAreTruthful(w: World, request: ExecutionIntentRequest, now: Time)
    ensures Truthful(PaperOpen(request, now)) && Truthful(PaperClose(w, request, now))
  {
    hide ResolveNetExposure;
    FindBelongs(w.ledger, request.tradeId);
  }

  lemma RecoverIsTruthful(w: World, tradeId: string, recovery: RecoveryAction, notes: Option<string>, now: Time)
    ensures Truthful(RecoverBody(w, tradeId, recovery, notes, now))
  {
    FindBelongs(w.ledger, tradeId);
  }

  /** An intent, silent legs, and an end that names the saved status. */
  lemma FramedBodyIsTruthful(body: Body, record: TradeLedgerRecord, first: Draft, legs: seq<Draft>, end: Draft)
    requires body.saved == Some(record) && body.drafts == [first] + legs + [end]
    requires first.payload.tradeId == end.payload.tradeId == Some(record.tradeId)
    requires forall d :: d in legs ==> d.kind.LiveLeg?
    requires StatusSaid(end.kind, end.payload) == Some(record.status)
    ensures Truthful(body)
  {
  }

  lemma LiveOpenIsTruthful(w: World, request: ExecutionIntentRequest, now: Time)
    requires request.action == OpenHedge
    ensures Truthful(LiveOpen(w, request, now))
  {
    hide ResolveNetExposure, LegDrafts, AnyLeg;
    if NextAnswer(w.script).Answers? {
      var body, reports := LiveOpen(w, request, now), NextAnswer(w.script).reports;
      LegsAreSilent(OpenPhase, request.tradeId, reports, now);
      FramedBodyIsTruthful(body, body.saved.value, IntentDraft(request, now),
                           LegDrafts(OpenPhase, request.tradeId, reports, now),
                           LiveEnd(request.tradeId, LiveStatus(reports, Hedged), now + (|reports| + 1) * MILLISECOND));
    }
  }

  lemma LiveCloseIsTruthful(w: World, request: ExecutionIntentRequest, now: Time)
    requires request.action != OpenHedge
    ensures Truthful(LiveClose(w, request, now))
  {
    hide LegDrafts, AnyLeg;
    FindBelongs(w.ledger, request.tradeId);
    if NextAnswer(w.script).Answers? && Find(w.ledger, request.tradeId).Some? {
      var body, reports := LiveClose(w, request, now), NextAnswer(w.script).reports;
      LegsAreSilent(ClosePhase, request.tradeId, reports, now);
      FramedBodyIsTruthful(body, body.saved.value, IntentDraft(request, now),
                           LegDrafts(ClosePhase, request.tradeId, reports, now),
                           LiveEnd(request.tradeId, LiveStatus(reports, Closed), now + (|reports| + 1) * MILLISECOND));
    }
  }

  lemma RebalancesAreTruthful(w: World, found: TradeLedgerRecord, delta: real, quantity: real, notes: Option<string>,
                              now: Time)
    ensures Truthful(LiveRebalance(w, found, delta, quantity, notes, now))
    ensures Truthful(RebalanceDone(found, delta, notes, now, [RebalanceStart(found.tradeId, now)], None))
  {
    hide Rebalanced;
    assert Rebalanced(found, delta, notes).tradeId == found.tradeId
        && Rebalanced(found, delta, notes).status == Hedged by {
      RebalancedKeeps(found, delta, notes);
    }
  }

  lemma RebalancedKeeps(found: TradeLedgerRecord, delta: real, notes: Option<string>)
    ensures Rebalanced(found, delta, notes).tradeId == found.tradeId
    ensures Rebalanced(found, delta, notes).status == Hedged
  {
  }

  lemma TruthfulBodyReplays(ledger: seq<TradeLedgerRecord>, body: Body)
    requires Truthful(body)
    ensures ReplayDrafts(LedgerStatuses(ledger), body.drafts) == LedgerStatuses(LedgerAfter(ledger, body))
  {
    var seen := LedgerStatuses(ledger);
    if body.saved.None? {
      ReplaySilent(seen, [], body.drafts);
      assert [] + body.drafts == body.drafts;
    } else {
      var r := body.saved.value;
      var earlier, last := body.drafts[..|body.drafts| - 1], body.drafts[|body.drafts| - 1];
      assert body.drafts == earlier + [last];
      ReplayOneTrade(seen, earlier, r.tradeId);
      ReplaySettles(seen, earlier, last, r.tradeId, r.status);
      PutUpdates(ledger, r);
    }
  }

  /** One call keeps log and ledger in step, however it ends. */
  lemma CallKeepsLogAndLedgerInStep(cfg: ExecutionConfig, uuid: Ids, w: World, call: Call)
    requires ReplayLog(w.log) == LedgerStatuses(w.ledger)
    ensures ReplayLog(Step(cfg, uuid, w, call).log) == LedgerStatuses(Step(cfg, uuid, w, call).ledger)
  {
    var body := BodyOf(cfg, w, call);
    var tail := StepIsBody(cfg, uuid, w, call);
    EveryBodyIsTruthful(cfg, w, call);
    hide BodyOf, Step;
    ReplayEmitted(uuid, w.log, body.drafts + tail);
    ReplaySilent(ReplayLog(w.log), body.drafts, tail);
    TruthfulBodyReplays(w.ledger, body);
  }

  /** After every call of every run, replaying the audit log in append order gives exactly
      the ledger's map from trades to statuses. */
  lemma {:induction false} LogTellsTheLedger(cfg: ExecutionConfig, uuid: Ids, script: seq<AdapterAnswer>,
                                             calls: seq<Call>)
    ensures var w := Run(cfg, uuid, Start(script), calls);
            ReplayLog(w.log) == LedgerStatuses(w.ledger)
  {
    if calls != [] {
      var earlier := calls[..|calls| - 1];
      LogTellsTheLedger(cfg, uuid, script, earlier);
      CallKeepsLogAndLedgerInStep(cfg, uuid, Run(cfg, uuid, Start(script), earlier), calls[|calls| - 1]);
    }
  }
}
