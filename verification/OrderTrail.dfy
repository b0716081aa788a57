/** From the exchange's answer to the order ids reconciliation asks for: what each call adds to
    the orders a trade is expected to have. */
module OrderTrail {
  import opened Options
  import opened Lists
  import opened Ledger
  import opened Audit
  import opened CircuitBreaker
  import opened Execution
  import opened ExecutionRuns
  import opened CallBooking
  import opened CallResults
  import opened Reconciliation
  import opened Decimals

  /** The event says that the trade has an order of this id. */
  predicate Names(kind: EventType, payload: Payload, tradeId: string, orderId: string)
  {
    && kind.LiveLeg? && (kind.phase == OpenPhase || kind.phase == ClosePhase)
    && (kind.status == Filled || kind.status == Partial)
    && payload.tradeId == Some(tradeId) && payload.orderId == OrderText(orderId)
  }

  predicate NamedIn(events: seq<AuditEventRecord>, tradeId: string, orderId: string)
  {
    exists e :: e in events && Names(e.eventType, e.payload, tradeId, orderId)
  }

  /** An order is expected exactly when some event names it, and it is listed once. */
  lemma {:induction false} ExpectedIff(events: seq<AuditEventRecord>, tradeId: string, orderId: string)
    ensures orderId in ExpectedOrders(events, tradeId) <==> NamedIn(events, tradeId, orderId)
    ensures NoRepeats(ExpectedOrders(events, tradeId))
  {
    if events != [] {
      var earlier, last := events[..|events| - 1], events[|events| - 1];
      ExpectedIff(earlier, tradeId, orderId);
      assert events == earlier + [last];
    }
  }

  lemma TimelineMembers(log: seq<AuditEventRecord>)
    ensures forall e :: e in Timeline(log) <==> e in log && FromOrchestrator(e)
  {
    EventOrder();
    SortSorts(Filter(log, FromOrchestrator), EventLe);
    FilterMembers(log, FromOrchestrator);
  }

  /** The orchestrator's part of the log names the order. */
  predicate LogNames(log: seq<AuditEventRecord>, tradeId: string, orderId: string)
  {
    exists e :: e in log && e.source == Orchestrator && Names(e.eventType, e.payload, tradeId, orderId)
  }

  lemma ExpectedFromLog(log: seq<AuditEventRecord>, tradeId: string, orderId: string)
    ensures orderId in ExpectedOrders(Timeline(log), tradeId) <==> LogNames(log, tradeId, orderId)
  {
    TimelineMembers(log);
    ExpectedIff(Timeline(log), tradeId, orderId);
    hide Timeline, Names, ExpectedOrders;
  }

  predicate DraftsName(drafts: seq<Draft>, tradeId: string, orderId: string)
  {
    exists d :: d in drafts && Names(d.kind, d.payload, tradeId, orderId)
  }

  lemma EmittedNames(uuid: Ids, log: seq<AuditEventRecord>, drafts: seq<Draft>, tradeId: string, orderId: string)
    ensures LogNames(Emit(uuid, log, drafts), tradeId, orderId)
       <==> LogNames(log, tradeId, orderId) || DraftsName(drafts, tradeId, orderId)
  {
    hide Names;
    var more := Stamped(uuid, |log|, drafts);
    if d :| d in drafts && Names(d.kind, d.payload, tradeId, orderId) {
      var i :| 0 <= i < |drafts| && drafts[i] == d;
      assert more[i] in Emit(uuid, log, drafts);
    }
    if e :| e in more && Names(e.eventType, e.payload, tradeId, orderId) {
      var i :| 0 <= i < |more| && more[i] == e;
      assert drafts[i] in drafts;
    }
  }

  /** The answer holds a filled or partly filled leg with this order id, reported for this
      trade or for no trade in particular. */
  predicate AnswersWith(reports: seq<LegReport>, asked: string, tradeId: string, orderId: string)
  {
    exists leg :: leg in reports && Fills(leg, asked, tradeId, orderId)
  }

  predicate Fills(leg: LegReport, asked: string, tradeId: string, orderId: string)
  {
    && leg.status in {Filled, Partial} && leg.payload.orderId == OrderText(orderId)
    && (if leg.payload.tradeId == None then asked else leg.payload.tradeId.value) == tradeId
  }

  lemma LegsName(phase: LegPhase, asked: string, reports: seq<LegReport>, now: Time, tradeId: string, orderId: string)
    requires phase != RebalancePhase
    ensures DraftsName(LegDrafts(phase, asked, reports, now), tradeId, orderId)
       <==> AnswersWith(reports, asked, tradeId, orderId)
  {
    LegDraftsAre(phase, asked, reports, now);
    var drafts := LegDrafts(phase, asked, reports, now);
    hide LegDrafts;
    if d :| d in drafts && Names(d.kind, d.payload, tradeId, orderId) {
      var i :| 0 <= i < |drafts| && drafts[i] == d;
      assert reports[i] in reports;
    }
    if leg :| leg in reports && Fills(leg, asked, tradeId, orderId) {
      var i :| 0 <= i < |reports| && reports[i] == leg;
      assert drafts[i] in drafts;
    }
  }

  /** The call gets an answer from the exchange to an open or a close. */
  predicate GetsAnswer(cfg: ExecutionConfig, w: World, call: Call)
  {
    && call.ExecuteCall? && LetThrough(cfg, w, call.request, call.now, call.safe) && cfg.hasAdapter
    && NextAnswer(w.script).Answers?
    && (call.request.action == OpenHedge || Find(w.ledger, call.request.tradeId).Some?)
  }

  lemma BodyNames(cfg: ExecutionConfig, w: World, call: Call, tradeId: string, orderId: string)
    ensures DraftsName(BodyOf(cfg, w, call).drafts, tradeId, orderId)
       <==> GetsAnswer(cfg, w, call)
            && AnswersWith(NextAnswer(w.script).reports, call.request.tradeId, tradeId, orderId)
  {
    hide Round4, LegDrafts, LiveStatus, ResolveNetExposure, NotionalAllowed, GateShut, Rebalanced, IsReplay,
         Rebalancable, AnswersWith;
    if GetsAnswer(cfg, w, call) {
      var request, now, reports := call.request, call.now, NextAnswer(w.script).reports;
      var open := request.action == OpenHedge;
      LegsName(if open then OpenPhase else ClosePhase, request.tradeId, reports, now, tradeId, orderId);
      FramedNames(IntentDraft(request, now),
                  LegDrafts(if open then OpenPhase else ClosePhase, request.tradeId, reports, now),
                  LiveEnd(request.tradeId, LiveStatus(reports, if open then Hedged else Closed),
                          now + (|reports| + 1) * MILLISECOND), tradeId, orderId);
    }
  }

  lemma FramedNames(first: Draft, legs: seq<Draft>, end: Draft, tradeId: string, orderId: string)
    requires !first.kind.LiveLeg? && !end.kind.LiveLeg?
    ensures DraftsName([first] + legs + [end], tradeId, orderId) <==> DraftsName(legs, tradeId, orderId)
  {
  }

  /** A call adds to the orders a trade is expected to have exactly the ids of the filled and
      partly filled legs of the exchange's answer to an open or a close: rebalances,
      recoveries, paper trades, replays and calls that raise add none. */
  lemma CallAddsOrders(cfg: ExecutionConfig, uuid: Ids, w: World, call: Call, tradeId: string, orderId: string)
    ensures orderId in ExpectedOrders(Timeline(Step(cfg, uuid, w, call).log), tradeId) <==>
              || orderId in ExpectedOrders(Timeline(w.log), tradeId)
              || (GetsAnswer(cfg, w, call)
                  && AnswersWith(NextAnswer(w.script).reports, call.request.tradeId, tradeId, orderId))
  {
    var tail := StepIsBody(cfg, uuid, w, call);
    BodyNames(cfg, w, call, tradeId, orderId);
    hide BodyOf, Step, GetsAnswer, AnswersWith, Timeline, ExpectedOrders, LogNames, Emit;
    var drafts := BodyOf(cfg, w, call).drafts;
    ExpectedFromLog(w.log, tradeId, orderId);
    ExpectedFromLog(Step(cfg, uuid, w, call).log, tradeId, orderId);
    EmittedNames(uuid, w.log, drafts + tail, tradeId, orderId);
    assert DraftsName(drafts + tail, tradeId, orderId) <==> DraftsName(drafts, tradeId, orderId);
  }

  /** New events put new orders at the end and leave the earlier ones where they are. */
  lemma {:induction false} ExpectedGrows(events: seq<AuditEventRecord>, more: seq<AuditEventRecord>, tradeId: string)
    ensures ExpectedOrders(events, tradeId) <= ExpectedOrders(events + more, tradeId)
  {
    if more == [] {
      assert events + more == events;
    } else {
      ExpectedGrows(events, more[..|more| - 1], tradeId);
      assert (events + more)[..|events + more| - 1] == events + more[..|more| - 1];
    }
  }
}
