/** Which way a trade is recovered: what the planner reads off the log, and that a paper trade
    left failed by its open is always resumed as an open. */
module RecoveryDirection {
  import opened Options
  import opened Lists
  import opened Ledger
  import opened Audit
  import opened CircuitBreaker
  import opened Execution
  import opened ExecutionRuns
  import opened TradeLifecycle
  import opened CallResults
  import opened OrderTrail
  import opened ExchangeReports
  import opened Reconciliation
  import opened Recovery
  import opened RecoveryDrain

  // ---- event types as the log stores them -----------------------------------------------------

  function LegText(leg: Leg, status: LegStatus): string
  {
    match (leg, status)
    case (SpotLeg, Submitted) => "spot.submitted"
    case (SpotLeg, Filled) => "spot.filled"
    case (SpotLeg, Partial) => "spot.partial"
    case (SpotLeg, LegFailed) => "spot.failed"
    case (PerpLeg, Submitted) => "perp.submitted"
    case (PerpLeg, Filled) => "perp.filled"
    case (PerpLeg, Partial) => "perp.partial"
    case (PerpLeg, LegFailed) => "perp.failed"
  }

  function PhaseText(phase: LegPhase): string
  {
    match phase
    case OpenPhase => "execution.live."
    case ClosePhase => "execution.live.close."
    case RebalancePhase => "execution.live.rebalance."
  }

  function EventText(kind: EventType): string
  {
    match kind
    case IntentReceived => "execution.intent.received"
    case SpotFilled => "execution.leg.spot.filled"
    case PerpFilled => "execution.leg.perp.filled"
    case PerpFailed => "execution.leg.perp.failed"
    case OpenCompleted => "execution.completed"
    case CloseStarted => "execution.close.started"
    case CloseCompleted => "execution.close.completed"
    case LiveLeg(phase, leg, status) => PhaseText(phase) + LegText(leg, status)
    case RecoveryRequired => "execution.recovery.required"
    case RecoveryStarted => "execution.recovery.started"
    case RecoveryPerpFilled => "execution.recovery.perp.filled"
    case RecoveryCompleted => "execution.recovery.completed"
    case RebalanceStarted => "execution.rebalance.started"
    case RebalanceCompleted => "execution.rebalance.completed"
    case IdempotentReplay => "execution.idempotent.replay"
    case BreakerBlocked => "execution.circuit_breaker.blocked"
    case BreakerOpened => "execution.circuit_breaker.opened"
    case BreakerReset => "execution.circuit_breaker.reset"
    case Other(name) => name
  }

  lemma {:induction false} ContainsAt(text: string, needle: string)
    ensures Contains(text, needle) <==> exists k :: 0 <= k <= |text| && needle <= text[k..]
  {
    assert text[0..] == text;
    if text != "" {
      ContainsAt(text[1..], needle);
      assert forall k :: 0 <= k < |text| ==> text[1..][k..] == text[k + 1..];
      assert forall k :: 1 <= k <= |text| ==> text[k..] == text[1..][k - 1..];
    }
  }

  /** No "cl" in the text, so no "close" either. */
  predicate NoCl(text: string)
  {
    forall i :: 0 <= i < |text| - 1 ==> text[i] != 'c' || text[i + 1] != 'l'
  }

  lemma NoClNoClose(text: string)
    requires NoCl(text)
    ensures !Contains(text, "close")
  {
    ContainsAt(text, "close");
    forall k | 0 <= k <= |text| ensures !("close" <= text[k..]) {
      if k + 2 <= |text| { assert text[k..][0] == text[k] && text[k..][1] == text[k + 1]; }
    }
  }

  lemma CloseInside(text: string, k: nat)
    requires k <= |text| && "close" <= text[k..]
    ensures Contains(text, "close")
  {
    ContainsAt(text, "close");
  }

  lemma PhaseTexts(phase: LegPhase)
    ensures phase == ClosePhase ==> |PhaseText(phase)| >= 15 && "close" <= PhaseText(phase)[15..]
    ensures phase != ClosePhase ==> NoCl(PhaseText(phase))
    ensures PhaseText(phase)[|PhaseText(phase)| - 1] == '.'
  {
  }

  lemma LegTexts(leg: Leg, status: LegStatus)
    ensures NoCl(LegText(leg, status))
  {
  }

  lemma OpeningTexts(kind: EventType)
    requires kind in {IntentReceived, SpotFilled, PerpFilled, PerpFailed, OpenCompleted}
    ensures NoCl(EventText(kind))
  {
    hide PhaseText, LegText;
  }

  lemma RecoveryTexts(kind: EventType)
    requires kind in {RecoveryRequired, RecoveryStarted, RecoveryPerpFilled, RecoveryCompleted}
    ensures NoCl(EventText(kind))
  {
    hide PhaseText, LegText;
  }

  lemma BreakerTexts(kind: EventType)
    requires kind in {BreakerBlocked, BreakerOpened, BreakerReset}
    ensures NoCl(EventText(kind))
  {
    hide PhaseText, LegText;
  }

  lemma RemainingTexts(kind: EventType)
    requires kind in {RebalanceStarted, RebalanceCompleted, IdempotentReplay}
    ensures NoCl(EventText(kind))
  {
    hide PhaseText, LegText;
  }

  lemma LegMentionsClose(phase: LegPhase, leg: Leg, status: LegStatus)
    ensures Contains(PhaseText(phase) + LegText(leg, status), "close") <==> phase == ClosePhase
  {
    PhaseTexts(phase);
    LegTexts(leg, status);
    hide Contains, PhaseText, LegText;
    var text := PhaseText(phase) + LegText(leg, status);
    if phase == ClosePhase {
      assert text[15..] == PhaseText(phase)[15..] + LegText(leg, status);
      CloseInside(text, 15);
    } else {
      NoClNoClose(text);
    }
  }

  /** The planner's test on an event is the search for "close" in its type. */
  lemma MentionsCloseIsText(kind: EventType)
    ensures MentionsClose(kind) <==> Contains(EventText(kind), "close")
  {
    hide Contains, PhaseText, LegText;
    if kind.LiveLeg? {
      LegMentionsClose(kind.phase, kind.leg, kind.status);
    } else if kind in {CloseStarted, CloseCompleted} {
      CloseInside(EventText(kind), 10);
    } else if !kind.Other? {
      hide EventText, NoCl;
      if kind in {IntentReceived, SpotFilled, PerpFilled, PerpFailed, OpenCompleted} {
        OpeningTexts(kind);
      } else if kind in {RecoveryRequired, RecoveryStarted, RecoveryPerpFilled, RecoveryCompleted} {
        RecoveryTexts(kind);
      } else if kind in {BreakerBlocked, BreakerOpened, BreakerReset} {
        BreakerTexts(kind);
      } else {
        RemainingTexts(kind);
      }
      NoClNoClose(EventText(kind));
    }
  }

  // ---- the plan of a paper trade --------------------------------------------------------------

  /** The latest of the events that count; of several at the same time the first listed. */
  predicate FirstLatest(events: seq<AuditEventRecord>, i: int, counts: AuditEventRecord -> bool)
  {
    && 0 <= i < |events| && counts(events[i])
    && forall j :: 0 <= j < |events| && counts(events[j]) ==>
         events[j].occurredAt < events[i].occurredAt || (events[j].occurredAt == events[i].occurredAt && i <= j)
  }

  function IntentAbout(tradeId: string): AuditEventRecord -> bool
  {
    (e: AuditEventRecord) =>
      e.eventType == IntentReceived && e.payload.action.Some? && e.payload.tradeId == Some(tradeId)
  }

  lemma {:induction false} LatestEventIs(events: seq<AuditEventRecord>, tradeId: string) returns (i: int)
    ensures LatestEvent(events, tradeId).Some? ==>
              FirstLatest(events, i, About(tradeId)) && LatestEvent(events, tradeId) == Some(events[i])
    ensures LatestEvent(events, tradeId).None? ==> forall e :: e in events ==> !About(tradeId)(e)
  {
    i := 0;
    if events != [] {
      var n := |events| - 1;
      var k := LatestEventIs(events[..n], tradeId);
      assert events == events[..n] + [events[n]];
      i := if LatestEvent(events, tradeId) == LatestEvent(events[..n], tradeId)
              && LatestEvent(events[..n], tradeId).Some? then k else n;
      assert forall j :: 0 <= j < n ==> events[j] == events[..n][j];
      assert forall j :: 0 <= j < n ==> events[j] in events[..n];
    }
  }

  lemma {:induction false} LatestIntentIs(events: seq<AuditEventRecord>, tradeId: string) returns (i: int)
    ensures LatestIntent(events, tradeId).Some? ==>
              && FirstLatest(events, i, IntentAbout(tradeId))
              && LatestIntent(events, tradeId) == Some(Intent(events[i].occurredAt, events[i].payload.action.value))
    ensures LatestIntent(events, tradeId).None? ==> forall e :: e in events ==> !IntentAbout(tradeId)(e)
  {
    i := 0;
    if events != [] {
      var n := |events| - 1;
      var k := LatestIntentIs(events[..n], tradeId);
      assert events == events[..n] + [events[n]];
      i := if LatestIntent(events, tradeId) == LatestIntent(events[..n], tradeId)
              && LatestIntent(events[..n], tradeId).Some? then k else n;
      assert forall j :: 0 <= j < n ==> events[j] == events[..n][j];
      assert forall j :: 0 <= j < n ==> events[j] in events[..n];
    }
  }

  lemma FirstLatestIsUnique(events: seq<AuditEventRecord>, i: int, j: int, counts: AuditEventRecord -> bool)
    requires FirstLatest(events, i, counts) && FirstLatest(events, j, counts)
    ensures i == j
  {
  }

  predicate LatestSays(events: seq<AuditEventRecord>, counts: AuditEventRecord -> bool, says: AuditEventRecord -> bool)
  {
    exists i :: 0 <= i < |events| && FirstLatest(events, i, counts) && says(events[i])
  }

  function AsksToClose(): AuditEventRecord -> bool
  {
    (e: AuditEventRecord) => e.payload.action == Some(CloseHedge)
  }

  function SpeaksOfClose(): AuditEventRecord -> bool
  {
    (e: AuditEventRecord) => Contains(EventText(e.eventType), "close")
  }

  /** A paper trade is resumed as a close if and only if the latest intent for it was a close
      or its latest event mentions one, and as an open in every other case. */
  lemma PaperDirectionIff(r: TradeLedgerRecord, events: seq<AuditEventRecord>, index: ReportIndex)
    requires r.mode == Paper
    ensures DirectPlan(r, events, index).recommended
         == Resume(if LatestSays(events, IntentAbout(r.tradeId), AsksToClose())
                      || LatestSays(events, About(r.tradeId), SpeaksOfClose()) then ResumeClose else ResumeOpen)
  {
    var i := LatestEventIs(events, r.tradeId);
    var k := LatestIntentIs(events, r.tradeId);
    forall e: AuditEventRecord ensures MentionsClose(e.eventType) <==> SpeaksOfClose()(e) {
      MentionsCloseIsText(e.eventType);
    }
    hide LatestEvent, LatestIntent, MentionsClose, FirstLatest, SpeaksOfClose;
    forall j | FirstLatest(events, j, About(r.tradeId)) ensures LatestEvent(events, r.tradeId) == Some(events[j]) {
      assert events[j] in events && About(r.tradeId)(events[j]) by { FirstLatestIsThere(events, j, About(r.tradeId)); }
      FirstLatestIsUnique(events, i, j, About(r.tradeId));
    }
    forall j | FirstLatest(events, j, IntentAbout(r.tradeId)) ensures LatestIntent(events, r.tradeId).Some? && j == k {
      FirstLatestIsThere(events, j, IntentAbout(r.tradeId));
      FirstLatestIsUnique(events, k, j, IntentAbout(r.tradeId));
    }
    if LatestEvent(events, r.tradeId).Some? { FirstLatestIsThere(events, i, About(r.tradeId)); }
    if LatestIntent(events, r.tradeId).Some? { FirstLatestIsThere(events, k, IntentAbout(r.tradeId)); }
  }

  lemma FirstLatestIsThere(events: seq<AuditEventRecord>, i: int, counts: AuditEventRecord -> bool)
    requires FirstLatest(events, i, counts)
    ensures 0 <= i < |events| && events[i] in events && counts(events[i])
  {
  }

  // ---- paper trades that an open left failed -----------------------------------------------------

  /** Nothing that was logged about the trade speaks of closing it. */
  predicate NeverClosed(log: seq<AuditEventRecord>, tradeId: string)
  {
    forall e :: e in log && e.payload.tradeId == Some(tradeId) ==> OpensOnly(e.eventType, e.payload)
  }

  predicate OpensOnly(kind: EventType, payload: Payload)
  {
    !MentionsClose(kind) && (kind == IntentReceived ==> payload.action == Some(OpenHedge))
  }

  lemma StillNeverClosed(uuid: Ids, log: seq<AuditEventRecord>, drafts: seq<Draft>, tradeId: string)
    requires NeverClosed(log, tradeId)
    requires forall d :: d in drafts && d.payload.tradeId == Some(tradeId) ==> OpensOnly(d.kind, d.payload)
    ensures NeverClosed(Emit(uuid, log, drafts), tradeId)
  {
    hide OpensOnly;
    var more := Stamped(uuid, |log|, drafts);
    forall e | e in more && e.payload.tradeId == Some(tradeId) ensures OpensOnly(e.eventType, e.payload) {
      var i :| 0 <= i < |more| && more[i] == e;
      assert drafts[i] in drafts;
    }
  }

  /** A paper call that leaves its record alone logs no intent and no closing event, and one
      that leaves it failed is an open that logs nothing but opening it. */
  lemma PaperDrafts(cfg: ExecutionConfig, w: World, call: Call)
    requires PaperCall(call) && forall r :: r in w.ledger ==> PaperRecord(r)
    ensures var body := BodyOf(cfg, w, call);
            && (forall d :: d in body.drafts ==> d.payload.tradeId == TradeOf(call))
            && (body.saved.None? || body.saved.value.status == Failed ==>
                  forall d :: d in body.drafts ==> OpensOnly(d.kind, d.payload))
  {
    hide PaperOpen, PaperClose, RecoverBody, RebalanceDone, LiveBody, LiveRebalance;
    match call
    case ExecuteCall(request, now, safe) =>
      PaperOpenDrafts(request, now);
      PaperCloseDrafts(w, request, now);
    case RecoverCall(tradeId, recovery, notes, now) => RecoverDrafts(w, tradeId, recovery, notes, now);
    case RebalanceCall(tradeId, delta, quantity, notes, now) =>
      FindBelongs(w.ledger, tradeId);
      if Rebalancable(w, tradeId, delta, quantity) {
        RebalanceDrafts(Find(w.ledger, tradeId).value, delta, notes, now);
      }
    case _ =>
  }

  lemma PaperOpenDrafts(request: ExecutionIntentRequest, now: Time)
    ensures forall d :: d in PaperOpen(request, now).drafts ==> d.payload.tradeId == Some(request.tradeId)
    ensures request.action == OpenHedge ==>
              forall d :: d in PaperOpen(request, now).drafts ==> OpensOnly(d.kind, d.payload)
  {
    hide ResolveNetExposure;
  }

  lemma PaperCloseDrafts(w: World, request: ExecutionIntentRequest, now: Time)
    ensures var body := PaperClose(w, request, now);
            && (forall d :: d in body.drafts ==> d.payload.tradeId == Some(request.tradeId))
            && (body.saved.None? ==> body.drafts == [])
            && (body.saved.Some? ==> body.saved.value.status == Closed)
  {
  }

  lemma RecoverDrafts(w: World, tradeId: string, recovery: RecoveryAction, notes: Option<string>, now: Time)
    ensures var body := RecoverBody(w, tradeId, recovery, notes, now);
            && (forall d :: d in body.drafts ==> d.payload.tradeId == Some(tradeId) && OpensOnly(d.kind, d.payload))
  {
  }

  lemma RebalanceDrafts(found: TradeLedgerRecord, delta: real, notes: Option<string>, now: Time)
    ensures var body := RebalanceDone(found, delta, notes, now, [RebalanceStart(found.tradeId, now)], None);
            forall d :: d in body.drafts ==> d.payload.tradeId == Some(found.tradeId) && OpensOnly(d.kind, d.payload)
  {
    hide Rebalanced;
  }

  /** A paper trade is new or failed already when a call leaves it failed. */
  lemma FailedWasFailed(cfg: ExecutionConfig, w: World, call: Call, id: string)
    requires PaperCall(call) && forall r :: r in w.ledger ==> PaperRecord(r)
    requires TradeOf(call) == Some(id)
    requires BodyOf(cfg, w, call).saved.Some? && BodyOf(cfg, w, call).saved.value.status == Failed
    ensures Find(w.ledger, id).Some? ==> Find(w.ledger, id).value.status == Failed
  {
    hide ResolveNetExposure, LegDrafts, LiveStatus;
    FindBelongs(w.ledger, id);
  }

  predicate NewOrFailed(ledger: seq<TradeLedgerRecord>, id: string)
  {
    Find(ledger, id).Some? ==> Find(ledger, id).value.status == Failed
  }

  lemma PaperCallIsHeard(cfg: ExecutionConfig, uuid: Ids, w: World, call: Call, id: string)
    requires PaperCall(call) && forall r :: r in w.ledger ==> PaperRecord(r)
    requires NewOrFailed(w.ledger, id) ==> NeverClosed(w.log, id)
    ensures var after := Step(cfg, uuid, w, call); NewOrFailed(after.ledger, id) ==> NeverClosed(after.log, id)
  {
    var tail := StepIsBody(cfg, uuid, w, call);
    assert forall d :: d in tail ==> OpensOnly(d.kind, d.payload);
    PaperDrafts(cfg, w, call);
    StepFinds(cfg, uuid, w, call, id);
    var body := BodyOf(cfg, w, call);
    if TradeOf(call) == Some(id) && body.saved.Some? && body.saved.value.status == Failed {
      FailedWasFailed(cfg, w, call, id);
    }
    hide BodyOf, Step, Emit, TradeOf, Find, OpensOnly, NeverClosed;
    if NewOrFailed(Step(cfg, uuid, w, call).ledger, id) {
      StillNeverClosed(uuid, w.log, body.drafts + tail, id);
    }
  }

  lemma {:induction false} PaperRunIsHeard(cfg: ExecutionConfig, uuid: Ids, script: seq<AdapterAnswer>,
                                           calls: seq<Call>, id: string)
    requires forall c :: c in calls ==> PaperCall(c)
    ensures var w := Run(cfg, uuid, Start(script), calls); NewOrFailed(w.ledger, id) ==> NeverClosed(w.log, id)
  {
    if calls != [] {
      var earlier := calls[..|calls| - 1];
      PaperRunIsHeard(cfg, uuid, script, earlier, id);
      PaperRunsSettle(cfg, uuid, script, earlier);
      PaperCallIsHeard(cfg, uuid, Run(cfg, uuid, Start(script), earlier), calls[|calls| - 1], id);
    }
  }

  lemma NeverClosedIsResumed(r: TradeLedgerRecord, log: seq<AuditEventRecord>, index: ReportIndex)
    requires r.mode == Paper && NeverClosed(log, r.tradeId)
    ensures DirectPlan(r, Timeline(log), index).recommended == Resume(ResumeOpen)
  {
    var events := Timeline(log);
    PaperDirectionIff(r, events, index);
    TimelineMembers(log);
    forall e: AuditEventRecord ensures MentionsClose(e.eventType) <==> SpeaksOfClose()(e) {
      MentionsCloseIsText(e.eventType);
    }
    hide Timeline, DirectPlan, MentionsClose, SpeaksOfClose;
  }

  /** In every paper run a failed trade is planned as a resumed open, whatever was opened,
      closed, recovered or rebalanced before and whatever the clock did, and carrying the plan
      out leaves it hedged. */
  lemma PaperFailuresResumeOpen(cfg: ExecutionConfig, uuid: Ids, script: seq<AdapterAnswer>, calls: seq<Call>,
                                reports: seq<ExchangeOrderReport>, r: TradeLedgerRecord, now: Time)
    requires forall c :: c in calls ==> PaperCall(c)
    requires r in Run(cfg, uuid, Start(script), calls).ledger && r.status == Failed
    ensures var w := Run(cfg, uuid, Start(script), calls);
            var plan := PlanOf(r, Timeline(w.log), Candidates(w.ledger, w.log, reports, None, false));
            && plan.recommended == Resume(ResumeOpen) && plan.autoExecutable
            && plan in Plans(w.ledger, w.log, reports, None, true)
            && var step := Recover(cfg, uuid, w, r.tradeId, plan.recommended.action, RECOVERY_NOTE, now);
               var left := Find(step.world.ledger, r.tradeId);
               left.Some? && left.value.status == Hedged
  {
    var w := Run(cfg, uuid, Start(script), calls);
    ReachableIdsAreUnique(cfg, uuid, script, calls);
    PaperRunsSettle(cfg, uuid, script, calls);
    FindUnique(w.ledger, r);
    PaperRunIsHeard(cfg, uuid, script, calls, r.tradeId);
    PlanIsDirect(w.ledger, w.log, reports, r);
    hide Run, Plans, DirectPlan, PlanOf, Timeline, Candidates, LatestByOrder, NeverClosed, UniqueIds, Find;
    NeverClosedIsResumed(r, w.log, LatestByOrder(reports));
    AutomaticPlans(r, Timeline(w.log), LatestByOrder(reports));
    PlanListed(w.ledger, w.log, reports, None, true, r);
    RecoverLeaves(cfg, uuid, w, r, ResumeOpen, RECOVERY_NOTE, now);
  }

  // ---- what a plan carries ------------------------------------------------------------------------

  /** A plan carries its trade's symbol and the type of its latest event, and, for a live trade,
      the orders without a report and the texts of those with one. */
  lemma PlanCarries(r: TradeLedgerRecord, events: seq<AuditEventRecord>, index: ReportIndex)
    requires NeedsRecovery(r.status)
    ensures var plan, c := DirectPlan(r, events, index), CandidateFor(r, events, index);
            && plan.symbol == r.symbol
            && (plan.latestEventType.None? <==> forall e :: e in events ==> e.payload.tradeId != Some(r.tradeId))
            && (plan.latestEventType.Some? ==>
                  exists i :: FirstLatest(events, i, About(r.tradeId))
                              && plan.latestEventType == Some(events[i].eventType))
            && plan.missing == (if r.mode == Live then c.missing else [])
            && plan.exchangeStatuses == (if r.mode == Live then c.exchangeStatuses else [])
  {
    var i := LatestEventIs(events, r.tradeId);
    hide LatestEvent, LatestIntent, CandidateFor, FirstLatest;
    if LatestEvent(events, r.tradeId).Some? { FirstLatestIsThere(events, i, About(r.tradeId)); }
  }
}
