/** The audit log: an append-only list of events, read back in time order. */
module Audit {
  import opened Options
  import opened Lists
  import opened Ledger

  datatype Action = OpenHedge | CloseHedge | RebalanceHedge

  datatype Leg = SpotLeg | PerpLeg

  datatype LegStatus = Submitted | Filled | Partial | LegFailed

  /** Which call a live leg belongs to: the prefix of its event type. */
  datatype LegPhase = OpenPhase | ClosePhase | RebalancePhase

  /** The event types of the execution orchestrator; `Other` is any other text. */
  datatype EventType =
    | IntentReceived        // execution.intent.received
    | SpotFilled            // execution.leg.spot.filled
    | PerpFilled            // execution.leg.perp.filled
    | PerpFailed            // execution.leg.perp.failed
    | OpenCompleted         // execution.completed
    | CloseStarted          // execution.close.started
    | CloseCompleted        // execution.close.completed
    | LiveLeg(phase: LegPhase, leg: Leg, status: LegStatus)
                            // execution.live[.close|.rebalance].<leg>.<status>
    | RecoveryRequired      // execution.recovery.required
    | RecoveryStarted       // execution.recovery.started
    | RecoveryPerpFilled    // execution.recovery.perp.filled
    | RecoveryCompleted     // execution.recovery.completed
    | RebalanceStarted      // execution.rebalance.started
    | RebalanceCompleted    // execution.rebalance.completed
    | IdempotentReplay      // execution.idempotent.replay
    | BreakerBlocked        // execution.circuit_breaker.blocked
    | BreakerOpened         // execution.circuit_breaker.opened
    | BreakerReset          // execution.circuit_breaker.reset
    | Other(name: string)

  /** The exchange's order id as it sits in a payload: text, a number, or absent. */
  datatype OrderRef = NoOrder | OrderText(text: string) | OrderNumber(number: int)

  datatype Payload = Payload(
    tradeId: Option<string>,
    action: Option<Action>,
    status: Option<TradeStatus>,
    orderId: OrderRef,
    clientOrderId: Option<string>)

  function TradePayload(tradeId: string): Payload
  {
    Payload(Some(tradeId), None, None, NoOrder, None)
  }

  function StatusPayload(tradeId: string, status: TradeStatus): Payload
  {
    Payload(Some(tradeId), None, Some(status), NoOrder, None)
  }

  datatype Source = Orchestrator | OtherSource(name: string)

  datatype AuditEventRecord = AuditEventRecord(
    eventId: string,
    eventType: EventType,
    source: Source,
    occurredAt: Time,
    payload: Payload)

  /** `"close" in event.event_type`. */
  predicate MentionsClose(kind: EventType)
  {
    match kind
    case CloseStarted => true
    case CloseCompleted => true
    case LiveLeg(phase, _, _) => phase.ClosePhase?
    case Other(name) => Contains(name, "close")
    case _ => false
  }

  /** An event before the log gives it an id and the source. */
  datatype Draft = Draft(kind: EventType, at: Time, payload: Payload)

  /** Event ids come from an arbitrary source: the n-th event gets uuid(n). */
  type Ids = nat -> string

  function Stamp(uuid: Ids, position: nat, draft: Draft): AuditEventRecord
  {
    AuditEventRecord(uuid(position), draft.kind, Orchestrator, draft.at, draft.payload)
  }

  /** The drafts as they come out of a log that already holds `position` events. */
  function Stamped(uuid: Ids, position: nat, drafts: seq<Draft>): (events: seq<AuditEventRecord>)
    ensures |events| == |drafts|
  {
    seq(|drafts|, i requires 0 <= i < |drafts| => Stamp(uuid, position + i, drafts[i]))
  }

  function Emit(uuid: Ids, log: seq<AuditEventRecord>, drafts: seq<Draft>): seq<AuditEventRecord>
  {
    log + Stamped(uuid, |log|, drafts)
  }

  lemma StampedAppend(uuid: Ids, position: nat, first: seq<Draft>, second: seq<Draft>)
    ensures Stamped(uuid, position, first + second)
         == Stamped(uuid, position, first) + Stamped(uuid, position + |first|, second)
  {
  }

  lemma StampedOne(uuid: Ids, position: nat, draft: Draft)
    ensures Stamped(uuid, position, [draft]) == [Stamp(uuid, position, draft)]
  {
  }

  lemma EmitNone(uuid: Ids, log: seq<AuditEventRecord>)
    ensures Emit(uuid, log, []) == log
  {
  }

  lemma EmitAppend(uuid: Ids, log: seq<AuditEventRecord>, first: seq<Draft>, second: seq<Draft>)
    ensures Emit(uuid, log, first + second) == Emit(uuid, Emit(uuid, log, first), second)
  {
  }

  predicate EventLe(a: AuditEventRecord, b: AuditEventRecord)
  {
    a.occurredAt < b.occurredAt || (a.occurredAt == b.occurredAt && TextLe(a.eventId, b.eventId))
  }

  lemma EventOrder()
    ensures TotalPreorder(EventLe)
  {
    forall x, y ensures EventLe(x, y) || EventLe(y, x) {
      TextLeTotal(x.eventId, y.eventId);
    }
    forall x, y, z | EventLe(x, y) && EventLe(y, z) ensures EventLe(x, z) {
      if x.occurredAt == z.occurredAt {
        TextLeTransitive(x.eventId, y.eventId, z.eventId);
      }
    }
  }

  predicate FromOrchestrator(e: AuditEventRecord)
  {
    e.source == Orchestrator
  }

  /** The orchestrator's events in (time, id) order, as every planner reads them. */
  function Timeline(log: seq<AuditEventRecord>): seq<AuditEventRecord>
  {
    Sort(Filter(log, FromOrchestrator), EventLe)
  }

  /** The timeline holds the orchestrator's events, each as often as the log does, the earlier
      first and of those at one time the smaller id first. */
  lemma TimelineInOrder(log: seq<AuditEventRecord>)
    ensures multiset(Timeline(log)) == multiset(Filter(log, FromOrchestrator))
    ensures forall e :: e in Timeline(log) <==> e in log && e.source == Orchestrator
    ensures forall i, j :: 0 <= i < j < |Timeline(log)| ==>
              && Timeline(log)[i].occurredAt <= Timeline(log)[j].occurredAt
              && (Timeline(log)[i].occurredAt == Timeline(log)[j].occurredAt ==>
                  TextLe(Timeline(log)[i].eventId, Timeline(log)[j].eventId))
  {
    EventOrder();
    SortSorts(Filter(log, FromOrchestrator), EventLe);
    FilterMembers(log, FromOrchestrator);
  }

  function About(tradeId: string): AuditEventRecord -> bool
  {
    (e: AuditEventRecord) => e.payload.tradeId == Some(tradeId)
  }

  /** A part of the timeline is the timeline of that part of the log. */
  lemma TimelineFilter(log: seq<AuditEventRecord>, keep: AuditEventRecord -> bool)
    ensures Filter(Timeline(log), keep) == Timeline(Filter(log, keep))
  {
    EventOrder();
    SortFilter(Filter(log, FromOrchestrator), EventLe, keep);
    FilterSwap(log, FromOrchestrator, keep);
  }

  /** `ordered[-limit:]`; a limit of zero slices from the start and keeps everything. */
  function LastEvents(ordered: seq<AuditEventRecord>, limit: Option<nat>): seq<AuditEventRecord>
  {
    if limit.None? || limit.value == 0 || limit.value >= |ordered| then ordered
    else ordered[|ordered| - limit.value..]
  }

  /** A limited listing is the end of the timeline: as many events as the limit allows and
      there are; a limit of zero is no limit. */
  lemma LastEventsAreTheSuffix(ordered: seq<AuditEventRecord>, limit: Option<nat>) returns (from: nat)
    ensures from <= |ordered| && LastEvents(ordered, limit) == ordered[from..]
    ensures limit == None || limit == Some(0) ==> from == 0
    ensures limit.Some? && 0 < limit.value <= |ordered| ==> |LastEvents(ordered, limit)| == limit.value
    ensures limit.Some? && limit.value > |ordered| ==> from == 0
  {
    from := |ordered| - |LastEvents(ordered, limit)|;
  }

  class AuditEventService {
    var events: seq<AuditEventRecord>
    const uuid: Ids

    constructor (uuid: Ids, initial: seq<AuditEventRecord>)
      ensures this.uuid == uuid && events == initial
    {
      this.uuid := uuid;
      events := initial;
    }

    method RecordEvent(draft: Draft) returns (event: AuditEventRecord)
      modifies this
      ensures event == Stamp(uuid, |old(events)|, draft)
      ensures events == Emit(uuid, old(events), [draft]) == old(events) + [event]
    {
      StampedOne(uuid, |events|, draft);
      event := Stamp(uuid, |events|, draft);
      events := events + [event];
    }

    method ListEvents(limit: Option<nat>) returns (listed: seq<AuditEventRecord>)
      ensures listed == LastEvents(Timeline(events), limit)
      ensures limit.None? ==> listed == Timeline(events)
    {
      var filtered := Filter(events, FromOrchestrator);
      var ordered := Sort(filtered, EventLe);
      if limit.None? {
        return ordered;
      }
      return LastEvents(ordered, limit);
    }
  }
}
