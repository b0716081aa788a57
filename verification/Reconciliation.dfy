/** Reconciliation: which exchange orders the log says exist, which reports are there, and
    whether they agree with the ledger. */
module Reconciliation {
  import opened Options
  import opened Lists
  import opened Ledger
  import opened Audit
  import opened Execution
  import opened ExchangeReports

  // ---- exchange statuses -----------------------------------------------------------

  datatype NormalStatus = NormalFilled | NormalPartial | NormalSubmitted | NormalFailed | NormalOther(text: string)

  predicate IsBlank(c: char)
  {
    c == ' ' || c == '\t' || c == '\n' || c == '\r'
  }

  function Strip(text: string): string
  {
    if text == "" then ""
    else if IsBlank(text[0]) then Strip(text[1..])
    else if IsBlank(text[|text| - 1]) then Strip(text[..|text| - 1])
    else text
  }

  function Normalize(status: string): NormalStatus
  {
    var normalized := Upper(Strip(status));
    if normalized == "FILLED" then NormalFilled
    else if normalized == "PARTIALLY_FILLED" then NormalPartial
    else if normalized == "NEW" || normalized == "PENDING_NEW" then NormalSubmitted
    else if normalized == "CANCELED" || normalized == "EXPIRED" || normalized == "REJECTED" then NormalFailed
    else NormalOther(Lower(normalized))
  }

  function NormalStatuses(statuses: seq<string>): set<NormalStatus>
  {
    set s | s in statuses :: Normalize(s)
  }

  predicate AllFilled(statuses: seq<string>)
  {
    statuses != [] && forall s :: s in statuses ==> Normalize(s) == NormalFilled
  }

  lemma AllFilledIsTheSet(statuses: seq<string>)
    ensures AllFilled(statuses) <==> NormalStatuses(statuses) == {NormalFilled}
  {
    hide Normalize;
    if statuses != [] {
      assert Normalize(statuses[0]) in NormalStatuses(statuses);
    }
    if NormalStatuses(statuses) == {NormalFilled} {
      assert NormalFilled in NormalStatuses(statuses);
      forall s | s in statuses ensures Normalize(s) == NormalFilled {
        assert Normalize(s) in NormalStatuses(statuses);
      }
    }
  }

  predicate IsStatusMismatch(local: TradeStatus, statuses: seq<string>)
  {
    var normalized := NormalStatuses(statuses);
    if local in {Hedged, Closed} then normalized != {NormalFilled}
    else if local in {RecoveryPending, TradeStatus.Failed} then normalized == {NormalFilled}
    else false
  }

  datatype SuggestedAction = InspectExchange | SuggestResumeOpen | SuggestResumeClose

  function SuggestAction(local: TradeStatus, statuses: seq<string>): SuggestedAction
  {
    var normalized := NormalStatuses(statuses);
    if local in {RecoveryPending, TradeStatus.Failed} && normalized == {NormalFilled} then SuggestResumeOpen
    else if local == Closed && normalized == {NormalFilled} then SuggestResumeClose
    else InspectExchange
  }

  // ---- the indexes ---------------------------------------------------------------

  type ReportIndex = map<string, ExchangeOrderReport>

  function IndexInOrder(sorted: seq<ExchangeOrderReport>): ReportIndex
  {
    if sorted == [] then map[]
    else IndexInOrder(sorted[..|sorted| - 1])[sorted[|sorted| - 1].orderId := sorted[|sorted| - 1]]
  }

  /** The report that counts for each order: the last one by (updated_at, report_id). */
  function LatestByOrder(reports: seq<ExchangeOrderReport>): ReportIndex
  {
    IndexInOrder(Sort(reports, ReportLe))
  }

  lemma {:induction false} IndexInOrderHoldsLast(sorted: seq<ExchangeOrderReport>)
    requires Sorted(sorted, ReportLe)
    ensures forall r :: r in sorted ==> r.orderId in IndexInOrder(sorted)
    ensures forall id :: id in IndexInOrder(sorted) ==>
              && IndexInOrder(sorted)[id] in sorted && IndexInOrder(sorted)[id].orderId == id
              && forall r :: r in sorted && r.orderId == id ==> ReportLe(r, IndexInOrder(sorted)[id])
  {
    ReportOrder();
    if sorted != [] {
      var earlier, last := sorted[..|sorted| - 1], sorted[|sorted| - 1];
      IndexInOrderHoldsLast(earlier);
      assert sorted == earlier + [last];
      forall r | r in sorted ensures ReportLe(r, last) {
        var i :| 0 <= i < |sorted| && sorted[i] == r;
        assert ReportLe(last, last);
      }
    }
  }

  /** The index holds, for every order id with a report, the report with the greatest
      (updated_at, report_id), and nothing else. */
  lemma IndexHoldsLatest(reports: seq<ExchangeOrderReport>)
    ensures forall id :: id in LatestByOrder(reports) <==> exists r :: r in reports && r.orderId == id
    ensures forall id :: id in LatestByOrder(reports) ==>
              && LatestByOrder(reports)[id] in reports && LatestByOrder(reports)[id].orderId == id
              && forall r :: r in reports && r.orderId == id ==> ReportLe(r, LatestByOrder(reports)[id])
  {
    ReportOrder();
    SortSorts(reports, ReportLe);
    IndexInOrderHoldsLast(Sort(reports, ReportLe));
  }

  /** The log events that must have an order behind them. */
  predicate CarriesOrder(e: AuditEventRecord)
  {
    e.eventType.LiveLeg? && e.eventType.phase != RebalancePhase && e.eventType.status in {Filled, Partial}
  }

  /** The order ids a trade's events name, in order, each once. */
  function ExpectedOrders(events: seq<AuditEventRecord>, tradeId: string): seq<string>
  {
    if events == [] then []
    else
      var earlier := ExpectedOrders(events[..|events| - 1], tradeId);
      var e := events[|events| - 1];
      if CarriesOrder(e) && About(tradeId)(e) && e.payload.orderId.OrderText? && e.payload.orderId.text !in earlier
      then earlier + [e.payload.orderId.text] else earlier
  }

  function LatestEventAt(events: seq<AuditEventRecord>, tradeId: string): Option<Time>
  {
    if events == [] then None
    else
      var earlier := LatestEventAt(events[..|events| - 1], tradeId);
      var e := events[|events| - 1];
      if About(tradeId)(e) && (earlier.None? || e.occurredAt > earlier.value) then Some(e.occurredAt) else earlier
  }

  // ---- candidates -------------------------------------------------------------------

  datatype ReconciliationCandidate = ReconciliationCandidate(
    tradeId: string,
    symbol: string,
    localStatus: TradeStatus,
    expected: seq<string>,
    reported: seq<string>,
    missing: seq<string>,
    exchangeStatuses: seq<string>,
    latestEventAt: Option<Time>,
    latestReportAt: Option<Time>,
    suggested: SuggestedAction,
    needsAttention: bool)

  function Reported(index: ReportIndex): string -> Option<ExchangeOrderReport>
  {
    (id: string) => if id in index then Some(index[id]) else None
  }

  function Unreported(index: ReportIndex): string -> bool
  {
    (id: string) => id !in index
  }

  function Available(expected: seq<string>, index: ReportIndex): seq<ExchangeOrderReport>
  {
    Gather(expected, Reported(index))
  }

  function Missing(expected: seq<string>, index: ReportIndex): seq<string>
  {
    Filter(expected, Unreported(index))
  }

  function Statuses(reports: seq<ExchangeOrderReport>): seq<string>
  {
    Map(reports, (r: ExchangeOrderReport) => r.status)
  }

  function NewestUpdate(reports: seq<ExchangeOrderReport>): Option<Time>
  {
    if reports == [] then None
    else
      var earlier := NewestUpdate(reports[..|reports| - 1]);
      var last := reports[|reports| - 1].updatedAt;
      if earlier.None? || last > earlier.value then Some(last) else earlier
  }

  predicate Reconciled(r: TradeLedgerRecord)
  {
    r.mode == Live && r.status in {Hedged, RecoveryPending, TradeStatus.Failed, Closing, Closed}
  }

  function CandidateFor(r: TradeLedgerRecord, events: seq<AuditEventRecord>,
                        index: ReportIndex): ReconciliationCandidate
  {
    var expected := ExpectedOrders(events, r.tradeId);
    var available := Available(expected, index);
    var missing := Missing(expected, index);
    ReconciliationCandidate(
      r.tradeId, r.symbol, r.status, expected,
      Map(available, ReportedId()),
      missing, Statuses(available),
      LatestEventAt(events, r.tradeId), NewestUpdate(available),
      if missing != [] then InspectExchange else SuggestAction(r.status, Statuses(available)),
      missing != [] || (available != [] && IsStatusMismatch(r.status, Statuses(available))))
  }

  const DATETIME_MIN: Time := -62135596800000000

  function SortTime(at: Option<Time>): Time
  {
    if at.Some? then at.value else DATETIME_MIN
  }

  /** `sorted(key=(needs_attention, latest_event_at, trade_id), reverse=True)`. */
  predicate CandidateGe(a: ReconciliationCandidate, b: ReconciliationCandidate)
  {
    || (a.needsAttention && !b.needsAttention)
    || (&& a.needsAttention == b.needsAttention
        && (|| SortTime(a.latestEventAt) > SortTime(b.latestEventAt)
            || (SortTime(a.latestEventAt) == SortTime(b.latestEventAt) && TextLe(b.tradeId, a.tradeId))))
  }

  lemma CandidateOrder()
    ensures TotalPreorder(CandidateGe)
  {
    forall x, y ensures CandidateGe(x, y) || CandidateGe(y, x) {
      TextLeTotal(x.tradeId, y.tradeId);
    }
    forall x, y, z | CandidateGe(x, y) && CandidateGe(y, z) ensures CandidateGe(x, z) {
      if TextLe(z.tradeId, y.tradeId) && TextLe(y.tradeId, x.tradeId) {
        TextLeTransitive(z.tradeId, y.tradeId, x.tradeId);
      }
    }
  }

  function ReportedId(): ExchangeOrderReport -> string
  {
    (report: ExchangeOrderReport) => report.orderId
  }

  function KeptCandidate(symbol: Option<string>): TradeLedgerRecord -> bool
  {
    (r: TradeLedgerRecord) => Reconciled(r) && (symbol.Some? ==> r.symbol == symbol.value)
  }

  function AttentionCandidate(events: seq<AuditEventRecord>, index: ReportIndex, onlyAttention: bool):
    TradeLedgerRecord -> Option<ReconciliationCandidate>
  {
    (r: TradeLedgerRecord) =>
      if onlyAttention ==> CandidateFor(r, events, index).needsAttention then Some(CandidateFor(r, events, index))
      else None
  }

  /** The candidate a listed record contributes, if any. */
  function ListedCandidate(events: seq<AuditEventRecord>, index: ReportIndex, symbol: Option<string>,
                           onlyAttention: bool):
    TradeLedgerRecord -> Option<ReconciliationCandidate>
  {
    (r: TradeLedgerRecord) =>
      if Reconciled(r) && (symbol.Some? ==> r.symbol == symbol.value)
         && (onlyAttention ==> CandidateFor(r, events, index).needsAttention)
      then Some(CandidateFor(r, events, index)) else None
  }

  function Candidates(ledger: seq<TradeLedgerRecord>, log: seq<AuditEventRecord>, reports: seq<ExchangeOrderReport>,
                      symbol: Option<string>, onlyAttention: bool): seq<ReconciliationCandidate>
  {
    Sort(Gather(ledger, ListedCandidate(Timeline(log), LatestByOrder(reports), symbol, onlyAttention)), CandidateGe)
  }

  // ---- the summary --------------------------------------------------------------------

  datatype IssueKind = MissingExchangeReport | StatusMismatch

  datatype ReconciliationIssue = ReconciliationIssue(
    tradeId: string,
    symbol: string,
    localStatus: TradeStatus,
    kind: IssueKind,
    missing: seq<string>,
    exchangeStatuses: seq<string>,
    suggested: SuggestedAction)

  function TradeIssues(r: TradeLedgerRecord, orderIds: seq<string>, index: ReportIndex): seq<ReconciliationIssue>
  {
    var available, missing := Available(orderIds, index), Missing(orderIds, index);
    var statuses := Statuses(available);
    (if missing != [] then
       [ReconciliationIssue(r.tradeId, r.symbol, r.status, MissingExchangeReport, missing, [], InspectExchange)]
     else [])
    + (if available != [] && IsStatusMismatch(r.status, statuses) then
         [ReconciliationIssue(r.tradeId, r.symbol, r.status, StatusMismatch, [], statuses,
                              SuggestAction(r.status, statuses))]
       else [])
  }

  function IssuesOf(records: seq<TradeLedgerRecord>, events: seq<AuditEventRecord>,
                    index: ReportIndex): seq<ReconciliationIssue>
  {
    if records == [] then []
    else
      var last := records[|records| - 1];
      IssuesOf(records[..|records| - 1], events, index) + TradeIssues(last, ExpectedOrders(events, last.tradeId), index)
  }

  function CountKind(issues: seq<ReconciliationIssue>, kind: IssueKind): nat
  {
    if issues == [] then 0
    else CountKind(issues[..|issues| - 1], kind) + if issues[|issues| - 1].kind == kind then 1 else 0
  }

  function IssueTrades(issues: seq<ReconciliationIssue>): set<string>
  {
    set i | i in issues :: i.tradeId
  }

  datatype ReconciliationSummary = ReconciliationSummary(
    compared: nat, matched: nat, issueCount: nat, missingCount: nat, mismatchCount: nat,
    issues: seq<ReconciliationIssue>)

  function Summary(ledger: seq<TradeLedgerRecord>, log: seq<AuditEventRecord>, reports: seq<ExchangeOrderReport>):
    ReconciliationSummary
  {
    var records := Filter(ledger, Reconciled);
    var issues := IssuesOf(records, Timeline(log), LatestByOrder(reports));
    var trades := IssueTrades(issues);
    ReconciliationSummary(|records|, if |records| >= |trades| then |records| - |trades| else 0, |issues|,
                          CountKind(issues, MissingExchangeReport), CountKind(issues, StatusMismatch), issues)
  }

  // ---- syncing with the exchange --------------------------------------------------------

  datatype OrderRequest = OrderRequest(leg: Leg, orderId: string, clientOrderId: string)

  function Digits(n: nat): string
  {
    if n < 10 then ["0123456789"[n]] else Digits(n / 10) + ["0123456789"[n % 10]]
  }

  /** `str(order_id)`, for an id that is there. */
  function OrderIdText(order: OrderRef): Option<string>
  {
    match order
    case NoOrder => None
    case OrderText(text) => Some(text)
    case OrderNumber(n) => Some(if n < 0 then "-" + Digits(-n) else Digits(n))
  }

  predicate Requested(requests: seq<OrderRequest>, leg: Leg, orderId: string)
  {
    exists q :: q in requests && q.leg == leg && q.orderId == orderId
  }

  /** The orders to ask the exchange about, each (leg, id) once. */
  function OrderRequests(events: seq<AuditEventRecord>, tradeId: string): seq<OrderRequest>
  {
    if events == [] then []
    else
      var earlier := OrderRequests(events[..|events| - 1], tradeId);
      var e := events[|events| - 1];
      var id := OrderIdText(e.payload.orderId);
      if CarriesOrder(e) && About(tradeId)(e) && id.Some? && !Requested(earlier, e.eventType.leg, id.value)
      then earlier + [OrderRequest(e.eventType.leg, id.value,
                                   if e.payload.clientOrderId.Some? then e.payload.clientOrderId.value else "")]
      else earlier
  }

  /** What the exchange says about one order, as the report keeps it. */
  datatype OrderAnswer = OrderAnswer(
    orderId: string, clientOrderId: Option<string>, symbol: string, status: string,
    executedQty: real, cumQuoteQty: real, updatedAt: Time)

  /** The exchange's answer to the n-th query of a sync, which may also raise. */
  type Client = (nat, OrderRequest) -> Outcome<OrderAnswer>

  function ToReport(tradeId: string, leg: Leg, answer: OrderAnswer, reportId: string): ExchangeOrderReport
  {
    ExchangeOrderReport(reportId, answer.orderId, answer.clientOrderId, Some(tradeId), answer.symbol, leg,
                        answer.status, answer.executedQty, answer.cumQuoteQty, answer.updatedAt)
  }

  /** The reports fetched for a trade's requests, or the first exception. */
  function Fetch(tradeId: string, requests: seq<OrderRequest>, client: Client, ids: nat -> string, first: nat):
    Outcome<seq<ExchangeOrderReport>>
  {
    if requests == [] then Returned([])
    else
      var n := |requests| - 1;
      match Fetch(tradeId, requests[..n], client, ids, first)
      case Raised(error) => Raised(error)
      case Returned(earlier) =>
        match client(first + n, requests[n])
        case Raised(error) => Raised(error)
        case Returned(answer) => Returned(earlier + [ToReport(tradeId, requests[n].leg, answer, ids(first + n))])
  }

  /** Once a query raises, the rest of the list does not matter. */
  lemma {:induction false} FetchStops(tradeId: string, requests: seq<OrderRequest>, client: Client, ids: nat -> string,
                                      first: nat, n: nat)
    requires n <= |requests| && Fetch(tradeId, requests[..n], client, ids, first).Raised?
    ensures Fetch(tradeId, requests, client, ids, first) == Fetch(tradeId, requests[..n], client, ids, first)
  {
    if n == |requests| {
      assert requests[..n] == requests;
    } else {
      assert requests[..|requests| - 1][..n] == requests[..n];
      FetchStops(tradeId, requests[..|requests| - 1], client, ids, first, n);
    }
  }

  /** A dictionary entry: in place for a known order id, at the end for a new one. */
  function PutReport(merged: seq<ExchangeOrderReport>, report: ExchangeOrderReport): seq<ExchangeOrderReport>
  {
    if merged == [] then [report]
    else if merged[0].orderId == report.orderId then [report] + merged[1..]
    else [merged[0]] + PutReport(merged[1..], report)
  }

  function MergeReports(reports: seq<ExchangeOrderReport>): seq<ExchangeOrderReport>
  {
    if reports == [] then []
    else PutReport(MergeReports(reports[..|reports| - 1]), reports[|reports| - 1])
  }

  function Upsert(stored: seq<ExchangeOrderReport>, fresh': seq<ExchangeOrderReport>): seq<ExchangeOrderReport>
  {
    MergeReports(stored + fresh')
  }

  datatype SyncResult = SyncResult(
    stored: seq<ExchangeOrderReport>, asked: nat, outcome: Outcome<seq<ExchangeOrderReport>>)

  /** `sync_reports_for_trade`: the store, the number of queries so far, and the reports. */
  function SyncTrade(ledger: seq<TradeLedgerRecord>, log: seq<AuditEventRecord>, stored: seq<ExchangeOrderReport>,
                     tradeId: string, client: Client, ids: nat -> string, first: nat): SyncResult
  {
    var record := Find(ledger, tradeId);
    if record.None? then SyncResult(stored, first, Raised(NotInLedger(tradeId)))
    else if record.value.mode != Live then
      SyncResult(stored, first, Raised(ValueError("trade '" + tradeId + "' is not a live trade")))
    else
      var requests := OrderRequests(Timeline(log), tradeId);
      var fetched := Fetch(tradeId, requests, client, ids, first);
      if requests == [] then SyncResult(stored, first, Returned([]))
      else if fetched.Raised? then SyncResult(stored, first + |requests|, fetched)
      else SyncResult(Upsert(stored, fetched.value), first + |requests|, fetched)
  }

  function SyncAll(ledger: seq<TradeLedgerRecord>, log: seq<AuditEventRecord>, stored: seq<ExchangeOrderReport>,
                   candidates: seq<ReconciliationCandidate>, client: Client, ids: nat -> string): SyncResult
  {
    if candidates == [] then SyncResult(stored, 0, Returned([]))
    else
      var earlier := SyncAll(ledger, log, stored, candidates[..|candidates| - 1], client, ids);
      if earlier.outcome.Raised? then earlier
      else
        var last := SyncTrade(ledger, log, earlier.stored, candidates[|candidates| - 1].tradeId, client, ids,
                              earlier.asked);
        last.(outcome := if last.outcome.Raised? then last.outcome
                         else Returned(earlier.outcome.value + last.outcome.value))
  }

  lemma {:induction false} SyncStops(ledger: seq<TradeLedgerRecord>, log: seq<AuditEventRecord>,
                                     stored: seq<ExchangeOrderReport>, candidates: seq<ReconciliationCandidate>,
                                     client: Client, ids: nat -> string, n: nat)
    requires n <= |candidates| && SyncAll(ledger, log, stored, candidates[..n], client, ids).outcome.Raised?
    ensures SyncAll(ledger, log, stored, candidates, client, ids)
         == SyncAll(ledger, log, stored, candidates[..n], client, ids)
  {
    if n == |candidates| {
      assert candidates[..n] == candidates;
    } else {
      assert candidates[..|candidates| - 1][..n] == candidates[..n];
      SyncStops(ledger, log, stored, candidates[..|candidates| - 1], client, ids, n);
    }
  }

  function KeptStatus(): TradeLedgerRecord -> bool
  {
    (r: TradeLedgerRecord) => r.status in {Hedged, RecoveryPending, TradeStatus.Failed, Closing, Closed}
  }

  class ReconciliationService {
    const store: ExchangeOrderReportStore
    const ledger: TradeLedgerService
    const audit: AuditEventService

    constructor (store: ExchangeOrderReportStore, ledger: TradeLedgerService, audit: AuditEventService)
      ensures this.store == store && this.ledger == ledger && this.audit == audit
    {
      this.store := store;
      this.ledger := ledger;
      this.audit := audit;
    }

    method BuildReportIndex(reports: seq<ExchangeOrderReport>) returns (index: ReportIndex)
      ensures index == LatestByOrder(reports)
    {
      var sorted := Sort(reports, ReportLe);
      index := map[];
      for i := 0 to |sorted|
        invariant index == IndexInOrder(sorted[..i])
      {
        index := index[sorted[i].orderId := sorted[i]];
        assert sorted[..i + 1][..i] == sorted[..i];
      }
      assert sorted[..|sorted|] == sorted;
    }

    method BuildExpectedOrderIdIndex(events: seq<AuditEventRecord>) returns (index: map<string, seq<string>>)
      ensures forall id :: (if id in index then index[id] else []) == ExpectedOrders(events, id)
    {
      hide CarriesOrder;
      index := map[];
      for i := 0 to |events|
        invariant forall id :: (if id in index then index[id] else []) == ExpectedOrders(events[..i], id)
      {
        var payload := events[i].payload;
        assert events[..i + 1][..i] == events[..i] && events[..i + 1][i] == events[i];
        if CarriesOrder(events[i]) && payload.tradeId.Some? && payload.orderId.OrderText? {
          var tradeId, orderId := payload.tradeId.value, payload.orderId.text;
          if tradeId !in index {
            index := index[tradeId := []];
          }
          if orderId !in index[tradeId] {
            index := index[tradeId := index[tradeId] + [orderId]];
          }
        }
      }
      assert events[..|events|] == events;
    }

    method BuildLatestEventIndex(events: seq<AuditEventRecord>) returns (index: map<string, Time>)
      ensures forall id :: (if id in index then Some(index[id]) else None) == LatestEventAt(events, id)
    {
      index := map[];
      for i := 0 to |events|
        invariant forall id :: (if id in index then Some(index[id]) else None) == LatestEventAt(events[..i], id)
      {
        var tradeId := events[i].payload.tradeId;
        assert events[..i + 1][..i] == events[..i];
        if tradeId.Some? {
          if tradeId.value !in index || events[i].occurredAt > index[tradeId.value] {
            index := index[tradeId.value := events[i].occurredAt];
          }
        }
      }
      assert events[..|events|] == events;
    }

    method BuildExpectedOrderRequests(tradeId: string, events: seq<AuditEventRecord>)
        returns (requests: seq<OrderRequest>)
      ensures requests == OrderRequests(events, tradeId)
    {
      requests := [];
      var seen: set<(Leg, string)> := {};
      for i := 0 to |events|
        invariant requests == OrderRequests(events[..i], tradeId)
        invariant forall leg, id :: (leg, id) in seen <==> Requested(requests, leg, id)
      {
        var e := events[i];
        assert events[..i + 1][..i] == events[..i];
        if CarriesOrder(e) && e.payload.tradeId == Some(tradeId) {
          var orderId := OrderIdText(e.payload.orderId);
          if orderId.Some? && (e.eventType.leg, orderId.value) !in seen {
            seen := seen + {(e.eventType.leg, orderId.value)};
            var client := if e.payload.clientOrderId.Some? then e.payload.clientOrderId.value else "";
            var request := OrderRequest(e.eventType.leg, orderId.value, client);
            assert forall q :: q in requests + [request] <==> q in requests || q == request;
            requests := requests + [request];
          }
        }
      }
      assert events[..|events|] == events;
    }

    method ListReconciliationRecords() returns (records: seq<TradeLedgerRecord>)
      ensures records == Filter(ledger.records, Reconciled)
    {
      var live := ledger.ListRecords(Some(Live), None, None, None);
      records := Filter(live, KeptStatus());
      FilterTwice(ledger.records, Selecting(Some(Live), None, None, None), KeptStatus(), Reconciled);
    }

    method BuildCandidate(record: TradeLedgerRecord, expected: seq<string>, latestEventAt: Option<Time>,
                          index: ReportIndex, ghost events: seq<AuditEventRecord>)
      returns (candidate: ReconciliationCandidate)
      requires expected == ExpectedOrders(events, record.tradeId)
            && latestEventAt == LatestEventAt(events, record.tradeId)
      ensures candidate == CandidateFor(record, events, index)
    {
      hide IsStatusMismatch, SuggestAction, ExpectedOrders, LatestEventAt;
      var available := Available(expected, index);
      var missing := Missing(expected, index);
      var newest := BuildNewestUpdate(available);
      return ReconciliationCandidate(
          record.tradeId, record.symbol, record.status, expected, Map(available, ReportedId()),
          missing, Statuses(available), latestEventAt, newest,
          if missing != [] then InspectExchange else SuggestAction(record.status, Statuses(available)),
          missing != [] || (available != [] && IsStatusMismatch(record.status, Statuses(available))));
    }

    method SelectRecords(symbol: Option<string>) returns (records: seq<TradeLedgerRecord>)
      ensures records == Filter(ledger.records, KeptCandidate(symbol))
    {
      records := ListReconciliationRecords();
      if symbol.Some? {
        records := Filter(records, Selecting(None, None, None, symbol));
      }
      FilterStage(ledger.records, symbol.Some?, Reconciled, Selecting(None, None, None, symbol), KeptCandidate(symbol));
    }

    method BuildCandidates(records: seq<TradeLedgerRecord>, onlyAttention: bool)
      returns (candidates: seq<ReconciliationCandidate>)
      ensures candidates == Gather(records,
                                   AttentionCandidate(Timeline(audit.events), LatestByOrder(store.reports),
                                                      onlyAttention))
    {
      hide LatestByOrder, Timeline, CandidateFor, ExpectedOrders, LatestEventAt;
      var events := audit.ListEvents(None);
      var index := BuildReportIndex(store.reports);
      var expectedIds := BuildExpectedOrderIdIndex(events);
      var latestEvents := BuildLatestEventIndex(events);
      ghost var f := AttentionCandidate(events, index, onlyAttention);
      candidates := [];
      assert records[0..] == records;
      for i := 0 to |records|
        invariant candidates + Gather(records[i..], f) == Gather(records, f)
      {
        var record := records[i];
        assert records[i..][1..] == records[i + 1..];
        var expected := if record.tradeId in expectedIds then expectedIds[record.tradeId] else [];
        var latest := if record.tradeId in latestEvents then Some(latestEvents[record.tradeId]) else None;
        var candidate := BuildCandidate(record, expected, latest, index, events);
        ghost var before := candidates;
        if !onlyAttention || candidate.needsAttention {
          candidates := candidates + [candidate];
        }
        ConcatAssociates(before, if f(record).Some? then [f(record).value] else [], Gather(records[i + 1..], f));
      }
      assert Gather(records[|records|..], f) == [] && candidates + [] == candidates;
    }

    /** The live trades to look at, those that need attention first, then the latest. */
    method ListCandidates(symbol: Option<string>, onlyAttention: bool)
        returns (candidates: seq<ReconciliationCandidate>)
      ensures candidates == Candidates(ledger.records, audit.events, store.reports, symbol, onlyAttention)
    {
      hide LatestByOrder, Timeline, CandidateFor;
      var records := SelectRecords(symbol);
      candidates := BuildCandidates(records, onlyAttention);
      ghost var events, index := Timeline(audit.events), LatestByOrder(store.reports);
      GatherFiltered(ledger.records, KeptCandidate(symbol), AttentionCandidate(events, index, onlyAttention),
                     ListedCandidate(events, index, symbol, onlyAttention));
      candidates := Sort(candidates, CandidateGe);
    }

    method BuildNewestUpdate(reports: seq<ExchangeOrderReport>) returns (newest: Option<Time>)
      ensures newest == NewestUpdate(reports)
    {
      newest := None;
      for i := 0 to |reports|
        invariant newest == NewestUpdate(reports[..i])
      {
        if newest.None? || reports[i].updatedAt > newest.value {
          newest := Some(reports[i].updatedAt);
        }
        assert reports[..i + 1][..i] == reports[..i];
      }
      assert reports[..|reports|] == reports;
    }

    method BuildIssues(records: seq<TradeLedgerRecord>) returns (issues: seq<ReconciliationIssue>)
      ensures issues == IssuesOf(records, Timeline(audit.events), LatestByOrder(store.reports))
    {
      hide LatestByOrder, Timeline, TradeIssues, ExpectedOrders;
      var events := audit.ListEvents(None);
      var index := BuildReportIndex(store.reports);
      var expectedIds := BuildExpectedOrderIdIndex(events);
      issues := [];
      for i := 0 to |records|
        invariant issues == IssuesOf(records[..i], events, index)
      {
        var expected := if records[i].tradeId in expectedIds then expectedIds[records[i].tradeId] else [];
        issues := issues + TradeIssues(records[i], expected, index);
        assert records[..i + 1][..i] == records[..i];
      }
      assert records[..|records|] == records;
    }

    method BuildSummary() returns (summary: ReconciliationSummary)
      ensures summary == Summary(ledger.records, audit.events, store.reports)
    {
      hide LatestByOrder, Timeline, IssuesOf, Filter;
      var records := ListReconciliationRecords();
      var issues := BuildIssues(records);
      var missing, mismatched := 0, 0;
      var trades: set<string> := {};
      for i := 0 to |issues|
        invariant missing == CountKind(issues[..i], MissingExchangeReport)
        invariant mismatched == CountKind(issues[..i], StatusMismatch)
        invariant trades == IssueTrades(issues[..i])
      {
        match issues[i].kind {
          case MissingExchangeReport => missing := missing + 1;
          case StatusMismatch => mismatched := mismatched + 1;
        }
        trades := trades + {issues[i].tradeId};
        assert issues[..i + 1][..i] == issues[..i] && issues[..i + 1] == issues[..i] + [issues[i]];
      }
      assert issues[..|issues|] == issues;
      var matched := if |records| >= |trades| then |records| - |trades| else 0;
      return ReconciliationSummary(|records|, matched, |issues|, missing, mismatched, issues);
    }

    method UpsertReports(reports: seq<ExchangeOrderReport>)
      modifies store
      ensures store.reports == Upsert(old(store.reports), reports)
    {
      var merged: seq<ExchangeOrderReport> := [];
      var stored := store.reports;
      for i := 0 to |stored|
        invariant merged == MergeReports(stored[..i])
      {
        merged := PutReport(merged, stored[i]);
        assert stored[..i + 1][..i] == stored[..i];
      }
      assert stored[..|stored|] == stored && stored + reports[..0] == stored;
      for i := 0 to |reports|
        invariant merged == MergeReports(stored + reports[..i])
      {
        merged := PutReport(merged, reports[i]);
        assert (stored + reports[..i + 1])[..|stored| + i] == stored + reports[..i];
      }
      assert reports[..|reports|] == reports;
      store.reports := merged;
    }

    method SyncReportsForTrade(tradeId: string, client: Client, ids: nat -> string, first: nat)
      returns (outcome: Outcome<seq<ExchangeOrderReport>>, asked: nat)
      modifies store
      ensures SyncResult(store.reports, asked, outcome)
           == SyncTrade(ledger.records, audit.events, old(store.reports), tradeId, client, ids, first)
    {
      hide Timeline, Upsert, Find, OrderRequests, ToReport;
      var record := ledger.GetRecord(tradeId);
      if record.None? {
        return Raised(NotInLedger(tradeId)), first;
      }
      if record.value.mode != Live {
        return Raised(ValueError("trade '" + tradeId + "' is not a live trade")), first;
      }
      var events := audit.ListEvents(None);
      var requests := BuildExpectedOrderRequests(tradeId, events);
      if requests == [] {
        return Returned([]), first;
      }
      asked := first + |requests|;
      var synced: seq<ExchangeOrderReport> := [];
      for i := 0 to |requests|
        invariant Fetch(tradeId, requests[..i], client, ids, first) == Returned(synced)
      {
        assert requests[..i + 1][..i] == requests[..i];
        var answer := client(first + i, requests[i]);
        if answer.Raised? {
          FetchStops(tradeId, requests, client, ids, first, i + 1);
          return Raised(answer.error), asked;
        }
        synced := synced + [ToReport(tradeId, requests[i].leg, answer.value, ids(first + i))];
      }
      assert requests[..|requests|] == requests;
      UpsertReports(synced);
      return Returned(synced), asked;
    }

    method SyncAttentionCandidates(client: Client, ids: nat -> string, limit: Option<nat>)
      returns (outcome: Outcome<seq<ExchangeOrderReport>>)
      modifies store
      ensures var candidates := Take(Candidates(ledger.records, audit.events, old(store.reports), None, true), limit);
              var done := SyncAll(ledger.records, audit.events, old(store.reports), candidates, client, ids);
              outcome == done.outcome && store.reports == done.stored
    {
      hide SyncTrade;
      var candidates := ListCandidates(None, true);
      candidates := Take(candidates, limit);
      var synced: seq<ExchangeOrderReport> := [];
      var asked: nat := 0;
      ghost var before := store.reports;
      for i := 0 to |candidates|
        invariant SyncAll(ledger.records, audit.events, before, candidates[..i], client, ids)
               == SyncResult(store.reports, asked, Returned(synced))
      {
        assert candidates[..i + 1][..i] == candidates[..i];
        var one;
        one, asked := SyncReportsForTrade(candidates[i].tradeId, client, ids, asked);
        if one.Raised? {
          SyncStops(ledger.records, audit.events, before, candidates, client, ids, i + 1);
          return one;
        }
        synced := synced + one.value;
      }
      assert candidates[..|candidates|] == candidates;
      return Returned(synced);
    }
  }
}
