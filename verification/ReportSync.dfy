/** Syncing order reports: what an upsert keeps, and that a sync closes every gap. */
module ReportSync {
  import opened Options
  import opened Lists
  import opened Ledger
  import opened Audit
  import opened Execution
  import opened ExchangeReports
  import opened Reconciliation
  import Backfill

  function OrderIds(reports: seq<ExchangeOrderReport>): set<string>
  {
    set r | r in reports :: r.orderId
  }

  predicate OnePerOrder(reports: seq<ExchangeOrderReport>)
  {
    forall i, j :: 0 <= i < j < |reports| ==> reports[i].orderId != reports[j].orderId
  }

  /** The report listed last for an order id. */
  function LastListed(reports: seq<ExchangeOrderReport>, orderId: string): Option<ExchangeOrderReport>
  {
    if reports == [] then None
    else if reports[|reports| - 1].orderId == orderId then Some(reports[|reports| - 1])
    else LastListed(reports[..|reports| - 1], orderId)
  }

  lemma {:induction false} PutReportReplaces(merged: seq<ExchangeOrderReport>, report: ExchangeOrderReport)
    requires OnePerOrder(merged)
    ensures OnePerOrder(PutReport(merged, report))
    ensures forall r :: r in PutReport(merged, report)
              <==> r == report || (r in merged && r.orderId != report.orderId)
  {
    if merged != [] {
      var head, rest := merged[0], merged[1..];
      assert merged == [head] + rest;
      forall r | r in rest ensures r.orderId != head.orderId {
        var i :| 0 <= i < |rest| && rest[i] == r;
        assert merged[i + 1] == r;
      }
      PutReportReplaces(rest, report);
      if head.orderId == report.orderId {
        OneMoreOrder(report, rest);
      } else {
        OneMoreOrder(head, PutReport(rest, report));
      }
    }
  }

  lemma OneMoreOrder(head: ExchangeOrderReport, rest: seq<ExchangeOrderReport>)
    requires OnePerOrder(rest) && forall r :: r in rest ==> r.orderId != head.orderId
    ensures OnePerOrder([head] + rest)
  {
    var all := [head] + rest;
    forall i, j | 0 <= i < j < |all| ensures all[i].orderId != all[j].orderId {
      assert all[j] == rest[j - 1] && rest[j - 1] in rest;
      if i > 0 { assert all[i] == rest[i - 1]; }
    }
  }

  /** A merge holds one report an order: for each order id, the one listed last. */
  lemma {:induction false} MergeKeepsLastListed(reports: seq<ExchangeOrderReport>)
    ensures OnePerOrder(MergeReports(reports))
    ensures forall r :: r in MergeReports(reports) <==> LastListed(reports, r.orderId) == Some(r)
  {
    if reports != [] {
      var earlier, last := reports[..|reports| - 1], reports[|reports| - 1];
      MergeKeepsLastListed(earlier);
      PutReportReplaces(MergeReports(earlier), last);
    }
  }

  lemma {:induction false} LastListedIsThere(reports: seq<ExchangeOrderReport>, orderId: string)
    ensures LastListed(reports, orderId).Some? <==> orderId in OrderIds(reports)
    ensures LastListed(reports, orderId).Some? ==>
              LastListed(reports, orderId).value in reports && LastListed(reports, orderId).value.orderId == orderId
  {
    if reports != [] {
      var earlier, last := reports[..|reports| - 1], reports[|reports| - 1];
      LastListedIsThere(earlier, orderId);
      assert reports == earlier + [last];
      assert OrderIds(reports) == OrderIds(earlier) + {last.orderId};
    }
  }

  lemma {:induction false} LastListedOfTwo(stored: seq<ExchangeOrderReport>, fetched: seq<ExchangeOrderReport>,
                                           orderId: string)
    ensures LastListed(stored + fetched, orderId)
         == if LastListed(fetched, orderId).Some? then LastListed(fetched, orderId) else LastListed(stored, orderId)
  {
    if fetched == [] {
      assert stored + fetched == stored;
    } else {
      var n := |fetched| - 1;
      LastListedOfTwo(stored, fetched[..n], orderId);
      assert (stored + fetched)[..|stored| + n] == stored + fetched[..n];
    }
  }

  lemma {:induction false} OnlyOneIsLast(reports: seq<ExchangeOrderReport>, report: ExchangeOrderReport)
    requires OnePerOrder(reports) && report in reports
    ensures LastListed(reports, report.orderId) == Some(report)
  {
    var earlier, last := reports[..|reports| - 1], reports[|reports| - 1];
    assert reports == earlier + [last];
    if report != last {
      assert report in earlier;
      OnlyOneIsLast(earlier, report);
    }
  }

  /** An upsert loses no order id, leaves one report an order, prefers the fetched reports,
      and, in a store with one report an order, keeps every report it has no news about. */
  lemma UpsertKeepsEveryOrder(stored: seq<ExchangeOrderReport>, fetched: seq<ExchangeOrderReport>)
    ensures OnePerOrder(Upsert(stored, fetched))
    ensures OrderIds(Upsert(stored, fetched)) == OrderIds(stored) + OrderIds(fetched)
    ensures forall r :: r in Upsert(stored, fetched) && r.orderId in OrderIds(fetched) ==>
              LastListed(fetched, r.orderId) == Some(r)
    ensures OnePerOrder(stored) ==>
              forall r: ExchangeOrderReport ::
                  r.orderId !in OrderIds(fetched) ==> (r in Upsert(stored, fetched) <==> r in stored)
  {
    var all := stored + fetched;
    MergeKeepsLastListed(all);
    forall id ensures id in OrderIds(Upsert(stored, fetched)) <==> id in OrderIds(stored) + OrderIds(fetched) {
      LastListedIsThere(all, id);
      assert OrderIds(all) == OrderIds(stored) + OrderIds(fetched);
      if LastListed(all, id).Some? {
        assert LastListed(all, id).value in Upsert(stored, fetched);
      }
    }
    forall r: ExchangeOrderReport
      ensures r in Upsert(stored, fetched) && r.orderId in OrderIds(fetched)
          ==> LastListed(fetched, r.orderId) == Some(r)
      ensures OnePerOrder(stored) && r.orderId !in OrderIds(fetched) ==> (r in Upsert(stored, fetched) <==> r in stored)
    {
      LastListedOfTwo(stored, fetched, r.orderId);
      LastListedIsThere(fetched, r.orderId);
      LastListedIsThere(stored, r.orderId);
      if OnePerOrder(stored) && r in stored {
        OnlyOneIsLast(stored, r);
      }
    }
  }

  /** What the report index reads after an upsert: for each order the report listed last. */
  lemma IndexAfterUpsert(stored: seq<ExchangeOrderReport>, fetched: seq<ExchangeOrderReport>, orderId: string)
    ensures var index := LatestByOrder(Upsert(stored, fetched));
            (if orderId in index then Some(index[orderId]) else None) == LastListed(stored + fetched, orderId)
  {
    var merged := Upsert(stored, fetched);
    MergeKeepsLastListed(stored + fetched);
    LastListedIsThere(stored + fetched, orderId);
    IndexHoldsLatest(merged);
    if LastListed(stored + fetched, orderId).Some? {
      assert LastListed(stored + fetched, orderId).value in merged;
    }
  }

  /** An upsert without news about an order keeps its newest report in the index exactly when
      that report is also the one listed last for the order. */
  lemma NewestIsKeptIff(stored: seq<ExchangeOrderReport>, fetched: seq<ExchangeOrderReport>, orderId: string)
    requires orderId in OrderIds(stored) && orderId !in OrderIds(fetched)
    ensures var before, after := LatestByOrder(stored), LatestByOrder(Upsert(stored, fetched));
            && orderId in before && orderId in after
            && (after[orderId] == before[orderId] <==> LastListed(stored, orderId) == Some(before[orderId]))
  {
    hide LatestByOrder;
    IndexAfterUpsert(stored, fetched, orderId);
    LastListedOfTwo(stored, fetched, orderId);
    LastListedIsThere(stored, orderId);
    LastListedIsThere(fetched, orderId);
    IndexHoldsLatest(stored);
  }

  /** Two reports of one order get into the store by the import of a file: it tells items apart
      by their whole content. A sync of another order then drops the newer of the two when the
      older one was imported. */
  lemma UpsertMayDropTheNewest(older: ExchangeOrderReport, newer: ExchangeOrderReport, other: ExchangeOrderReport,
                               canonical: ExchangeOrderReport -> string)
    requires older.orderId == newer.orderId != other.orderId && older.updatedAt < newer.updatedAt
    requires canonical(older) != canonical(newer)
    ensures var stored := [newer] + Backfill.NewItems([older], canonical, Backfill.Forms([newer], canonical));
            var before, after := LatestByOrder(stored), LatestByOrder(Upsert(stored, [other]));
            && stored == [newer, older] && newer !in Upsert(stored, [other])
            && newer.orderId in before && before[newer.orderId] == newer
            && newer.orderId in after && after[newer.orderId] == older
  {
    hide LatestByOrder;
    var stored := [newer, older];
    assert Backfill.NewItems([older], canonical, Backfill.Forms([newer], canonical)) == [older];
    assert stored[..1] == [newer] && newer in stored;
    IndexHoldsLatest(stored);
    IndexAfterUpsert(stored, [other], newer.orderId);
    LastListedOfTwo(stored, [other], newer.orderId);
    MergeKeepsLastListed(stored + [other]);
  }

  // ---- requests ----------------------------------------------------------------------

  /** Every expected order is asked about: the request list covers the expected ids. */
  lemma {:induction false} RequestsCoverExpected(events: seq<AuditEventRecord>, tradeId: string, orderId: string)
    requires orderId in ExpectedOrders(events, tradeId)
    ensures exists q :: q in OrderRequests(events, tradeId) && q.orderId == orderId
  {
    var earlier, e := events[..|events| - 1], events[|events| - 1];
    if orderId in ExpectedOrders(earlier, tradeId) {
      RequestsCoverExpected(earlier, tradeId, orderId);
      var q :| q in OrderRequests(earlier, tradeId) && q.orderId == orderId;
      assert q in OrderRequests(events, tradeId);
    } else {
      assert OrderIdText(e.payload.orderId) == Some(orderId);
      var before := OrderRequests(earlier, tradeId);
      if Requested(before, e.eventType.leg, orderId) {
        var q :| q in before && q.leg == e.eventType.leg && q.orderId == orderId;
        assert q in OrderRequests(events, tradeId);
      } else {
        assert OrderRequests(events, tradeId)[|before|].orderId == orderId;
      }
    }
  }

  /** The event asks for this order: a filled or partly filled leg of an open or close of the
      trade that names its id, as text or as a number. */
  predicate AsksFor(e: AuditEventRecord, tradeId: string, leg: Leg, orderId: string)
  {
    && e.eventType.LiveLeg? && e.eventType.phase in {OpenPhase, ClosePhase} && e.eventType.leg == leg
    && e.eventType.status in {Filled, Partial} && e.payload.tradeId == Some(tradeId)
    && IdReads(e.payload.orderId, orderId)
  }

  /** The number a row of decimal digits stands for. */
  function Value(text: string): nat
    requires forall i :: 0 <= i < |text| ==> '0' <= text[i] <= '9'
  {
    if text == "" then 0 else 10 * Value(text[..|text| - 1]) + (text[|text| - 1] as int - '0' as int)
  }

  /** The text is the number in decimal, without leading zeros. */
  predicate WritesNat(text: string, n: nat)
  {
    && text != "" && (forall i :: 0 <= i < |text| ==> '0' <= text[i] <= '9')
    && (|text| > 1 ==> text[0] != '0') && Value(text) == n
  }

  predicate Writes(text: string, n: int)
  {
    if n >= 0 then WritesNat(text, n) else text != "" && text[0] == '-' && WritesNat(text[1..], -n)
  }

  lemma {:induction false} DigitsWrite(n: nat)
    ensures WritesNat(Digits(n), n)
    ensures n > 0 ==> Digits(n)[0] != '0'
  {
    var all := "0123456789";
    assert forall k :: 0 <= k < 10 ==> all[k] as int == '0' as int + k;
    if n < 10 {
      assert Digits(n) == [all[n]] && Digits(n)[..0] == "";
    } else {
      DigitsWrite(n / 10);
      assert Digits(n)[..|Digits(n)| - 1] == Digits(n / 10);
    }
  }

  lemma {:induction false} WritingIsUnique(a: string, b: string, n: nat)
    requires WritesNat(a, n) && WritesNat(b, n)
    ensures a == b
  {
    var x, y := a[..|a| - 1], b[..|b| - 1];
    assert a == x + [a[|a| - 1]] && b == y + [b[|b| - 1]];
    assert Value(x) == n / 10 == Value(y) && a[|a| - 1] == b[|b| - 1];
    PositiveValue(x);
    PositiveValue(y);
    if x != "" && y != "" {
      WritingIsUnique(x, y, n / 10);
    }
  }

  lemma {:induction false} PositiveValue(text: string)
    requires forall i :: 0 <= i < |text| ==> '0' <= text[i] <= '9'
    requires text != "" ==> text[0] != '0'
    ensures Value(text) > 0 <==> text != ""
  {
    if |text| > 1 {
      PositiveValue(text[..|text| - 1]);
    } else if |text| == 1 {
      assert text[..0] == "";
    }
  }

  /** The orders asked about are exactly those some event asks for, each leg and id once. */
  lemma {:induction false} RequestsAreAskedFor(events: seq<AuditEventRecord>, tradeId: string, leg: Leg,
                                               orderId: string)
    ensures var requests := OrderRequests(events, tradeId);
            && ((exists q :: q in requests && q.leg == leg && q.orderId == orderId)
                <==> exists e :: e in events && AsksFor(e, tradeId, leg, orderId))
            && (forall i, j :: 0 <= i < j < |requests| ==>
                  requests[i].leg != requests[j].leg || requests[i].orderId != requests[j].orderId)
  {
    if events != [] {
      var earlier, e := events[..|events| - 1], events[|events| - 1];
      RequestsAreAskedFor(earlier, tradeId, leg, orderId);
      assert events == earlier + [e];
      OrderIdReads(e.payload.orderId, orderId);
      OneRequestMore(OrderRequests(earlier, tradeId), OrderRequests(events, tradeId), e, tradeId, leg, orderId);
    }
  }

  /** The id of an order, as text or as the number it stands for. */
  predicate IdReads(order: OrderRef, orderId: string)
  {
    order == OrderText(orderId) || (order.OrderNumber? && Writes(orderId, order.number))
  }

  lemma DigitsRead(n: nat, text: string)
    ensures text == Digits(n) <==> WritesNat(text, n)
  {
    DigitsWrite(n);
    hide Digits;
    if WritesNat(text, n) {
      WritingIsUnique(text, Digits(n), n);
    }
  }

  lemma OrderIdReads(order: OrderRef, orderId: string)
    ensures OrderIdText(order) == Some(orderId) <==> IdReads(order, orderId)
  {
    hide Digits, WritesNat;
    if order.OrderNumber? && order.number >= 0 {
      DigitsRead(order.number, orderId);
    } else if order.OrderNumber? {
      var digits := Digits(-order.number);
      if orderId != "" {
        DigitsRead(-order.number, orderId[1..]);
        assert orderId == [orderId[0]] + orderId[1..];
      }
      assert ("-" + digits)[1..] == digits;
    }
  }

  lemma OneRequestMore(before: seq<OrderRequest>, after: seq<OrderRequest>, e: AuditEventRecord, tradeId: string,
                       leg: Leg, orderId: string)
    requires var id := OrderIdText(e.payload.orderId);
             after == if CarriesOrder(e) && About(tradeId)(e) && id.Some?
                         && !Requested(before, e.eventType.leg, id.value)
                      then before + [OrderRequest(e.eventType.leg, id.value,
                                                  if e.payload.clientOrderId.Some? then e.payload.clientOrderId.value
                                                  else "")]
                      else before
    requires OrderIdText(e.payload.orderId) == Some(orderId) <==> IdReads(e.payload.orderId, orderId)
    ensures Requested(after, leg, orderId) <==> Requested(before, leg, orderId) || AsksFor(e, tradeId, leg, orderId)
  {
    hide Writes, OrderIdText;
    if after != before {
      assert forall q :: q in after <==> q in before || q == after[|before|];
    }
  }

  /** A client that answers every query with the order it was asked about. */
  ghost predicate Echoes(client: Client)
  {
    forall n, q :: client(n, q).Returned? && client(n, q).value.orderId == q.orderId
  }

  lemma {:induction false} FetchEchoes(tradeId: string, requests: seq<OrderRequest>, client: Client, ids: nat -> string,
                                       first: nat)
    requires Echoes(client)
    ensures Fetch(tradeId, requests, client, ids, first).Returned?
    ensures forall q :: q in requests ==> q.orderId in OrderIds(Fetch(tradeId, requests, client, ids, first).value)
  {
    if requests != [] {
      var n := |requests| - 1;
      FetchEchoes(tradeId, requests[..n], client, ids, first);
      var earlier := Fetch(tradeId, requests[..n], client, ids, first).value;
      assert client(first + n, requests[n]).Returned?;
      var report := ToReport(tradeId, requests[n].leg, client(first + n, requests[n]).value, ids(first + n));
      assert requests == requests[..n] + [requests[n]];
      assert OrderIds(earlier + [report]) == OrderIds(earlier) + {report.orderId};
    }
  }

  // ---- the sync ------------------------------------------------------------------------

  /** No expected order of the trade is without a report. */
  predicate NoGap(log: seq<AuditEventRecord>, stored: seq<ExchangeOrderReport>, tradeId: string)
  {
    forall id :: id in ExpectedOrders(Timeline(log), tradeId) ==> id in OrderIds(stored)
  }

  lemma NoGapMeansNothingMissing(log: seq<AuditEventRecord>, stored: seq<ExchangeOrderReport>, tradeId: string)
    ensures NoGap(log, stored, tradeId)
       <==> Missing(ExpectedOrders(Timeline(log), tradeId), LatestByOrder(stored)) == []
  {
    var expected, index := ExpectedOrders(Timeline(log), tradeId), LatestByOrder(stored);
    IndexHoldsLatest(stored);
    FilterMembers(expected, Unreported(index));
    if Missing(expected, index) != [] {
      assert Missing(expected, index)[0] in expected && Missing(expected, index)[0] !in index;
    } else {
      forall id | id in expected ensures id in index {
        assert id in Missing(expected, index) <==> id !in index;
      }
    }
  }

  lemma SyncTradeKeepsOrders(ledger: seq<TradeLedgerRecord>, log: seq<AuditEventRecord>,
                             stored: seq<ExchangeOrderReport>,
                             tradeId: string, client: Client, ids: nat -> string, first: nat)
    ensures OrderIds(stored) <= OrderIds(SyncTrade(ledger, log, stored, tradeId, client, ids, first).stored)
  {
    var fetched := Fetch(tradeId, OrderRequests(Timeline(log), tradeId), client, ids, first);
    if fetched.Returned? {
      UpsertKeepsEveryOrder(stored, fetched.value);
    }
  }

  lemma SyncTradeClosesGap(ledger: seq<TradeLedgerRecord>, log: seq<AuditEventRecord>, stored: seq<ExchangeOrderReport>,
                           tradeId: string, client: Client, ids: nat -> string, first: nat)
    requires Echoes(client) && Find(ledger, tradeId).Some? && Find(ledger, tradeId).value.mode == Live
    ensures var done := SyncTrade(ledger, log, stored, tradeId, client, ids, first);
            done.outcome.Returned? && NoGap(log, done.stored, tradeId)
  {
    var requests := OrderRequests(Timeline(log), tradeId);
    FetchEchoes(tradeId, requests, client, ids, first);
    var fetched := Fetch(tradeId, requests, client, ids, first).value;
    UpsertKeepsEveryOrder(stored, fetched);
    forall id | id in ExpectedOrders(Timeline(log), tradeId) ensures id in OrderIds(fetched) && requests != [] {
      RequestsCoverExpected(Timeline(log), tradeId, id);
    }
  }

  /** Whatever the client answers, and wherever it raises, no order loses its report. */
  lemma {:induction false} SyncAllKeepsOrders(ledger: seq<TradeLedgerRecord>, log: seq<AuditEventRecord>,
                                              stored: seq<ExchangeOrderReport>,
                                              candidates: seq<ReconciliationCandidate>,
                                              client: Client, ids: nat -> string)
    ensures OrderIds(stored) <= OrderIds(SyncAll(ledger, log, stored, candidates, client, ids).stored)
  {
    if candidates != [] {
      var n := |candidates| - 1;
      SyncAllKeepsOrders(ledger, log, stored, candidates[..n], client, ids);
      var earlier := SyncAll(ledger, log, stored, candidates[..n], client, ids);
      SyncTradeKeepsOrders(ledger, log, earlier.stored, candidates[n].tradeId, client, ids, earlier.asked);
    }
  }

  lemma {:induction false} SyncAllClosesGaps(ledger: seq<TradeLedgerRecord>, log: seq<AuditEventRecord>,
                                             stored: seq<ExchangeOrderReport>, candidates: seq<ReconciliationCandidate>,
                                             client: Client, ids: nat -> string)
    requires Echoes(client)
    requires forall c :: c in candidates ==> Find(ledger, c.tradeId).Some? && Find(ledger, c.tradeId).value.mode == Live
    ensures var done := SyncAll(ledger, log, stored, candidates, client, ids);
            done.outcome.Returned? && forall c :: c in candidates ==> NoGap(log, done.stored, c.tradeId)
  {
    if candidates != [] {
      var n := |candidates| - 1;
      assert candidates == candidates[..n] + [candidates[n]];
      SyncAllClosesGaps(ledger, log, stored, candidates[..n], client, ids);
      var earlier := SyncAll(ledger, log, stored, candidates[..n], client, ids);
      hide SyncTrade, Timeline, OrderIds, Find;
      SyncTradeKeepsOrders(ledger, log, earlier.stored, candidates[n].tradeId, client, ids, earlier.asked);
      SyncTradeClosesGap(ledger, log, earlier.stored, candidates[n].tradeId, client, ids, earlier.asked);
    }
  }

  lemma CandidateSource(ledger: seq<TradeLedgerRecord>, log: seq<AuditEventRecord>, stored: seq<ExchangeOrderReport>,
                        symbol: Option<string>, onlyAttention: bool, c: ReconciliationCandidate)
    returns (r: TradeLedgerRecord)
    requires c in Candidates(ledger, log, stored, symbol, onlyAttention)
    ensures r in ledger && Reconciled(r) && (symbol.Some? ==> r.symbol == symbol.value)
    ensures c == CandidateFor(r, Timeline(log), LatestByOrder(stored))
    ensures onlyAttention ==> c.needsAttention
  {
    var f := ListedCandidate(Timeline(log), LatestByOrder(stored), symbol, onlyAttention);
    CandidateOrder();
    SortSorts(Gather(ledger, f), CandidateGe);
    var i := GatherSource(ledger, f, c);
    r := ledger[i];
  }

  lemma CandidateListed(ledger: seq<TradeLedgerRecord>, log: seq<AuditEventRecord>, stored: seq<ExchangeOrderReport>,
                        r: TradeLedgerRecord, onlyAttention: bool)
    requires r in ledger && Reconciled(r)
    requires onlyAttention ==> CandidateFor(r, Timeline(log), LatestByOrder(stored)).needsAttention
    ensures CandidateFor(r, Timeline(log), LatestByOrder(stored)) in Candidates(ledger, log, stored, None,
                                                                                onlyAttention)
  {
    hide CandidateFor;
    var f := ListedCandidate(Timeline(log), LatestByOrder(stored), None, onlyAttention);
    CandidateOrder();
    SortSorts(Gather(ledger, f), CandidateGe);
    var i :| 0 <= i < |ledger| && ledger[i] == r;
    GatherContains(ledger, f, i);
  }

  /** After an unlimited sync of the candidates that need attention, against a client that
      answers with the orders it was asked about, no candidate misses an order report. */
  lemma SyncClosesEveryGap(ledger: seq<TradeLedgerRecord>, log: seq<AuditEventRecord>, stored: seq<ExchangeOrderReport>,
                           client: Client, ids: nat -> string, symbol: Option<string>, onlyAttention: bool)
    requires UniqueIds(ledger) && Echoes(client)
    ensures var done := SyncAll(ledger, log, stored, Candidates(ledger, log, stored, None, true), client, ids);
            && done.outcome.Returned?
            && forall c :: c in Candidates(ledger, log, done.stored, symbol, onlyAttention) ==> c.missing == []
  {
    hide SyncAll, Candidates, Timeline, LatestByOrder, Find;
    var attention := Candidates(ledger, log, stored, None, true);
    forall c | c in attention
      ensures Find(ledger, c.tradeId).Some? && Find(ledger, c.tradeId).value.mode == Live
    {
      var r := CandidateSource(ledger, log, stored, None, true, c);
      FindUnique(ledger, r);
    }
    SyncAllClosesGaps(ledger, log, stored, attention, client, ids);
    SyncAllKeepsOrders(ledger, log, stored, attention, client, ids);
    var done := SyncAll(ledger, log, stored, attention, client, ids);
    forall c | c in Candidates(ledger, log, done.stored, symbol, onlyAttention) ensures c.missing == [] {
      var r := CandidateSource(ledger, log, done.stored, symbol, onlyAttention, c);
      var before := CandidateFor(r, Timeline(log), LatestByOrder(stored));
      if before.needsAttention {
        CandidateListed(ledger, log, stored, r, true);
      } else {
        NoGapMeansNothingMissing(log, stored, r.tradeId);
      }
      assert NoGap(log, done.stored, r.tradeId);
      NoGapMeansNothingMissing(log, done.stored, r.tradeId);
    }
  }

  // ---- what a sync stores ------------------------------------------------------------------------

  /** Report i is the answer to query i: the exchange's own order id, status and amounts, kept
      for the trade and the leg that was asked about. */
  predicate Reports(report: ExchangeOrderReport, tradeId: string, leg: Leg, answer: OrderAnswer)
  {
    && report.tradeId == Some(tradeId) && report.leg == leg
    && report.orderId == answer.orderId && report.clientOrderId == answer.clientOrderId
    && report.symbol == answer.symbol && report.status == answer.status
    && report.executedQty == answer.executedQty && report.cumQuoteQty == answer.cumQuoteQty
    && report.updatedAt == answer.updatedAt
  }

  lemma {:induction false} FetchedAreTheAnswers(tradeId: string, requests: seq<OrderRequest>, client: Client,
                                                ids: nat -> string, first: nat)
    requires Fetch(tradeId, requests, client, ids, first).Returned?
    ensures var reports := Fetch(tradeId, requests, client, ids, first).value;
            && |reports| == |requests|
            && forall i :: 0 <= i < |requests| ==>
                 && client(first + i, requests[i]).Returned? && reports[i].reportId == ids(first + i)
                 && Reports(reports[i], tradeId, requests[i].leg, client(first + i, requests[i]).value)
  {
    if requests != [] {
      FetchedAreTheAnswers(tradeId, requests[..|requests| - 1], client, ids, first);
    }
  }

  /** A sync of one trade: refused for a trade that is unknown or not live, ended by the first
      query that raises, and then the store is as it was; otherwise the answers are merged in. */
  lemma SyncTradeEndsAs(ledger: seq<TradeLedgerRecord>, log: seq<AuditEventRecord>, stored: seq<ExchangeOrderReport>,
                        tradeId: string, client: Client, ids: nat -> string, first: nat)
    ensures var done := SyncTrade(ledger, log, stored, tradeId, client, ids, first);
            var requests := OrderRequests(Timeline(log), tradeId);
            var known := Find(ledger, tradeId).Some? && Find(ledger, tradeId).value.mode == Live;
            && (!known ==> done.outcome.Raised? && done.outcome.error.ValueError?)
            && (known ==> (done.outcome.Returned? <==> AllAnswered(requests, client, first)))
            && (done.outcome.Raised? ==> done.stored == stored)
            && (done.outcome.Returned? && requests == [] ==> done.stored == stored && done.outcome.value == [])
            && (done.outcome.Returned? && requests != [] ==> done.stored == Upsert(stored, done.outcome.value))
  {
    var requests := OrderRequests(Timeline(log), tradeId);
    FetchReturnsIff(tradeId, requests, client, ids, first);
    hide OrderRequests, Timeline, Fetch, Upsert, AllAnswered;
  }

  /** No query of the trade raises. */
  predicate AllAnswered(requests: seq<OrderRequest>, client: Client, first: nat)
  {
    forall i :: 0 <= i < |requests| ==> client(first + i, requests[i]).Returned?
  }

  lemma {:induction false} FetchReturnsIff(tradeId: string, requests: seq<OrderRequest>, client: Client,
                                           ids: nat -> string, first: nat)
    ensures Fetch(tradeId, requests, client, ids, first).Returned? <==> AllAnswered(requests, client, first)
    ensures requests == [] ==> Fetch(tradeId, requests, client, ids, first) == Returned([])
  {
    if requests != [] {
      var n := |requests| - 1;
      FetchReturnsIff(tradeId, requests[..n], client, ids, first);
      assert forall i :: 0 <= i < n ==> requests[..n][i] == requests[i];
    }
  }

  lemma {:induction false} PutReportInPlace(merged: seq<ExchangeOrderReport>, report: ExchangeOrderReport)
    ensures |merged| <= |PutReport(merged, report)| <= |merged| + 1
    ensures forall i :: 0 <= i < |merged| ==> PutReport(merged, report)[i].orderId == merged[i].orderId
    ensures |PutReport(merged, report)| > |merged| ==> PutReport(merged, report) == merged + [report]
  {
    if merged != [] {
      PutReportInPlace(merged[1..], report);
    }
  }

  /** An upsert leaves the orders of the merged store in their places; new orders go to the
      end. */
  lemma {:induction false} UpsertKeepsPlaces(stored: seq<ExchangeOrderReport>, fetched: seq<ExchangeOrderReport>)
    ensures |MergeReports(stored)| <= |Upsert(stored, fetched)|
    ensures forall i :: 0 <= i < |MergeReports(stored)| ==>
              Upsert(stored, fetched)[i].orderId == MergeReports(stored)[i].orderId
  {
    if fetched == [] {
      assert stored + fetched == stored;
    } else {
      var n := |fetched| - 1;
      UpsertKeepsPlaces(stored, fetched[..n]);
      assert (stored + fetched)[..|stored| + n] == stored + fetched[..n];
      PutReportInPlace(Upsert(stored, fetched[..n]), fetched[n]);
    }
  }

  /** Every query carries the client id, if any, of an event that asks for its order. */
  lemma {:induction false} RequestsCarryClientIds(events: seq<AuditEventRecord>, tradeId: string)
    ensures forall q :: q in OrderRequests(events, tradeId) ==>
              exists e :: e in events && AsksFor(e, tradeId, q.leg, q.orderId)
                          && q.clientOrderId == if e.payload.clientOrderId == None then ""
                                                else e.payload.clientOrderId.value
  {
    hide Writes;
    if events != [] {
      var earlier, e := events[..|events| - 1], events[|events| - 1];
      RequestsCarryClientIds(earlier, tradeId);
      assert events == earlier + [e];
      var id := OrderIdText(e.payload.orderId);
      if id.Some? { OrderIdReads(e.payload.orderId, id.value); }
      hide OrderIdText;
      var before, after := OrderRequests(earlier, tradeId), OrderRequests(events, tradeId);
      if after != before {
        assert forall q :: q in after <==> q in before || q == after[|before|];
        assert AsksFor(e, tradeId, after[|before|].leg, after[|before|].orderId);
      }
    }
  }
}
