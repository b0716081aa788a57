/** Order reports as the exchange gives them, and the store that keeps them. */
module ExchangeReports {
  import opened Options
  import opened Lists
  import opened Ledger
  import opened Audit

  datatype ExchangeOrderReport = ExchangeOrderReport(
    reportId: string,
    orderId: string,
    clientOrderId: Option<string>,
    tradeId: Option<string>,
    symbol: string,
    leg: Leg,
    status: string,
    executedQty: real,
    cumQuoteQty: real,
    updatedAt: Time)

  /** The order of the key `(updated_at, report_id)`. */
  predicate ReportLe(a: ExchangeOrderReport, b: ExchangeOrderReport)
  {
    a.updatedAt < b.updatedAt || (a.updatedAt == b.updatedAt && TextLe(a.reportId, b.reportId))
  }

  lemma ReportOrder()
    ensures TotalPreorder(ReportLe)
  {
    forall x, y ensures ReportLe(x, y) || ReportLe(y, x) {
      TextLeTotal(x.reportId, y.reportId);
    }
    forall x, y, z | ReportLe(x, y) && ReportLe(y, z) ensures ReportLe(x, z) {
      if x.updatedAt == z.updatedAt {
        TextLeTransitive(x.reportId, y.reportId, z.reportId);
      }
    }
  }

  /** `max(reports, key=...)`: the first report with the greatest key. */
  function LatestReport(reports: seq<ExchangeOrderReport>): Option<ExchangeOrderReport>
  {
    if reports == [] then None
    else
      var earlier := LatestReport(reports[..|reports| - 1]);
      var last := reports[|reports| - 1];
      if earlier.Some? && ReportLe(last, earlier.value) then earlier else Some(last)
  }

  lemma {:induction false} LatestReportIsMaximal(reports: seq<ExchangeOrderReport>)
    ensures LatestReport(reports).None? <==> reports == []
    ensures LatestReport(reports).Some? ==>
              && LatestReport(reports).value in reports
              && forall r :: r in reports ==> ReportLe(r, LatestReport(reports).value)
  {
    ReportOrder();
    if reports != [] {
      var earlier, last := reports[..|reports| - 1], reports[|reports| - 1];
      LatestReportIsMaximal(earlier);
      assert reports == earlier + [last];
      assert ReportLe(last, last);
      forall r | r in reports ensures ReportLe(r, LatestReport(reports).value) {
        assert r in earlier || r == last;
      }
    }
  }

  predicate PricesPerp(r: ExchangeOrderReport, tradeId: string)
  {
    r.tradeId == Some(tradeId) && r.leg == PerpLeg && r.executedQty > 0.0 && r.cumQuoteQty > 0.0
  }

  function PerpReports(tradeId: string): ExchangeOrderReport -> bool
  {
    (r: ExchangeOrderReport) => PricesPerp(r, tradeId)
  }

  /** The average price of the latest executed perp order of a trade. */
  function ReferencePrice(reports: seq<ExchangeOrderReport>, tradeId: string): (price: Option<real>)
    ensures price.Some? ==> price.value > 0.0
  {
    var latest := LatestReport(Filter(reports, PerpReports(tradeId)));
    LatestReportIsMaximal(Filter(reports, PerpReports(tradeId)));
    FilterMembers(reports, PerpReports(tradeId));
    if latest.None? then None else Some(latest.value.cumQuoteQty / latest.value.executedQty)
  }

  /** The newest of the trade's executed perp reports, by time and then by report id. */
  predicate IsNewestPerp(reports: seq<ExchangeOrderReport>, tradeId: string, r: ExchangeOrderReport)
  {
    && r in reports && r.tradeId == Some(tradeId) && r.leg == PerpLeg && r.executedQty > 0.0 && r.cumQuoteQty > 0.0
    && forall q :: q in reports && q.tradeId == Some(tradeId) && q.leg == PerpLeg ==>
         q.executedQty <= 0.0 || q.cumQuoteQty <= 0.0 || ReportLe(q, r)
  }

  lemma LatestPerpIsNewest(reports: seq<ExchangeOrderReport>, tradeId: string)
    ensures var latest := LatestReport(Filter(reports, PerpReports(tradeId)));
            && (latest.Some? <==> exists r :: r in reports && PricesPerp(r, tradeId))
            && (latest.Some? ==> IsNewestPerp(reports, tradeId, latest.value) && latest.value.executedQty > 0.0)
  {
    var matching := Filter(reports, PerpReports(tradeId));
    LatestReportIsMaximal(matching);
    FilterMembers(reports, PerpReports(tradeId));
    hide LatestReport, Filter, ReportLe;
    if r :| r in reports && PricesPerp(r, tradeId) {
      assert r in matching;
    }
    if matching != [] {
      forall q | q in reports && PricesPerp(q, tradeId) ensures ReportLe(q, LatestReport(matching).value) {
        assert q in matching;
      }
    }
  }

  /** There is a price exactly when the trade has an executed perp report, and times the
      quantity executed in the newest of them it is what that report says was paid. */
  lemma ReferencePriceMeans(reports: seq<ExchangeOrderReport>, tradeId: string)
    ensures var price := ReferencePrice(reports, tradeId);
            && (price.Some? <==> exists r :: r in reports && PricesPerp(r, tradeId))
            && (price.Some? ==> exists r :: IsNewestPerp(reports, tradeId, r)
                                            && price.value * r.executedQty == r.cumQuoteQty)
  {
    LatestPerpIsNewest(reports, tradeId);
    hide LatestReport, Filter, IsNewestPerp, PricesPerp;
    var latest := LatestReport(Filter(reports, PerpReports(tradeId)));
    if latest.Some? {
      Quotient(latest.value.cumQuoteQty, latest.value.executedQty);
    }
  }

  lemma Quotient(x: real, y: real)
    requires y > 0.0
    ensures x / y * y == x
  {
  }

  class ExchangeOrderReportStore {
    var reports: seq<ExchangeOrderReport>

    constructor (initial: seq<ExchangeOrderReport>)
      ensures reports == initial
    {
      reports := initial;
    }

    method InferLatestPerpReferencePrice(tradeId: string) returns (price: Option<real>)
      ensures price == ReferencePrice(reports, tradeId)
      ensures price.Some? <==> exists r :: r in reports && PricesPerp(r, tradeId)
    {
      var matching := Filter(reports, PerpReports(tradeId));
      FilterMembers(reports, PerpReports(tradeId));
      LatestReportIsMaximal(matching);
      if |matching| == 0 {
        return None;
      }
      var latest := matching[0];
      var i := 1;
      assert matching[..1][..0] == [];
      while i < |matching|
        invariant 1 <= i <= |matching|
        invariant LatestReport(matching[..i]) == Some(latest)
        invariant latest in matching
      {
        if !ReportLe(matching[i], latest) {
          latest := matching[i];
        }
        i := i + 1;
        assert matching[..i][..i - 1] == matching[..i - 1];
      }
      assert matching[..|matching|] == matching;
      assert latest in reports && PricesPerp(latest, tradeId);
      return Some(latest.cumQuoteQty / latest.executedQty);
    }
  }
}
