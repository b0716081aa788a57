/** The order of the planners' lists: what comes first, and what may not come before it. */
module Listings {
  import opened Options
  import opened Lists
  import opened Decimals
  import opened Ledger
  import opened Audit
  import opened ExchangeReports
  import opened Reconciliation
  import Recovery
  import Hedge
  import Compensation

  /** Strings are compared at their first difference; a prefix comes before what it begins. */
  lemma {:induction false} TextLeAtFirstDifference(a: string, b: string)
    ensures TextLe(a, b) <==> a <= b || exists k :: DifferAt(a, b, k) && a[k] < b[k]
  {
    if a != "" && b != "" && a[0] == b[0] {
      TextLeAtFirstDifference(a[1..], b[1..]);
      if k :| DifferAt(a, b, k) && a[k] < b[k] {
        assert DifferAt(a[1..], b[1..], k - 1);
      }
      if k :| DifferAt(a[1..], b[1..], k) && a[1..][k] < b[1..][k] {
        assert DifferAt(a, b, k + 1);
      }
      assert a == [a[0]] + a[1..] && b == [b[0]] + b[1..];
    } else if a != "" && b != "" {
      assert a[0] < b[0] ==> DifferAt(a, b, 0);
    }
  }

  predicate DifferAt(a: string, b: string, k: int)
  {
    0 <= k < |a| && k < |b| && a[k] != b[k] && forall m :: 0 <= m < k ==> a[m] == b[m]
  }

  // ---- reconciliation candidates ------------------------------------------------------------

  /** Trades that need attention first, then the latest activity, then the greater id. */
  lemma CandidatesInOrder(ledger: seq<TradeLedgerRecord>, log: seq<AuditEventRecord>,
                          reports: seq<ExchangeOrderReport>, symbol: Option<string>, onlyAttention: bool)
    ensures var listed := Candidates(ledger, log, reports, symbol, onlyAttention);
            forall i, j :: 0 <= i < j < |listed| ==>
              && (listed[j].needsAttention ==> listed[i].needsAttention)
              && (listed[i].needsAttention == listed[j].needsAttention
                  && listed[i].latestEventAt.Some? && listed[j].latestEventAt.Some? ==>
                    && listed[i].latestEventAt.value >= listed[j].latestEventAt.value
                    && (listed[i].latestEventAt == listed[j].latestEventAt ==>
                        TextLe(listed[j].tradeId, listed[i].tradeId)))
  {
    hide CandidateFor, Timeline, LatestByOrder;
    CandidateOrder();
    SortSorts(Gather(ledger, ListedCandidate(Timeline(log), LatestByOrder(reports), symbol, onlyAttention)),
              CandidateGe);
  }

  /** The activity a candidate shows is the latest event of the trade, and the latest update of
      its reported orders. */
  lemma CandidateTimes(r: TradeLedgerRecord, events: seq<AuditEventRecord>, index: ReportIndex)
    ensures var c := CandidateFor(r, events, index);
            && (c.latestEventAt.None? <==> forall e :: e in events ==> e.payload.tradeId != Some(r.tradeId))
            && (c.latestEventAt.Some? ==>
                  && (exists e :: e in events && e.payload.tradeId == Some(r.tradeId)
                                  && e.occurredAt == c.latestEventAt.value)
                  && forall e :: e in events && e.payload.tradeId == Some(r.tradeId) ==>
                       e.occurredAt <= c.latestEventAt.value)
            && (c.latestReportAt.None? <==> forall id :: id in ExpectedOrders(events, r.tradeId) ==> id !in index)
            && (c.latestReportAt.Some? ==>
                  && (exists id :: id in ExpectedOrders(events, r.tradeId) && id in index
                                   && index[id].updatedAt == c.latestReportAt.value)
                  && forall id :: id in ExpectedOrders(events, r.tradeId) && id in index ==>
                       index[id].updatedAt <= c.latestReportAt.value)
  {
    hide ExpectedOrders, SuggestAction, IsStatusMismatch, Missing, Statuses;
    LatestEventAtIsMaximal(events, r.tradeId);
    var expected := ExpectedOrders(events, r.tradeId);
    var available := Available(expected, index);
    NewestUpdateIsMaximal(available);
    forall id | id in expected && id in index ensures index[id] in available {
      var i :| 0 <= i < |expected| && expected[i] == id;
      GatherContains(expected, Reported(index), i);
    }
    forall report | report in available ensures exists id :: id in expected && id in index && index[id] == report {
      var i := GatherSource(expected, Reported(index), report);
      assert expected[i] in expected;
    }
  }

  lemma {:induction false} LatestEventAtIsMaximal(events: seq<AuditEventRecord>, tradeId: string)
    ensures var at := LatestEventAt(events, tradeId);
            && (at.None? <==> forall e :: e in events ==> e.payload.tradeId != Some(tradeId))
            && (at.Some? ==>
                  && (exists e :: e in events && e.payload.tradeId == Some(tradeId) && e.occurredAt == at.value)
                  && forall e :: e in events && e.payload.tradeId == Some(tradeId) ==> e.occurredAt <= at.value)
  {
    if events != [] {
      var earlier, last := events[..|events| - 1], events[|events| - 1];
      LatestEventAtIsMaximal(earlier, tradeId);
      assert events == earlier + [last];
      assert forall e :: e in events <==> e in earlier || e == last;
    }
  }

  lemma {:induction false} NewestUpdateIsMaximal(reports: seq<ExchangeOrderReport>)
    ensures var at := NewestUpdate(reports);
            && (at.None? <==> reports == [])
            && (at.Some? ==>
                  && (exists r :: r in reports && r.updatedAt == at.value)
                  && forall r :: r in reports ==> r.updatedAt <= at.value)
  {
    if reports != [] {
      var earlier, last := reports[..|reports| - 1], reports[|reports| - 1];
      NewestUpdateIsMaximal(earlier);
      assert reports == earlier + [last];
      assert forall r :: r in reports <==> r in earlier || r == last;
    }
  }

  // ---- recovery plans -------------------------------------------------------------------------

  /** Automatic plans first, among them paper trades first, then by trade id. */
  lemma RecoveryPlansInOrder(ledger: seq<TradeLedgerRecord>, log: seq<AuditEventRecord>,
                             reports: seq<ExchangeOrderReport>, symbol: Option<string>, onlyActionable: bool)
    ensures var plans := Recovery.Plans(ledger, log, reports, symbol, onlyActionable);
            forall i, j :: 0 <= i < j < |plans| ==>
              && (plans[j].autoExecutable ==> plans[i].autoExecutable)
              && (plans[i].autoExecutable == plans[j].autoExecutable ==>
                    && (plans[j].mode == Paper ==> plans[i].mode == Paper)
                    && (plans[i].mode == plans[j].mode ==> TextLe(plans[i].tradeId, plans[j].tradeId)))
  {
    hide Recovery.PlanOf, Timeline, Candidates;
    Recovery.RecoveryOrder();
    SortSorts(Gather(ledger, Recovery.ListedPlan(Timeline(log), Candidates(ledger, log, reports, None, false), symbol,
                                                 onlyActionable)),
              Recovery.RecoveryLe);
  }

  // ---- hedge plans ------------------------------------------------------------------------------

  /** The largest exposure first, then the greater id. */
  lemma HedgePlansInOrder(ledger: seq<TradeLedgerRecord>, symbol: Option<string>, limitBps: real)
    ensures var plans := Hedge.CandidatePlans(ledger, symbol, limitBps);
            forall i, j :: 0 <= i < j < |plans| ==>
              && plans[i].exposureBps >= plans[j].exposureBps
              && (plans[i].exposureBps == plans[j].exposureBps ==> TextLe(plans[j].tradeId, plans[i].tradeId))
  {
    hide Hedge.PlanFor;
    Hedge.PlanOrder();
    SortSorts(Gather(ledger, Hedge.ListedPlan(ledger, symbol, limitBps)), Hedge.PlanGe);
  }

  /** What a hedge plan says: trades to recover and trades under way are left alone; a hedged,
      closed or cancelled trade over the limit is to be rebalanced, up when it is short of its
      spot leg and down when it is not, by its exposure to the nearest unit. */
  lemma HedgePlanMeans(r: TradeLedgerRecord, limitBps: real)
    ensures var p := Hedge.PlanFor(r, limitBps);
            var over := r.status in {Hedged, Closed, Cancelled} && p.exposureBps > limitBps;
            && p.tradeId == r.tradeId && p.symbol == r.symbol && p.status == r.status
            && p.netExposure == r.netExposure && p.exposureLimitBps == limitBps
            && (p.action == Hedge.RecoverTrade <==> r.status in {Failed, RecoveryPending})
            && (p.action == Hedge.MonitorOnly <==> r.status in {Candidate, Open, Closing})
            && (p.action == Hedge.IncreasePerpHedge <==> over && r.netExposure > 0.0)
            && (p.action == Hedge.ReducePerpHedge <==> over && r.netExposure <= 0.0)
            && (p.health == Hedge.RecoveryNeeded <==> p.action == Hedge.RecoverTrade)
            && (p.health == Hedge.Monitoring <==> p.action == Hedge.MonitorOnly)
            && (p.health == Hedge.RebalanceNeeded <==> Hedge.WantsRebalance(p))
            && (over ==> -0.00005 <= p.suggestedDelta - r.netExposure <= 0.00005)
            && (!over ==> p.suggestedDelta == 0.0)
  {
    Round4Error(r.netExposure);
    hide Round4, Hedge.ExposureBps;
    match r.status { case Candidate => case Open => case Hedged => case Closing => case Closed => case Failed =>
      case RecoveryPending => case Cancelled => }
  }

  /** The exposure of a plan: basis points of the larger leg, of at least one, to the nearest
      hundredth. */
  lemma ExposureIsAccurate(r: TradeLedgerRecord, limitBps: real) returns (base: real)
    ensures base >= 1.0 && base >= r.spotNotional && base >= r.perpNotional
    ensures base == 1.0 || base == r.spotNotional || base == r.perpNotional
    ensures var size := if r.netExposure >= 0.0 then r.netExposure else -r.netExposure;
            -0.005 <= Hedge.PlanFor(r, limitBps).exposureBps - size / base * 10000.0 <= 0.005
  {
    base := Max(Max(r.spotNotional, r.perpNotional), 1.0);
    var exact := Abs(r.netExposure) / base * 10000.0;
    RoundHalfEvenCorrect(exact * 100.0, RoundHalfEven(exact * 100.0));
    assert Hedge.PlanFor(r, limitBps).exposureBps == Hedge.ExposureBps(r) == Round2(exact);
  }

  /** A trade is in the queue exactly when its exposure exceeds the limit and it is hedged and
      of the symbol asked for. */
  lemma HedgeListedIff(ledger: seq<TradeLedgerRecord>, symbol: Option<string>, limitBps: real, r: TradeLedgerRecord)
    requires UniqueIds(ledger) && r in ledger
    ensures (exists p :: p in Hedge.CandidatePlans(ledger, symbol, limitBps) && p.tradeId == r.tradeId) <==>
              && r.status == Hedged && Hedge.PlanFor(r, limitBps).exposureBps > limitBps
              && (symbol == None || symbol == Some(r.symbol))
  {
    HedgePlanMeans(r, limitBps);
    hide Hedge.PlanFor, Find;
    var f := Hedge.ListedPlan(ledger, symbol, limitBps);
    Hedge.PlanOrder();
    SortSorts(Gather(ledger, f), Hedge.PlanGe);
    FindUnique(ledger, r);
    var plans := Hedge.CandidatePlans(ledger, symbol, limitBps);
    if p :| p in plans && p.tradeId == r.tradeId {
      var i := GatherSource(ledger, f, p);
      FindUnique(ledger, ledger[i]);
      HedgePlanMeans(ledger[i], limitBps);
    }
    if f(r).Some? {
      var i :| 0 <= i < |ledger| && ledger[i] == r;
      GatherContains(ledger, f, i);
    }
  }

  // ---- compensation plans --------------------------------------------------------------------------

  /** Critical plans before high ones before medium before low, then by trade id. */
  lemma CompensationPlansInOrder(ledger: seq<TradeLedgerRecord>, log: seq<AuditEventRecord>,
                                 reports: seq<ExchangeOrderReport>, symbol: Option<string>, onlyActionable: bool,
                                 limitBps: real)
    ensures var plans := Compensation.Plans(ledger, log, reports, symbol, onlyActionable, limitBps);
            forall i, j :: 0 <= i < j < |plans| ==>
              && (plans[j].priority == Compensation.Critical ==> plans[i].priority == Compensation.Critical)
              && (plans[j].priority == Compensation.High ==>
                    plans[i].priority in {Compensation.Critical, Compensation.High})
              && (plans[i].priority == Compensation.Low ==> plans[j].priority == Compensation.Low)
              && (plans[i].priority == plans[j].priority ==> TextLe(plans[i].tradeId, plans[j].tradeId))
  {
    hide Compensation.PlanOf, Candidates, Recovery.Plans;
    Compensation.CompensationOrder();
    SortSorts(Gather(ledger, Compensation.ListedPlan(ledger, Candidates(ledger, log, reports, symbol, false),
                                                     Recovery.Plans(ledger, log, reports, symbol, false), symbol,
                                                     onlyActionable, limitBps)),
              Compensation.CompensationLe);
  }
}
