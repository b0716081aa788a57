/** The summary and the candidate list read the same records in two ways and agree. */
module ReconciliationAgreement {
  import opened Options
  import opened Lists
  import opened Ledger
  import opened Audit
  import opened ExchangeReports
  import opened Reconciliation
  import opened ReportSync

  /** Every issue is counted under exactly one of the two kinds. */
  lemma {:induction false} KindsPartitionIssues(issues: seq<ReconciliationIssue>)
    ensures CountKind(issues, MissingExchangeReport) + CountKind(issues, StatusMismatch) == |issues|
  {
    if issues != [] {
      KindsPartitionIssues(issues[..|issues| - 1]);
    }
  }

  /** An issue is in the list exactly when some record has it. */
  lemma {:induction false} IssuesComeFromRecords(records: seq<TradeLedgerRecord>, events: seq<AuditEventRecord>,
                                                 index: ReportIndex, issue: ReconciliationIssue)
    ensures issue in IssuesOf(records, events, index)
       <==> exists r :: r in records && issue in TradeIssues(r, ExpectedOrders(events, r.tradeId), index)
  {
    hide TradeIssues, ExpectedOrders;
    if records != [] {
      var earlier, last := records[..|records| - 1], records[|records| - 1];
      IssuesComeFromRecords(earlier, events, index, issue);
      assert forall r :: r in records <==> r in earlier || r == last by {
        assert records == earlier + [last];
      }
    }
  }

  /** The issues a candidate's own fields imply. */
  function IssuesImplied(c: ReconciliationCandidate): seq<ReconciliationIssue>
  {
    (if c.missing != [] then
       [ReconciliationIssue(c.tradeId, c.symbol, c.localStatus, MissingExchangeReport, c.missing, [], InspectExchange)]
     else [])
    + (if c.reported != [] && IsStatusMismatch(c.localStatus, c.exchangeStatuses) then
         [ReconciliationIssue(c.tradeId, c.symbol, c.localStatus, StatusMismatch, [], c.exchangeStatuses,
                              SuggestAction(c.localStatus, c.exchangeStatuses))]
       else [])
  }

  /** The two paths look at a record through the same conditions. */
  lemma IssuesMeanAttention(r: TradeLedgerRecord, events: seq<AuditEventRecord>, index: ReportIndex)
    ensures var issues := TradeIssues(r, ExpectedOrders(events, r.tradeId), index);
            var c := CandidateFor(r, events, index);
            && (issues != [] <==> c.needsAttention)
            && (forall i :: i in issues ==> i.tradeId == r.tradeId)
            && issues == IssuesImplied(c)
  {
    hide IsStatusMismatch, SuggestAction, ExpectedOrders, Available, Missing;
  }

  /** The trades with issues are the trades of records that need attention. */
  lemma IssueTradesAre(records: seq<TradeLedgerRecord>, events: seq<AuditEventRecord>, index: ReportIndex, id: string)
    ensures id in IssueTrades(IssuesOf(records, events, index))
       <==> exists r :: r in records && r.tradeId == id && CandidateFor(r, events, index).needsAttention
  {
    hide CandidateFor, TradeIssues, IssuesOf;
    if id in IssueTrades(IssuesOf(records, events, index)) {
      var issue :| issue in IssuesOf(records, events, index) && issue.tradeId == id;
      IssuesComeFromRecords(records, events, index, issue);
      var r :| r in records && issue in TradeIssues(r, ExpectedOrders(events, r.tradeId), index);
      IssuesMeanAttention(r, events, index);
    }
    if r :| r in records && r.tradeId == id && CandidateFor(r, events, index).needsAttention {
      IssuesMeanAttention(r, events, index);
      var issue := TradeIssues(r, ExpectedOrders(events, r.tradeId), index)[0];
      IssuesComeFromRecords(records, events, index, issue);
    }
  }

  function NeedsAttention(): ReconciliationCandidate -> bool
  {
    (c: ReconciliationCandidate) => c.needsAttention
  }

  function TradeOf(): ReconciliationCandidate -> string
  {
    (c: ReconciliationCandidate) => c.tradeId
  }

  /** Asking for attention only is filtering the full list. */
  lemma AttentionIsAFilter(ledger: seq<TradeLedgerRecord>, log: seq<AuditEventRecord>,
                           reports: seq<ExchangeOrderReport>, symbol: Option<string>)
    ensures Candidates(ledger, log, reports, symbol, true)
         == Filter(Candidates(ledger, log, reports, symbol, false), NeedsAttention())
  {
    hide CandidateFor, Timeline, LatestByOrder;
    var events, index := Timeline(log), LatestByOrder(reports);
    var all := ListedCandidate(events, index, symbol, false);
    CandidateOrder();
    SortFilter(Gather(ledger, all), CandidateGe, NeedsAttention());
    FilterGathered(ledger, all, NeedsAttention(), ListedCandidate(events, index, symbol, true));
  }

  lemma CandidatesDoNotRepeat(ledger: seq<TradeLedgerRecord>, log: seq<AuditEventRecord>,
                              reports: seq<ExchangeOrderReport>, symbol: Option<string>, onlyAttention: bool)
    requires UniqueIds(ledger)
    ensures NoRepeats(Candidates(ledger, log, reports, symbol, onlyAttention))
  {
    hide Timeline, LatestByOrder;
    var f := ListedCandidate(Timeline(log), LatestByOrder(reports), symbol, onlyAttention);
    forall r | r in ledger ensures f(r).Some? ==> f(r).value.tradeId == r.tradeId {
    }
    hide CandidateFor;
    GatherNoRepeats(ledger, f);
    CandidateOrder();
    SortKeepsNoRepeats(Gather(ledger, f), CandidateGe);
  }

  /** With unique trade ids the candidates are of distinct trades. */
  lemma CandidateIdsAreDistinct(ledger: seq<TradeLedgerRecord>, log: seq<AuditEventRecord>,
                                reports: seq<ExchangeOrderReport>, symbol: Option<string>, onlyAttention: bool)
    requires UniqueIds(ledger)
    ensures NoRepeats(Map(Candidates(ledger, log, reports, symbol, onlyAttention), TradeOf()))
  {
    hide Timeline, LatestByOrder, Candidates, CandidateFor, Find;
    CandidatesDoNotRepeat(ledger, log, reports, symbol, onlyAttention);
    var listed := Candidates(ledger, log, reports, symbol, onlyAttention);
    forall i, j | 0 <= i < j < |listed| ensures listed[i].tradeId != listed[j].tradeId {
      var a := CandidateSource(ledger, log, reports, symbol, onlyAttention, listed[i]);
      var b := CandidateSource(ledger, log, reports, symbol, onlyAttention, listed[j]);
      CandidateNames(a, Timeline(log), LatestByOrder(reports));
      CandidateNames(b, Timeline(log), LatestByOrder(reports));
      FindUnique(ledger, a);
      FindUnique(ledger, b);
    }
  }

  function RecordTrade(): TradeLedgerRecord -> string
  {
    (r: TradeLedgerRecord) => r.tradeId
  }

  /** The clamp on the matched count never acts, whatever the ledger holds. */
  lemma MatchedIsNeverClamped(ledger: seq<TradeLedgerRecord>, log: seq<AuditEventRecord>,
                              reports: seq<ExchangeOrderReport>)
    ensures var s := Summary(ledger, log, reports);
            s.matched == s.compared - |IssueTrades(s.issues)| && s.missingCount + s.mismatchCount == s.issueCount
  {
    hide Timeline, LatestByOrder, IssuesOf, CandidateFor;
    var records := Filter(ledger, Reconciled);
    var issues := IssuesOf(records, Timeline(log), LatestByOrder(reports));
    KindsPartitionIssues(issues);
    var ids := Map(records, RecordTrade());
    forall id | id in IssueTrades(issues) ensures id in ids {
      IssueTradesAre(records, Timeline(log), LatestByOrder(reports), id);
      var r :| r in records && r.tradeId == id;
      var i :| 0 <= i < |records| && records[i] == r;
      assert ids[i] == id;
    }
    NoRepeatsSize(ids);
    SubsetSize(IssueTrades(issues), set id | id in ids);
  }

  lemma {:induction false} SubsetSize<T>(a: set<T>, b: set<T>)
    requires a <= b
    ensures |a| <= |b|
  {
    if a != {} {
      var x :| x in a;
      SubsetSize(a - {x}, b - {x});
    }
  }

  lemma IssueTradesAreAttentionTrades(ledger: seq<TradeLedgerRecord>, log: seq<AuditEventRecord>,
                                      reports: seq<ExchangeOrderReport>)
    ensures IssueTrades(Summary(ledger, log, reports).issues)
         == set c | c in Candidates(ledger, log, reports, None, true) :: c.tradeId
  {
    hide Timeline, LatestByOrder, IssuesOf, CandidateFor, Candidates;
    var records := Filter(ledger, Reconciled);
    FilterMembers(ledger, Reconciled);
    var issues := IssuesOf(records, Timeline(log), LatestByOrder(reports));
    var attention := Candidates(ledger, log, reports, None, true);
    assert Summary(ledger, log, reports).issues == issues;
    forall id ensures id in IssueTrades(issues) <==> exists c :: c in attention && c.tradeId == id {
      IssueTradesAre(records, Timeline(log), LatestByOrder(reports), id);
      if id in IssueTrades(issues) {
        var r :| r in records && r.tradeId == id
                && CandidateFor(r, Timeline(log), LatestByOrder(reports)).needsAttention;
        CandidateListed(ledger, log, reports, r, true);
        CandidateNames(r, Timeline(log), LatestByOrder(reports));
      }
      if c :| c in attention && c.tradeId == id {
        var r := CandidateSource(ledger, log, reports, None, true, c);
        CandidateNames(r, Timeline(log), LatestByOrder(reports));
      }
    }
  }

  lemma CandidateNames(r: TradeLedgerRecord, events: seq<AuditEventRecord>, index: ReportIndex)
    ensures CandidateFor(r, events, index).tradeId == r.tradeId
  {
  }

  /** With unique trade ids the summary and the candidate list agree: same trades compared,
      the trades with issues are the candidates that need attention, the rest is matched,
      and each kind of issue says what the candidate's own fields say. */
  lemma TwoPathsAgree(ledger: seq<TradeLedgerRecord>, log: seq<AuditEventRecord>, reports: seq<ExchangeOrderReport>)
    requires UniqueIds(ledger)
    ensures var s := Summary(ledger, log, reports);
            var all, attention := Candidates(ledger, log, reports, None, false),
                    Candidates(ledger, log, reports, None, true);
            && s.compared == |all|
            && attention == Filter(all, NeedsAttention())
            && IssueTrades(s.issues) == (set c | c in attention :: c.tradeId)
            && s.matched == s.compared - |attention|
  {
    IssueTradesAreAttentionTrades(ledger, log, reports);
    AttentionIsAFilter(ledger, log, reports, None);
    MatchedIsNeverClamped(ledger, log, reports);
    CandidateIdsAreDistinct(ledger, log, reports, None, true);
    EveryReconciledTradeIsListed(ledger, log, reports);
    hide Summary, Candidates;
    var attention := Candidates(ledger, log, reports, None, true);
    var ids := Map(attention, TradeOf());
    NoRepeatsSize(ids);
    forall id ensures id in ids <==> exists c :: c in attention && c.tradeId == id {
      if c :| c in attention && c.tradeId == id {
        var i :| 0 <= i < |attention| && attention[i] == c;
        assert ids[i] == id;
      }
    }
    assert (set id | id in ids) == set c | c in attention :: c.tradeId;
  }

  lemma EveryReconciledTradeIsListed(ledger: seq<TradeLedgerRecord>, log: seq<AuditEventRecord>,
                                     reports: seq<ExchangeOrderReport>)
    ensures Summary(ledger, log, reports).compared == |Candidates(ledger, log, reports, None, false)|
  {
    hide CandidateFor, Timeline, LatestByOrder, IssuesOf;
    var f := ListedCandidate(Timeline(log), LatestByOrder(reports), None, false);
    GatherLength(ledger, f, Reconciled);
    CandidateOrder();
    SortSorts(Gather(ledger, f), CandidateGe);
  }

  /** The summary's issues of a trade are exactly those its candidate's fields imply. */
  lemma IssuesMatchCandidateFields(ledger: seq<TradeLedgerRecord>, log: seq<AuditEventRecord>,
                                   reports: seq<ExchangeOrderReport>, c: ReconciliationCandidate,
                                   issue: ReconciliationIssue)
    requires UniqueIds(ledger) && c in Candidates(ledger, log, reports, None, false) && issue.tradeId == c.tradeId
    ensures issue in Summary(ledger, log, reports).issues <==> issue in IssuesImplied(c)
  {
    hide Timeline, LatestByOrder, IssuesOf, Candidates, TradeIssues, IssuesImplied, ExpectedOrders;
    var events, index := Timeline(log), LatestByOrder(reports);
    var records := Filter(ledger, Reconciled);
    FilterMembers(ledger, Reconciled);
    var r := CandidateSource(ledger, log, reports, None, false, c);
    CandidateNames(r, events, index);
    IssuesMeanAttention(r, events, index);
    hide CandidateFor;
    IssuesComeFromRecords(records, events, index, issue);
    if other :| other in records && issue in TradeIssues(other, ExpectedOrders(events, other.tradeId), index) {
      IssuesMeanAttention(other, events, index);
      FindUnique(ledger, other);
      FindUnique(ledger, r);
    }
  }

  lemma {:induction false} CountIsNumber(issues: seq<ReconciliationIssue>, kind: IssueKind)
    ensures CountKind(issues, kind) == |set i | 0 <= i < |issues| && issues[i].kind == kind|
  {
    if issues != [] {
      var n := |issues| - 1;
      CountIsNumber(issues[..n], kind);
      assert (set i | 0 <= i < |issues| && issues[i].kind == kind)
          == (set i | 0 <= i < n && issues[..n][i].kind == kind) + if issues[n].kind == kind then {n} else {};
    }
  }

  /** The summary counts its own issues. */
  lemma SummaryCounts(ledger: seq<TradeLedgerRecord>, log: seq<AuditEventRecord>, reports: seq<ExchangeOrderReport>)
    ensures var s := Summary(ledger, log, reports);
            && s.issueCount == |s.issues|
            && s.missingCount == |set i | 0 <= i < |s.issues| && s.issues[i].kind == MissingExchangeReport|
            && s.mismatchCount == |set i | 0 <= i < |s.issues| && s.issues[i].kind == StatusMismatch|
  {
    hide IssuesOf;
    var issues := Summary(ledger, log, reports).issues;
    CountIsNumber(issues, MissingExchangeReport);
    CountIsNumber(issues, StatusMismatch);
  }
}
