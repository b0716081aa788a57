/** When a trade needs attention, said of the texts the exchange reports for its orders. */
module AttentionMeaning {
  import opened Options
  import opened Lists
  import opened Ledger
  import opened Audit
  import opened ExchangeReports
  import opened Reconciliation
  import opened ReportSync
  import opened ReconciliationAgreement
  import opened RecoveryDrain

  // ---- what a status text says ------------------------------------------------------------

  predicate Blank(text: string, from: nat, to: nat)
    requires to <= |text|
  {
    forall k :: from <= k < to ==> IsBlank(text[k])
  }

  /** The text is the word in any case, between blanks. */
  predicate Reads(text: string, word: string)
  {
    exists i, j :: 0 <= i <= j <= |text| && ReadsAt(text, word, i, j)
  }

  predicate ReadsAt(text: string, word: string, i: nat, j: nat)
    requires i <= j <= |text|
  {
    Blank(text, 0, i) && Spells(text[i..j], word) && Blank(text, j, |text|)
  }

  predicate Trimmed(text: string)
  {
    text != "" ==> !IsBlank(text[0]) && !IsBlank(text[|text| - 1])
  }

  /** Stripping cuts blanks, and nothing but blanks, off both ends. */
  lemma {:induction false} StripCuts(text: string) returns (i: nat, j: nat)
    ensures i <= j <= |text| && Strip(text) == text[i..j]
    ensures Blank(text, 0, i) && Blank(text, j, |text|) && Trimmed(Strip(text))
  {
    if text == "" {
      i, j := 0, 0;
    } else if IsBlank(text[0]) {
      var a, b := StripCuts(text[1..]);
      i, j := a + 1, b + 1;
      assert text[i..j] == text[1..][a..b];
      forall k | 0 <= k < i || j <= k < |text| ensures IsBlank(text[k]) {
        assert k == 0 || text[k] == text[1..][k - 1];
      }
    } else if IsBlank(text[|text| - 1]) {
      var n := |text| - 1;
      var a, b := StripCuts(text[..n]);
      i, j := a, b;
      assert text[i..j] == text[..n][a..b];
      forall k | 0 <= k < i || j <= k < |text| ensures IsBlank(text[k]) {
        assert k == n || text[k] == text[..n][k];
      }
    } else {
      i, j := 0, |text|;
      assert text[0..|text|] == text;
    }
  }

  lemma StripReads(text: string, word: string)
    requires word != "" && Capital(word)
    ensures Spells(Strip(text), word) <==> Reads(text, word)
  {
    var a, b := StripCuts(text);
    assert Strip(text) != "" ==> Strip(text)[0] == text[a] && Strip(text)[b - a - 1] == text[b - 1];
    if i, j :| 0 <= i <= j <= |text| && ReadsAt(text, word, i, j) {
      assert text[i..j][0] == text[i] && text[i..j][j - i - 1] == text[j - 1];
      assert a <= i < j <= b && i <= a && b <= j;
    }
    if Spells(Strip(text), word) {
      assert ReadsAt(text, word, a, b);
    }
  }

  /** What the exchange's status texts mean: case and surrounding blanks do not matter, and
      canceled, expired and rejected orders have failed. */
  lemma StatusTextsMean(text: string)
    ensures Normalize(text) == NormalFilled <==> Reads(text, "FILLED")
    ensures Normalize(text) == NormalPartial <==> Reads(text, "PARTIALLY_FILLED")
    ensures Normalize(text) == NormalSubmitted <==> Reads(text, "NEW") || Reads(text, "PENDING_NEW")
    ensures Normalize(text) == NormalFailed
       <==> Reads(text, "CANCELED") || Reads(text, "EXPIRED") || Reads(text, "REJECTED")
  {
    TextReads(text, "FILLED");
    TextReads(text, "PARTIALLY_FILLED");
    TextReads(text, "NEW");
    TextReads(text, "PENDING_NEW");
    TextReads(text, "CANCELED");
    TextReads(text, "EXPIRED");
    TextReads(text, "REJECTED");
    hide Upper, Lower, Strip, Reads;
  }

  lemma TextReads(text: string, word: string)
    requires word != "" && Capital(word)
    ensures Upper(Strip(text)) == word <==> Reads(text, word)
  {
    CaseDoesNotMatter(Strip(text), word);
    StripReads(text, word);
  }

  // ---- when a trade needs attention ------------------------------------------------------------

  predicate ReportedFilled(index: ReportIndex, orderId: string)
  {
    orderId in index && Reads(index[orderId].status, "FILLED")
  }

  predicate SomeUnreported(expected: seq<string>, index: ReportIndex)
  {
    exists id :: id in expected && id !in index
  }

  predicate SomeReported(expected: seq<string>, index: ReportIndex)
  {
    exists id :: id in expected && id in index
  }

  /** Some order of the trade is reported, and what is reported is not filled throughout. */
  predicate SomeUnfilled(expected: seq<string>, index: ReportIndex)
  {
    exists id :: id in expected && id in index && !ReportedFilled(index, id)
  }

  /** Ledger and exchange contradict each other: the ledger says done and an order is not
      filled, or the ledger asks for recovery and everything reported is filled. */
  predicate Contradicts(r: TradeLedgerRecord, expected: seq<string>, index: ReportIndex)
  {
    || (r.status in {Hedged, Closed} && SomeUnfilled(expected, index))
    || (r.status in {Failed, RecoveryPending} && SomeReported(expected, index) && !SomeUnfilled(expected, index))
  }

  lemma MismatchIff(r: TradeLedgerRecord, expected: seq<string>, index: ReportIndex)
    ensures var available := Available(expected, index);
            available != [] && IsStatusMismatch(r.status, Statuses(available)) <==> Contradicts(r, expected, index)
  {
    var available := Available(expected, index);
    AvailableAre(expected, index);
    hide Normalize, Reads, NormalStatuses;
    AllFilledIsTheSet(Statuses(available));
  }

  /** The available reports and their statuses, order id by order id. */
  lemma AvailableAre(expected: seq<string>, index: ReportIndex)
    ensures Available(expected, index) != [] <==> SomeReported(expected, index)
    ensures AllFilled(Statuses(Available(expected, index)))
       <==> SomeReported(expected, index) && !SomeUnfilled(expected, index)
  {
    hide Normalize, Reads;
    var available := Available(expected, index);
    var statuses := Statuses(available);
    if id :| id in expected && id in index {
      var i :| 0 <= i < |expected| && expected[i] == id;
      GatherContains(expected, Reported(index), i);
    }
    if available != [] {
      var i := GatherSource(expected, Reported(index), available[0]);
      assert expected[i] in expected;
    }
    if AllFilled(statuses) {
      forall id | id in expected && id in index ensures ReportedFilled(index, id) {
        var i :| 0 <= i < |expected| && expected[i] == id;
        GatherContains(expected, Reported(index), i);
        var j :| 0 <= j < |available| && available[j] == index[id];
        assert statuses[j] in statuses;
        StatusTextsMean(index[id].status);
      }
    }
    if !SomeUnfilled(expected, index) {
      forall s | s in statuses ensures Normalize(s) == NormalFilled {
        var j :| 0 <= j < |statuses| && statuses[j] == s;
        var i := GatherSource(expected, Reported(index), available[j]);
        assert expected[i] in expected;
        StatusTextsMean(s);
      }
    }
  }

  /** A trade needs attention if and only if an expected order has no report or the latest
      reports contradict the ledger; and the action suggested is to resume exactly when every
      order is reported filled: the open of a failed trade, the close of a closed one. */
  lemma AttentionIff(r: TradeLedgerRecord, events: seq<AuditEventRecord>, index: ReportIndex)
    ensures var expected := ExpectedOrders(events, r.tradeId);
            var c := CandidateFor(r, events, index);
            var settled := expected != [] && forall id :: id in expected ==> ReportedFilled(index, id);
            && (c.needsAttention <==> SomeUnreported(expected, index) || Contradicts(r, expected, index))
            && (c.suggested == SuggestResumeOpen <==> r.status in {Failed, RecoveryPending} && settled)
            && (c.suggested == SuggestResumeClose <==> r.status == Closed && settled)
  {
    var expected := ExpectedOrders(events, r.tradeId);
    MismatchIff(r, expected, index);
    AvailableAre(expected, index);
    AllFilledIsTheSet(Statuses(Available(expected, index)));
    MissingIff(expected, index);
    hide ExpectedOrders, IsStatusMismatch, Normalize, Reads, NormalStatuses, AllFilled, Missing, Available,
         NewestUpdate, LatestEventAt;
    if SomeReported(expected, index) && !SomeUnfilled(expected, index) && !SomeUnreported(expected, index) {
      var id :| id in expected && id in index;
      forall other | other in expected ensures ReportedFilled(index, other) {
        assert other in index;
      }
    }
    if expected != [] && forall id :: id in expected ==> ReportedFilled(index, id) {
      assert expected[0] in expected;
    }
  }

  lemma MissingIff(expected: seq<string>, index: ReportIndex)
    ensures Missing(expected, index) != [] <==> SomeUnreported(expected, index)
    ensures forall id :: id in Missing(expected, index) <==> id in expected && id !in index
  {
    FilterMembers(expected, Unreported(index));
    if Missing(expected, index) != [] {
      assert Missing(expected, index)[0] in Missing(expected, index);
    }
  }

  predicate HasIssue(issues: seq<ReconciliationIssue>, tradeId: string, kind: IssueKind)
  {
    exists i :: i in issues && i.tradeId == tradeId && i.kind == kind
  }

  /** The summary lists an issue of a kind for a live trade exactly when the trade has it. */
  lemma IssueIff(ledger: seq<TradeLedgerRecord>, log: seq<AuditEventRecord>, reports: seq<ExchangeOrderReport>,
                 r: TradeLedgerRecord)
    requires UniqueIds(ledger) && r in ledger && Reconciled(r)
    ensures var issues := Summary(ledger, log, reports).issues;
            var expected, index := ExpectedOrders(Timeline(log), r.tradeId), LatestByOrder(reports);
            && (HasIssue(issues, r.tradeId, MissingExchangeReport) <==> SomeUnreported(expected, index))
            && (HasIssue(issues, r.tradeId, StatusMismatch) <==> Contradicts(r, expected, index))
  {
    var events, index := Timeline(log), LatestByOrder(reports);
    var expected := ExpectedOrders(events, r.tradeId);
    var c := CandidateFor(r, events, index);
    MismatchIff(r, expected, index);
    MissingIff(expected, index);
    CandidateListed(ledger, log, reports, r, false);
    CandidateNames(r, events, index);
    TradeIssueKinds(r, expected, index);
    IssuesMeanAttention(r, events, index);
    hide Summary, Candidates, TradeIssues, Timeline, LatestByOrder, ExpectedOrders, CandidateFor, IssuesImplied,
         SomeUnreported, Contradicts, Available, Missing, IsStatusMismatch;
    var issues := Summary(ledger, log, reports).issues;
    forall issue: ReconciliationIssue | issue.tradeId == r.tradeId
      ensures issue in issues <==> issue in TradeIssues(r, expected, index)
    {
      IssuesMatchCandidateFields(ledger, log, reports, c, issue);
    }
  }

  lemma TradeIssueKinds(r: TradeLedgerRecord, expected: seq<string>, index: ReportIndex)
    ensures var issues := TradeIssues(r, expected, index);
            && (HasIssue(issues, r.tradeId, MissingExchangeReport) <==> Missing(expected, index) != [])
            && (HasIssue(issues, r.tradeId, StatusMismatch) <==>
                  Available(expected, index) != [] && IsStatusMismatch(r.status, Statuses(Available(expected, index))))
  {
    hide Available, Missing, IsStatusMismatch, SuggestAction;
    var issues := TradeIssues(r, expected, index);
    if Missing(expected, index) != [] { assert issues[0] in issues; }
    if Available(expected, index) != [] && IsStatusMismatch(r.status, Statuses(Available(expected, index))) {
      assert issues[|issues| - 1] in issues;
    }
  }

  /** The orders of a candidate, read off the stored reports: each expected order is listed as
      reported, with the text of its latest report, or as missing. */
  lemma ReportedOrMissing(r: TradeLedgerRecord, events: seq<AuditEventRecord>, reports: seq<ExchangeOrderReport>,
                          id: string)
    ensures var c := CandidateFor(r, events, LatestByOrder(reports));
            && c.tradeId == r.tradeId && c.symbol == r.symbol && c.localStatus == r.status
            && c.expected == ExpectedOrders(events, r.tradeId)
            && (id in c.reported <==> id in c.expected && id in OrderIds(reports))
            && (id in c.missing <==> id in c.expected && id !in OrderIds(reports))
            && |c.exchangeStatuses| == |c.reported|
            && forall i :: 0 <= i < |c.reported| && c.reported[i] == id ==>
                 id in LatestByOrder(reports) && c.exchangeStatuses[i] == LatestByOrder(reports)[id].status
  {
    var index := LatestByOrder(reports);
    var expected := ExpectedOrders(events, r.tradeId);
    IndexHoldsLatest(reports);
    MissingIff(expected, index);
    hide LatestByOrder, ExpectedOrders, Missing, SuggestAction, IsStatusMismatch, LatestEventAt, NewestUpdate;
    var available := Available(expected, index);
    var c := CandidateFor(r, events, index);
    forall i | 0 <= i < |available|
      ensures available[i].orderId in expected && available[i].orderId in index
           && available[i] == index[available[i].orderId]
    {
      var k := GatherSource(expected, Reported(index), available[i]);
      assert expected[k] in expected;
    }
    if id in expected && id in index {
      var k :| 0 <= k < |expected| && expected[k] == id;
      GatherContains(expected, Reported(index), k);
      var i :| 0 <= i < |available| && available[i] == index[id];
      assert c.reported[i] == id;
    }
  }
}
