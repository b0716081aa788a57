/** What compensation plans mean, and what a run of them promises. */
module CompensationSafety {
  import opened Options
  import opened Lists
  import opened Ledger
  import opened Audit
  import opened Execution
  import opened ExchangeReports
  import opened Reconciliation
  import opened ReportSync
  import opened ReconciliationAgreement
  import Recovery
  import RecoveryDrain
  import Hedge
  import opened Compensation

  // ---- every plan has one of six shapes ------------------------------------------------------

  /** What should be done about a live trade, said of its orders, reports and exposure. */
  function Verdict(r: TradeLedgerRecord, events: seq<AuditEventRecord>, index: ReportIndex,
                   limitBps: real): CompensationAction
  {
    var expected := ExpectedOrders(events, r.tradeId);
    if Reconciled(r) && exists id :: id in expected && id !in index then SyncReports
    else if NeedsRecovery(r.status) then
      if expected != [] && forall id :: id in expected ==> id in index && Normalize(index[id].status) == NormalFilled
      then ResumeTrade(ResumeOpen)
      else CompensationAction.ManualReview
    else if Hedge.WantsRebalance(Hedge.PlanFor(r, limitBps)) then RebalanceTrade
    else Nothing
  }

  lemma {:induction false} RecoveryOfIsListed(plans: seq<Recovery.RecoveryPlan>, tradeId: string)
    ensures RecoveryOf(plans, tradeId).Some? ==>
              RecoveryOf(plans, tradeId).value in plans && RecoveryOf(plans, tradeId).value.tradeId == tradeId
    ensures RecoveryOf(plans, tradeId).None? ==> forall p :: p in plans ==> p.tradeId != tradeId
  {
    if plans != [] {
      var n := |plans| - 1;
      RecoveryOfIsListed(plans[..n], tradeId);
      assert plans == plans[..n] + [plans[n]];
    }
  }

  /** With unique ids, the recovery plan found for a trade is the trade's own. */
  lemma RecoveryOfTrade(ledger: seq<TradeLedgerRecord>, log: seq<AuditEventRecord>, reports: seq<ExchangeOrderReport>,
                        symbol: Option<string>, r: TradeLedgerRecord)
    requires UniqueIds(ledger) && r in ledger && (symbol.Some? ==> r.symbol == symbol.value)
    ensures RecoveryOf(Recovery.Plans(ledger, log, reports, symbol, false), r.tradeId)
         == if NeedsRecovery(r.status) then Some(RecoveryDrain.DirectPlan(r, Timeline(log), LatestByOrder(reports)))
            else None
  {
    hide Timeline, LatestByOrder, Recovery.Plans, RecoveryDrain.DirectPlan, Find;
    var plans := Recovery.Plans(ledger, log, reports, symbol, false);
    RecoveryOfIsListed(plans, r.tradeId);
    FindUnique(ledger, r);
    var found := RecoveryOf(plans, r.tradeId);
    if found.Some? {
      var source := RecoveryDrain.PlanSource(ledger, log, reports, symbol, false, found.value);
    } else if NeedsRecovery(r.status) {
      RecoveryDrain.PlanListed(ledger, log, reports, symbol, false, r);
      DirectPlanNames(r, Timeline(log), LatestByOrder(reports));
    }
  }

  lemma DirectPlanNames(r: TradeLedgerRecord, events: seq<AuditEventRecord>, index: ReportIndex)
    ensures RecoveryDrain.DirectPlan(r, events, index).tradeId == r.tradeId
  {
  }

  /** The candidate found for a trade in the list for its symbol is the trade's own. */
  lemma CandidateOfSymbol(ledger: seq<TradeLedgerRecord>, log: seq<AuditEventRecord>, reports: seq<ExchangeOrderReport>,
                          symbol: Option<string>, r: TradeLedgerRecord)
    requires UniqueIds(ledger) && r in ledger && (symbol.Some? ==> r.symbol == symbol.value)
    ensures Recovery.CandidateOf(Candidates(ledger, log, reports, symbol, false), r.tradeId)
         == if Reconciled(r) then Some(CandidateFor(r, Timeline(log), LatestByOrder(reports))) else None
  {
    hide Timeline, LatestByOrder, Candidates, CandidateFor, Find;
    var all := Candidates(ledger, log, reports, symbol, false);
    RecoveryDrain.CandidateOfIsListed(all, r.tradeId);
    var found := Recovery.CandidateOf(all, r.tradeId);
    FindUnique(ledger, r);
    if found.Some? {
      var source := CandidateSource(ledger, log, reports, symbol, false, found.value);
      CandidateNames(source, Timeline(log), LatestByOrder(reports));
      FindUnique(ledger, source);
    } else if Reconciled(r) {
      CandidateListedFor(ledger, log, reports, symbol, r);
      CandidateNames(r, Timeline(log), LatestByOrder(reports));
    }
  }

  lemma CandidateListedFor(ledger: seq<TradeLedgerRecord>, log: seq<AuditEventRecord>,
                           reports: seq<ExchangeOrderReport>, symbol: Option<string>, r: TradeLedgerRecord)
    requires r in ledger && Reconciled(r) && (symbol.Some? ==> r.symbol == symbol.value)
    ensures CandidateFor(r, Timeline(log), LatestByOrder(reports)) in Candidates(ledger, log, reports, symbol, false)
  {
    hide CandidateFor;
    var f := ListedCandidate(Timeline(log), LatestByOrder(reports), symbol, false);
    CandidateOrder();
    SortSorts(Gather(ledger, f), CandidateGe);
    var i :| 0 <= i < |ledger| && ledger[i] == r;
    GatherContains(ledger, f, i);
  }

  lemma MissingMeans(r: TradeLedgerRecord, events: seq<AuditEventRecord>, index: ReportIndex)
    ensures CandidateFor(r, events, index).missing != []
       <==> exists id :: id in ExpectedOrders(events, r.tradeId) && id !in index
  {
    var expected := ExpectedOrders(events, r.tradeId);
    FilterMembers(expected, Unreported(index));
    if Missing(expected, index) != [] {
      assert Missing(expected, index)[0] in Missing(expected, index);
    }
  }

  /** The plan of a live trade is the verdict on it: every branch of the priority chain is
      decided by the trade's own orders, reports and exposure, a recovery plan is never
      left to the operator, and a plan is actionable exactly when it syncs, resumes or
      rebalances. */
  lemma PlanIsTheVerdict(ledger: seq<TradeLedgerRecord>, log: seq<AuditEventRecord>, reports: seq<ExchangeOrderReport>,
                         symbol: Option<string>, limitBps: real, r: TradeLedgerRecord)
    requires UniqueIds(ledger) && r in ledger && Selected(r, Some(Live), None, None, symbol)
    ensures var plan := PlanOf(r, r, Candidates(ledger, log, reports, symbol, false),
                               Recovery.Plans(ledger, log, reports, symbol, false), limitBps);
            && plan.tradeId == r.tradeId
            && plan.action == Verdict(r, Timeline(log), LatestByOrder(reports), limitBps)
            && plan.reason != OperatorDecision
            && (plan.actionable <==> plan.action in {SyncReports, ResumeTrade(ResumeOpen), RebalanceTrade})
            && (plan.action == RebalanceTrade ==> plan.suggestedDelta == Hedge.PlanFor(r, limitBps).suggestedDelta)
  {
    hide Timeline, LatestByOrder, Candidates, CandidateFor, Recovery.Plans, RecoveryDrain.DirectPlan, Hedge.PlanFor,
         ExpectedOrders;
    var events, index := Timeline(log), LatestByOrder(reports);
    CandidateOfSymbol(ledger, log, reports, symbol, r);
    RecoveryOfTrade(ledger, log, reports, symbol, r);
    MissingMeans(r, events, index);
    if NeedsRecovery(r.status) {
      RecoveryDrain.AutomaticPlans(r, events, index);
      match RecoveryDrain.DirectPlan(r, events, index).recommended {
        case ManualReview =>
        case Resume(action) => assert action == ResumeOpen;
      }
    }
  }

  /** Every listed plan is the plan of a live trade of the ledger. */
  lemma PlanSource(ledger: seq<TradeLedgerRecord>, log: seq<AuditEventRecord>, reports: seq<ExchangeOrderReport>,
                   symbol: Option<string>, onlyActionable: bool, limitBps: real, plan: CompensationPlan)
    returns (r: TradeLedgerRecord)
    requires UniqueIds(ledger) && plan in Plans(ledger, log, reports, symbol, onlyActionable, limitBps)
    ensures Find(ledger, plan.tradeId) == Some(r) && r in ledger && Selected(r, Some(Live), None, None, symbol)
    ensures plan == PlanOf(r, r, Candidates(ledger, log, reports, symbol, false),
                           Recovery.Plans(ledger, log, reports, symbol, false), limitBps)
    ensures onlyActionable ==> plan.actionable
  {
    hide Candidates, Recovery.Plans;
    var f := ListedPlan(ledger, Candidates(ledger, log, reports, symbol, false),
                        Recovery.Plans(ledger, log, reports, symbol, false), symbol, onlyActionable, limitBps);
    CompensationOrder();
    SortSorts(Gather(ledger, f), CompensationLe);
    var i := GatherSource(ledger, f, plan);
    r := ledger[i];
    FindUnique(ledger, r);
    hide PlanOf, Find;
    PlanOfNames(r, r, Candidates(ledger, log, reports, symbol, false),
                Recovery.Plans(ledger, log, reports, symbol, false), limitBps);
  }

  lemma PlanOfNames(r: TradeLedgerRecord, found: TradeLedgerRecord, candidates: seq<ReconciliationCandidate>,
                    recoveries: seq<Recovery.RecoveryPlan>, limitBps: real)
    ensures PlanOf(r, found, candidates, recoveries, limitBps).tradeId == r.tradeId
  {
  }

  /** An actionable plan is a sync, a resumed open or a rebalance, and a resume implies that
      the trade has orders, that each has a report, and that each latest report is filled. */
  lemma ActionablePlansAreSafe(ledger: seq<TradeLedgerRecord>, log: seq<AuditEventRecord>,
                               reports: seq<ExchangeOrderReport>,
                               symbol: Option<string>, limitBps: real, plan: CompensationPlan)
    requires UniqueIds(ledger) && plan in Plans(ledger, log, reports, symbol, true, limitBps)
    ensures plan.action in {SyncReports, ResumeTrade(ResumeOpen), RebalanceTrade} && plan.reason != OperatorDecision
    ensures plan.action.ResumeTrade? ==>
              var expected, index := ExpectedOrders(Timeline(log), plan.tradeId), LatestByOrder(reports);
              && NeedsRecovery(plan.status) && expected != []
              && forall id :: id in expected ==> id in index && Normalize(index[id].status) == NormalFilled
  {
    hide Timeline, LatestByOrder, Candidates, Recovery.Plans, Plans, Hedge.PlanFor, ExpectedOrders, Normalize;
    var r := PlanSource(ledger, log, reports, symbol, true, limitBps, plan);
    PlanIsTheVerdict(ledger, log, reports, symbol, limitBps, r);
  }

  // ---- the run answers its plans ----------------------------------------------------------------

  /** Plans of one trade ask for the same action, duplicates in the ledger or not. */
  predicate SameTradeSameAction(plans: seq<CompensationPlan>)
  {
    forall p, q :: p in plans && q in plans && p.tradeId == q.tradeId ==> p.action == q.action
  }

  lemma ActionByTrade(a: TradeLedgerRecord, b: TradeLedgerRecord, found: TradeLedgerRecord,
                      candidates: seq<ReconciliationCandidate>, recoveries: seq<Recovery.RecoveryPlan>, limitBps: real)
    requires a.tradeId == b.tradeId
    ensures PlanOf(a, found, candidates, recoveries, limitBps).action
         == PlanOf(b, found, candidates, recoveries, limitBps).action
  {
  }

  lemma ListedPlansAgree(ledger: seq<TradeLedgerRecord>, log: seq<AuditEventRecord>, reports: seq<ExchangeOrderReport>,
                         symbol: Option<string>, onlyActionable: bool, limitBps: real)
    ensures SameTradeSameAction(Plans(ledger, log, reports, symbol, onlyActionable, limitBps))
  {
    hide Candidates, Recovery.Plans;
    var candidates, recoveries := Candidates(ledger, log, reports, symbol, false),
            Recovery.Plans(ledger, log, reports, symbol, false);
    var f := ListedPlan(ledger, candidates, recoveries, symbol, onlyActionable, limitBps);
    CompensationOrder();
    SortSorts(Gather(ledger, f), CompensationLe);
    var plans := Plans(ledger, log, reports, symbol, onlyActionable, limitBps);
    forall p | p in plans
      ensures Find(ledger, p.tradeId).Some?
      ensures exists r: TradeLedgerRecord ::
                r.tradeId == p.tradeId && p == PlanOf(r, Find(ledger, p.tradeId).value, candidates, recoveries,
                                                      limitBps)
    {
      var i := GatherSource(ledger, f, p);
      PlanOfNames(ledger[i], Find(ledger, ledger[i].tradeId).value, candidates, recoveries, limitBps);
    }
    hide Plans, PlanOf, Find, ListedPlan, Gather;
    forall p, q | p in plans && q in plans && p.tradeId == q.tradeId ensures p.action == q.action {
      var found := Find(ledger, p.tradeId).value;
      var a: TradeLedgerRecord :| a.tradeId == p.tradeId && p == PlanOf(a, found, candidates, recoveries, limitBps);
      var b: TradeLedgerRecord :| b.tradeId == q.tradeId && q == PlanOf(b, found, candidates, recoveries, limitBps);
      ActionByTrade(a, b, found, candidates, recoveries, limitBps);
    }
  }

  /** The item under a trade id is the answer to one of the trade's plans. */
  predicate Answers(items: map<string, CompensationItem>, plans: seq<CompensationPlan>)
  {
    forall id :: id in items ==> items[id].tradeId == id && exists p ::
        p in plans && p.tradeId == id && p.action == items[id].action
  }

  /** Every plan has its item or waits for recovery. */
  predicate Covered(run: CompensationRun, plans: seq<CompensationPlan>)
  {
    && Answers(run.items, plans)
    && (forall p :: p in run.waiting ==> p in plans)
    && (forall p :: p in plans ==> p.tradeId in run.items || p in run.waiting)
  }

  lemma {:induction false} ActionsCover(cfg: ExecutionConfig, uuid: Ids, w: World, stored: seq<ExchangeOrderReport>,
                                        plans: seq<CompensationPlan>, client: Client, ids: nat -> string,
                                        clock: nat -> Time)
    ensures var run := RunActions(cfg, uuid, w, stored, plans, client, ids, clock);
            run.stopped.None? ==> Covered(run, plans)
  {
    if plans != [] {
      var n := |plans| - 1;
      ActionsCover(cfg, uuid, w, stored, plans[..n], client, ids, clock);
      var run := RunActions(cfg, uuid, w, stored, plans[..n], client, ids, clock);
      assert plans == plans[..n] + [plans[n]];
      if run.stopped.None? {
        ActionAddsOne(cfg, uuid, run, plans[n], client, ids, clock(n));
        hide RunAction;
        CoveredByOneMore(run, RunAction(cfg, uuid, run, plans[n], client, ids, clock(n)), plans[..n], plans[n]);
      }
    }
  }

  /** An action adds the plan's own item, or puts the plan on the waiting list. */
  predicate AddsOne(run: CompensationRun, next: CompensationRun, plan: CompensationPlan)
  {
    || next.stopped.Some?
    || (next.items == run.items && next.waiting == run.waiting + [plan] && plan.action.ResumeTrade?)
    || (&& plan.tradeId in next.items && next.waiting == run.waiting
        && next.items == run.items[plan.tradeId := ItemFor(plan, next.items[plan.tradeId].outcome)])
  }

  lemma ActionAddsOne(cfg: ExecutionConfig, uuid: Ids, run: CompensationRun, plan: CompensationPlan, client: Client,
                      ids: nat -> string, now: Time)
    requires run.stopped.None?
    ensures AddsOne(run, RunAction(cfg, uuid, run, plan, client, ids, now), plan)
  {
    hide SyncTrade, Rebalance, RebalanceQuantity;
  }

  lemma CoveredByOneMore(run: CompensationRun, next: CompensationRun, plans: seq<CompensationPlan>,
                         plan: CompensationPlan)
    requires Covered(run, plans) && AddsOne(run, next, plan)
    ensures next.stopped.None? ==> Covered(next, plans + [plan])
  {
  }

  lemma {:induction false} RecoveredAreAnswered(items: map<string, CompensationItem>, waiting: seq<CompensationPlan>,
                                                run: Recovery.RecoveryRun, plans: seq<CompensationPlan>)
    requires Answers(items, plans) && forall p :: p in waiting ==> p in plans
    ensures Answers(WithRecovered(items, waiting, run), plans)
    ensures forall id :: id in WithRecovered(items, waiting, run) <==> id in items || id in TradeIds(waiting)
  {
    if waiting != [] {
      var n := |waiting| - 1;
      assert waiting == waiting[..n] + [waiting[n]];
      RecoveredAreAnswered(items, waiting[..n], run, plans);
      assert TradeIds(waiting) == TradeIds(waiting[..n]) + {waiting[n].tradeId};
    }
  }

  lemma {:induction false} CountsAddUp(items: seq<CompensationItem>)
    ensures CountItems(items, Hedge.Executed) + CountItems(items, Hedge.Skipped) + CountItems(items, Hedge.NotExecuted)
         == |items|
  {
    if items != [] {
      CountsAddUp(items[..|items| - 1]);
    }
  }

  lemma {:induction false} GatherAll<T, U>(s: seq<T>, f: T -> Option<U>)
    requires forall x :: x in s ==> f(x).Some?
    ensures |Gather(s, f)| == |s| && forall i :: 0 <= i < |s| ==> Some(Gather(s, f)[i]) == f(s[i])
  {
    if s != [] {
      GatherAll(s[1..], f);
      forall i | 0 <= i < |s| ensures Some(Gather(s, f)[i]) == f(s[i]) {
        if i > 0 { assert Gather(s, f)[i] == Gather(s[1..], f)[i - 1] && s[i] == s[1..][i - 1]; }
      }
    }
  }

  lemma RecoveryCovers(cfg: ExecutionConfig, uuid: Ids, run: CompensationRun, plans: seq<CompensationPlan>,
                       clock: nat -> Time)
    requires run.stopped.None? && Covered(run, plans)
    ensures var done := RecoverWaiting(cfg, uuid, run, clock);
            done.stopped.None? ==> Answers(done.items, plans) && forall p :: p in plans ==> p.tradeId in done.items
  {
    hide Recovery.RunRecoveries, Recovery.ChosenPlans, WithRecovered, Answers;
    if run.waiting != [] {
      var chosen := Recovery.ChosenPlans(run.world.ledger, run.world.log, run.stored, None, Some(TradeIds(run.waiting)),
                                         None);
      RecoveredAreAnswered(run.items, run.waiting, Recovery.RunRecoveries(cfg, uuid, run.world, chosen, clock), plans);
    }
  }

  /** When the run returns, there is one result a plan, in the plans' order and about the
      plan's trade and action, and the three counts add up to the plans attempted. */
  lemma RunAnswersPlans(cfg: ExecutionConfig, uuid: Ids, w: World, stored: seq<ExchangeOrderReport>,
                        plans: seq<CompensationPlan>, client: Client, ids: nat -> string, clock: nat -> Time,
                        recoveryClock: nat -> Time)
    requires SameTradeSameAction(plans)
    ensures var outcome := Summarise(plans, SafeRun(cfg, uuid, w, stored, plans, client, ids, clock, recoveryClock));
            outcome.Returned? ==>
              var summary := outcome.value;
              && summary.attempted == |plans| == |summary.results|
              && summary.executed + summary.skipped + summary.failed == summary.attempted
              && forall i :: 0 <= i < |plans| ==>
                   summary.results[i].tradeId == plans[i].tradeId && summary.results[i].action == plans[i].action
  {
    hide RunActions, RecoverWaiting, CountItems;
    ActionsCover(cfg, uuid, w, stored, plans, client, ids, clock);
    var acted := RunActions(cfg, uuid, w, stored, plans, client, ids, clock);
    if acted.stopped.Some? {
      StoppedStays(cfg, uuid, acted, recoveryClock);
    } else {
      RecoveryCovers(cfg, uuid, acted, plans, recoveryClock);
      var items := SafeRun(cfg, uuid, w, stored, plans, client, ids, clock, recoveryClock).items;
      if forall p :: p in plans ==> p.tradeId in items {
        GatherAll(plans, ItemOf(items));
        CountsAddUp(Gather(plans, ItemOf(items)));
      }
    }
  }

  lemma StoppedStays(cfg: ExecutionConfig, uuid: Ids, run: CompensationRun, clock: nat -> Time)
    requires run.stopped.Some?
    ensures RecoverWaiting(cfg, uuid, run, clock) == run
  {
  }

  /** Each count of a summary is the number of its results that ended that way. */
  lemma {:induction false} CountIsNumber(items: seq<CompensationItem>, outcome: Hedge.RebalanceOutcome)
    ensures CountItems(items, outcome) == |set i | 0 <= i < |items| && items[i].outcome == outcome|
  {
    if items != [] {
      var n := |items| - 1;
      CountIsNumber(items[..n], outcome);
      assert (set i | 0 <= i < |items| && items[i].outcome == outcome)
          == (set i | 0 <= i < n && items[..n][i].outcome == outcome)
             + if items[n].outcome == outcome then {n} else {};
    }
  }

  lemma SummaryCounts(plans: seq<CompensationPlan>, run: CompensationRun)
    requires run.stopped.None?
    ensures var summary := Summarise(plans, run).value;
            && summary.executed == |set i | 0 <= i < |summary.results| && summary.results[i].outcome == Hedge.Executed|
            && summary.skipped == |set i | 0 <= i < |summary.results| && summary.results[i].outcome == Hedge.Skipped|
            && summary.failed == |set i | 0 <= i < |summary.results| && summary.results[i].outcome == Hedge.NotExecuted|
  {
    var results := Gather(plans, ItemOf(run.items));
    CountIsNumber(results, Hedge.Executed);
    CountIsNumber(results, Hedge.Skipped);
    CountIsNumber(results, Hedge.NotExecuted);
  }
}
