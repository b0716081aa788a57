/** Recovery drains its own queue: every plan taken is executed, none is skipped, and the
    plans that stay are exactly the ones that were there, unchanged. */
module RecoveryDrain {
  import opened Options
  import opened Lists
  import opened Ledger
  import opened Audit
  import opened Execution
  import opened ExchangeReports
  import opened Reconciliation
  import opened ReportSync
  import opened ReconciliationAgreement
  import opened Recovery

  // ---- a plan reads only its own trade's events ---------------------------------------------

  lemma FilterLast<T>(s: seq<T>, keep: T -> bool)
    requires s != []
    ensures Filter(s, keep) == Filter(s[..|s| - 1], keep) + (if keep(s[|s| - 1]) then [s[|s| - 1]] else [])
  {
    var earlier, last := s[..|s| - 1], s[|s| - 1];
    assert s == earlier + [last];
    FilterAppend(earlier, [last], keep);
    assert [last][1..] == [];
  }

  lemma {:induction false} LatestEventIsOwn(events: seq<AuditEventRecord>, tradeId: string)
    ensures LatestEvent(events, tradeId) == LatestEvent(Filter(events, About(tradeId)), tradeId)
  {
    hide LaterIntent, CarriesOrder;
    if events != [] {
      var n := |events| - 1;
      LatestEventIsOwn(events[..n], tradeId);
      FilterLast(events, About(tradeId));
      var own := Filter(events[..n], About(tradeId));
      assert (own + [events[n]])[..|own|] == own && own + [] == own;
    }
  }

  lemma {:induction false} LatestIntentIsOwn(events: seq<AuditEventRecord>, tradeId: string)
    ensures LatestIntent(events, tradeId) == LatestIntent(Filter(events, About(tradeId)), tradeId)
  {
    hide LaterIntent, CarriesOrder;
    if events != [] {
      var n := |events| - 1;
      LatestIntentIsOwn(events[..n], tradeId);
      FilterLast(events, About(tradeId));
      var own := Filter(events[..n], About(tradeId));
      assert (own + [events[n]])[..|own|] == own && own + [] == own;
    }
  }

  lemma {:induction false} ExpectedOrdersAreOwn(events: seq<AuditEventRecord>, tradeId: string)
    ensures ExpectedOrders(events, tradeId) == ExpectedOrders(Filter(events, About(tradeId)), tradeId)
  {
    hide LaterIntent, CarriesOrder;
    if events != [] {
      var n := |events| - 1;
      ExpectedOrdersAreOwn(events[..n], tradeId);
      FilterLast(events, About(tradeId));
      var own := Filter(events[..n], About(tradeId));
      assert (own + [events[n]])[..|own|] == own && own + [] == own;
    }
  }

  lemma {:induction false} LatestEventAtIsOwn(events: seq<AuditEventRecord>, tradeId: string)
    ensures LatestEventAt(events, tradeId) == LatestEventAt(Filter(events, About(tradeId)), tradeId)
  {
    hide LaterIntent, CarriesOrder;
    if events != [] {
      var n := |events| - 1;
      LatestEventAtIsOwn(events[..n], tradeId);
      FilterLast(events, About(tradeId));
      var own := Filter(events[..n], About(tradeId));
      assert (own + [events[n]])[..|own|] == own && own + [] == own;
    }
  }

  /** The plan of a trade, looked up directly. */
  function DirectPlan(r: TradeLedgerRecord, events: seq<AuditEventRecord>, index: ReportIndex): RecoveryPlan
  {
    BuildPlan(r, LatestEvent(events, r.tradeId), LatestIntent(events, r.tradeId),
              if Reconciled(r) then Some(CandidateFor(r, events, index)) else None)
  }

  lemma SameEventsSamePlan(r: TradeLedgerRecord, events: seq<AuditEventRecord>, events': seq<AuditEventRecord>,
                           index: ReportIndex)
    requires Filter(events, About(r.tradeId)) == Filter(events', About(r.tradeId))
    ensures DirectPlan(r, events, index) == DirectPlan(r, events', index)
  {
    hide BuildPlan, LatestEvent, LatestIntent, ExpectedOrders, LatestEventAt, IsStatusMismatch, SuggestAction;
    LatestEventIsOwn(events, r.tradeId);
    LatestEventIsOwn(events', r.tradeId);
    LatestIntentIsOwn(events, r.tradeId);
    LatestIntentIsOwn(events', r.tradeId);
    ExpectedOrdersAreOwn(events, r.tradeId);
    ExpectedOrdersAreOwn(events', r.tradeId);
    LatestEventAtIsOwn(events, r.tradeId);
    LatestEventAtIsOwn(events', r.tradeId);
  }

  /** Events about another trade do not show in a trade's part of the timeline. */
  lemma OtherEventsDoNotShow(log: seq<AuditEventRecord>, more: seq<AuditEventRecord>, tradeId: string)
    requires forall e :: e in more ==> !About(tradeId)(e)
    ensures Filter(Timeline(log + more), About(tradeId)) == Filter(Timeline(log), About(tradeId))
  {
    FilterAppend(log, more, About(tradeId));
    FilterNone(more, About(tradeId));
    assert Filter(log, About(tradeId)) + [] == Filter(log, About(tradeId));
    TimelineFilter(log, About(tradeId));
    TimelineFilter(log + more, About(tradeId));
  }

  // ---- with unique ids, the candidate index is the trade's own candidate ------------------------

  lemma {:induction false} CandidateOfIsListed(candidates: seq<ReconciliationCandidate>, tradeId: string)
    ensures CandidateOf(candidates, tradeId).Some? ==>
              && CandidateOf(candidates, tradeId).value in candidates
              && CandidateOf(candidates, tradeId).value.tradeId == tradeId
    ensures CandidateOf(candidates, tradeId).None? ==> forall c :: c in candidates ==> c.tradeId != tradeId
  {
    if candidates != [] {
      var n := |candidates| - 1;
      CandidateOfIsListed(candidates[..n], tradeId);
      assert candidates == candidates[..n] + [candidates[n]];
    }
  }

  lemma CandidateOfTrade(ledger: seq<TradeLedgerRecord>, log: seq<AuditEventRecord>, reports: seq<ExchangeOrderReport>,
                         r: TradeLedgerRecord)
    requires UniqueIds(ledger) && r in ledger
    ensures CandidateOf(Candidates(ledger, log, reports, None, false), r.tradeId)
         == if Reconciled(r) then Some(CandidateFor(r, Timeline(log), LatestByOrder(reports))) else None
  {
    hide Timeline, LatestByOrder, Candidates, CandidateFor, Find;
    var all := Candidates(ledger, log, reports, None, false);
    CandidateOfIsListed(all, r.tradeId);
    var found := CandidateOf(all, r.tradeId);
    FindUnique(ledger, r);
    if found.Some? {
      var source := CandidateSource(ledger, log, reports, None, false, found.value);
      CandidateNames(source, Timeline(log), LatestByOrder(reports));
      FindUnique(ledger, source);
    } else if Reconciled(r) {
      CandidateListed(ledger, log, reports, r, false);
      CandidateNames(r, Timeline(log), LatestByOrder(reports));
    }
  }

  lemma PlanIsDirect(ledger: seq<TradeLedgerRecord>, log: seq<AuditEventRecord>, reports: seq<ExchangeOrderReport>,
                     r: TradeLedgerRecord)
    requires UniqueIds(ledger) && r in ledger
    ensures PlanOf(r, Timeline(log), Candidates(ledger, log, reports, None, false))
         == DirectPlan(r, Timeline(log), LatestByOrder(reports))
  {
    hide BuildPlan, LatestEvent, LatestIntent, Candidates, CandidateFor, Timeline, LatestByOrder, CandidateOf;
    CandidateOfTrade(ledger, log, reports, r);
  }

  // ---- what a plan means ------------------------------------------------------------------------

  /** A plan is automatic exactly when it names an action: a paper trade always, a live one
      when it has orders, all of them reported, and every latest report is filled. A live
      trade is only ever resumed as an open. */
  lemma AutomaticPlans(r: TradeLedgerRecord, events: seq<AuditEventRecord>, index: ReportIndex)
    requires NeedsRecovery(r.status)
    ensures var plan := DirectPlan(r, events, index);
            var expected := ExpectedOrders(events, r.tradeId);
            && plan.tradeId == r.tradeId && plan.mode == r.mode && plan.status == r.status
            && (plan.autoExecutable <==> plan.recommended.Resume?)
            && (plan.autoExecutable <==>
                  || r.mode == Paper
                  || (&& expected != []
                      && forall id :: id in expected ==> id in index && Normalize(index[id].status) == NormalFilled))
            && (r.mode == Live ==> plan.recommended != Resume(ResumeClose))
  {
    if r.mode == Live {
      LiveSuggestion(r, events, index);
      hide ExpectedOrders, LatestEventAt, Normalize, LatestEvent, LatestIntent, CandidateFor;
    }
  }

  lemma LiveSuggestion(r: TradeLedgerRecord, events: seq<AuditEventRecord>, index: ReportIndex)
    requires NeedsRecovery(r.status) && r.mode == Live
    ensures var c := CandidateFor(r, events, index);
            var expected := ExpectedOrders(events, r.tradeId);
            && c.suggested != SuggestResumeClose
            && (c.missing == [] && c.suggested == SuggestResumeOpen <==>
                  && expected != []
                  && forall id :: id in expected ==> id in index && Normalize(index[id].status) == NormalFilled)
  {
    hide ExpectedOrders, LatestEventAt, Normalize, NormalStatuses, NewestUpdate;
    var expected := ExpectedOrders(events, r.tradeId);
    var statuses := Statuses(Available(expected, index));
    AllFilledIsTheSet(statuses);
    StatusesOfExpected(expected, index);
  }

  /** Nothing missing and every available report filled, said of the order ids. */
  lemma StatusesOfExpected(expected: seq<string>, index: ReportIndex)
    ensures var statuses := Statuses(Available(expected, index));
            Missing(expected, index) == [] && AllFilled(statuses)
            <==> && expected != []
                 && forall id :: id in expected ==> id in index && Normalize(index[id].status) == NormalFilled
  {
    hide Normalize;
    var available := Available(expected, index);
    var statuses := Statuses(available);
    FilterMembers(expected, Unreported(index));
    if Missing(expected, index) == [] && AllFilled(statuses) {
      var first := GatherSource(expected, Reported(index), available[0]);
      forall id | id in expected ensures id in index && Normalize(index[id].status) == NormalFilled {
        assert id in Missing(expected, index) <==> id !in index;
        var i :| 0 <= i < |expected| && expected[i] == id;
        GatherContains(expected, Reported(index), i);
        var j :| 0 <= j < |available| && available[j] == index[id];
        assert statuses[j] in statuses;
      }
    }
    if expected != [] && forall id :: id in expected ==> id in index && Normalize(index[id].status) == NormalFilled {
      FilterNone(expected, Unreported(index));
      GatherContains(expected, Reported(index), 0);
      forall s | s in statuses ensures Normalize(s) == NormalFilled {
        var j :| 0 <= j < |statuses| && statuses[j] == s;
        var i := GatherSource(expected, Reported(index), available[j]);
        assert expected[i] in expected;
      }
    }
  }

  // ---- one recovery -----------------------------------------------------------------------------

  function RecoveredStatus(action: RecoveryAction): TradeStatus
  {
    if action == ResumeOpen then Hedged else Closed
  }

  /** The recovery of a recoverable trade succeeds, settles the trade and says so in events
      about this trade only. */
  lemma RecoverSucceeds(cfg: ExecutionConfig, uuid: Ids, w: World, found: TradeLedgerRecord, action: RecoveryAction,
                        notes: Option<string>, now: Time)
    returns (saved: TradeLedgerRecord, more: seq<AuditEventRecord>)
    requires Find(w.ledger, found.tradeId) == Some(found) && NeedsRecovery(found.status)
    ensures var step := Recover(cfg, uuid, w, found.tradeId, action, notes, now);
            && step.outcome.Returned?
            && step.outcome.value.tradeId == found.tradeId && step.outcome.value.status == RecoveredStatus(action)
            && step.world.ledger == Put(w.ledger, saved) && step.world.log == w.log + more
    ensures saved.tradeId == found.tradeId && saved.status == RecoveredStatus(action)
    ensures forall e :: e in more ==> About(found.tradeId)(e)
  {
    var body := RecoverBody(w, found.tradeId, action, notes, now);
    saved := body.saved.value;
    more := Stamped(uuid, |w.log|, body.drafts);
  }

  function OtherTrade(tradeId: string): RecoveryPlan -> bool
  {
    (p: RecoveryPlan) => p.tradeId != tradeId
  }

  lemma PlanNames(r: TradeLedgerRecord, events: seq<AuditEventRecord>, candidates: seq<ReconciliationCandidate>)
    ensures PlanOf(r, events, candidates).tradeId == r.tradeId
  {
  }

  /** A save about one trade leaves the plan of every other trade as it was. */
  lemma OtherPlansStay(ledger: seq<TradeLedgerRecord>, after: seq<TradeLedgerRecord>, log: seq<AuditEventRecord>,
                       more: seq<AuditEventRecord>, reports: seq<ExchangeOrderReport>, r: TradeLedgerRecord)
    requires UniqueIds(ledger) && UniqueIds(after) && r in ledger && r in after
    requires forall e :: e in more ==> !About(r.tradeId)(e)
    ensures PlanOf(r, Timeline(log), Candidates(ledger, log, reports, None, false))
         == PlanOf(r, Timeline(log + more), Candidates(after, log + more, reports, None, false))
  {
    hide Timeline, Candidates, PlanOf, DirectPlan, UniqueIds, LatestByOrder;
    PlanIsDirect(ledger, log, reports, r);
    PlanIsDirect(after, log + more, reports, r);
    OtherEventsDoNotShow(log, more, r.tradeId);
    SameEventsSamePlan(r, Timeline(log), Timeline(log + more), LatestByOrder(reports));
  }

  lemma NotListed(r: TradeLedgerRecord, events: seq<AuditEventRecord>, candidates: seq<ReconciliationCandidate>,
                  symbol: Option<string>, onlyActionable: bool)
    requires !NeedsRecovery(r.status)
    ensures ListedPlan(events, candidates, symbol, onlyActionable)(r).None?
  {
  }

  /** Recovering a trade takes its plan, and no other, out of the list. */
  lemma RecoveredLeavesList(ledger: seq<TradeLedgerRecord>, log: seq<AuditEventRecord>, more: seq<AuditEventRecord>,
                            reports: seq<ExchangeOrderReport>, saved: TradeLedgerRecord, symbol: Option<string>,
                            onlyActionable: bool)
    requires UniqueIds(ledger) && Find(ledger, saved.tradeId).Some? && !NeedsRecovery(saved.status)
    requires forall e :: e in more ==> About(saved.tradeId)(e)
    ensures Plans(Put(ledger, saved), log + more, reports, symbol, onlyActionable)
         == Filter(Plans(ledger, log, reports, symbol, onlyActionable), OtherTrade(saved.tradeId))
  {
    var k := PutPosition(ledger, saved);
    FindBelongs(ledger, saved.tradeId);
    var after := Put(ledger, saved);
    PutKeepsUnique(ledger, saved);
    var f := ListedPlan(Timeline(log), Candidates(ledger, log, reports, None, false), symbol, onlyActionable);
    var f' := ListedPlan(Timeline(log + more), Candidates(after, log + more, reports, None, false), symbol,
                         onlyActionable);
    hide Timeline, Candidates, PlanOf, Find, Put, Recoverable;
    forall i | 0 <= i < |ledger| && i != k ensures f(ledger[i]) == f'(after[i]) {
      assert after[i] == ledger[i] && ledger[i].tradeId != saved.tradeId;
      OtherPlansStay(ledger, after, log, more, reports, ledger[i]);
    }
    forall i | 0 <= i < |ledger| ensures f(ledger[i]).Some? ==> f(ledger[i]).value.tradeId == ledger[i].tradeId {
      PlanNames(ledger[i], Timeline(log), Candidates(ledger, log, reports, None, false));
    }
    NotListed(saved, Timeline(log + more), Candidates(after, log + more, reports, None, false), symbol, onlyActionable);
    assert f'(after[k]).None?;
    hide ListedPlan;
    GatherDrops(ledger, after, f, f', k, OtherTrade(saved.tradeId));
    RecoveryOrder();
    SortFilter(Gather(ledger, f), RecoveryLe, OtherTrade(saved.tradeId));
  }

  // ---- a run of recoveries -------------------------------------------------------------------------

  predicate HasPlan(plans: seq<RecoveryPlan>, tradeId: string)
  {
    exists p :: p in plans && p.tradeId == tradeId
  }

  function Untouched(plans: seq<RecoveryPlan>): RecoveryPlan -> bool
  {
    (p: RecoveryPlan) => !HasPlan(plans, p.tradeId)
  }

  /** Executable plans of distinct trades that still need recovery. */
  predicate Executable(ledger: seq<TradeLedgerRecord>, plans: seq<RecoveryPlan>)
  {
    && (forall p :: p in plans ==>
          && p.recommended.Resume?
          && Find(ledger, p.tradeId).Some? && NeedsRecovery(Find(ledger, p.tradeId).value.status))
    && (forall i, j :: 0 <= i < j < |plans| ==> plans[i].tradeId != plans[j].tradeId)
  }

  /** Result i answers plan i: same trade, and the status the plan's action leads to. */
  predicate AnswersPlans(run: RecoveryRun, plans: seq<RecoveryPlan>)
  {
    && run.stopped.None? && run.skipped == [] && |run.results| == |plans|
    && forall i :: 0 <= i < |plans| ==>
         && plans[i].recommended.Resume?
         && run.results[i].tradeId == plans[i].tradeId
         && run.results[i].status == RecoveredStatus(plans[i].recommended.action)
  }

  ghost predicate OthersUnchanged(before: seq<TradeLedgerRecord>, run: RecoveryRun, plans: seq<RecoveryPlan>)
  {
    UniqueIds(run.world.ledger)
    && forall id :: !HasPlan(plans, id) ==> Find(run.world.ledger, id) == Find(before, id)
  }

  predicate PlansShrank(w: World, run: RecoveryRun, reports: seq<ExchangeOrderReport>, plans: seq<RecoveryPlan>,
                        symbol: Option<string>, onlyActionable: bool)
  {
    Plans(run.world.ledger, run.world.log, reports, symbol, onlyActionable)
    == Filter(Plans(w.ledger, w.log, reports, symbol, onlyActionable), Untouched(plans))
  }

  lemma {:induction false} RecoveriesRun(cfg: ExecutionConfig, uuid: Ids, w: World, reports: seq<ExchangeOrderReport>,
                                         plans: seq<RecoveryPlan>, symbol: Option<string>, onlyActionable: bool,
                                         clock: nat -> Time)
    requires UniqueIds(w.ledger) && Executable(w.ledger, plans)
    ensures var run := RunRecoveries(cfg, uuid, w, plans, clock);
            && AnswersPlans(run, plans) && OthersUnchanged(w.ledger, run, plans)
            && PlansShrank(w, run, reports, plans, symbol, onlyActionable)
  {
    if plans == [] {
      FilterAll(Plans(w.ledger, w.log, reports, symbol, onlyActionable), Untouched([]));
    } else {
      var n := |plans| - 1;
      var earlier, plan := plans[..n], plans[n];
      assert plans == earlier + [plan] && plan in plans;
      RecoveriesRun(cfg, uuid, w, reports, earlier, symbol, onlyActionable, clock);
      var run := RunRecoveries(cfg, uuid, w, earlier, clock);
      assert !HasPlan(earlier, plan.tradeId);
      hide RunRecovery, Find, AnswersPlans, OthersUnchanged, PlansShrank;
      OneMore(cfg, uuid, w, run, reports, earlier, plan, symbol, onlyActionable, clock(n));
    }
  }

  lemma OneMore(cfg: ExecutionConfig, uuid: Ids, w: World, run: RecoveryRun, reports: seq<ExchangeOrderReport>,
                earlier: seq<RecoveryPlan>, plan: RecoveryPlan, symbol: Option<string>, onlyActionable: bool, now: Time)
    requires AnswersPlans(run, earlier) && OthersUnchanged(w.ledger, run, earlier)
    requires PlansShrank(w, run, reports, earlier, symbol, onlyActionable)
    requires plan.recommended.Resume? && !HasPlan(earlier, plan.tradeId)
    requires Find(w.ledger, plan.tradeId).Some? && NeedsRecovery(Find(w.ledger, plan.tradeId).value.status)
    ensures var next := RunRecovery(cfg, uuid, run, plan, now);
            && AnswersPlans(next, earlier + [plan]) && OthersUnchanged(w.ledger, next, earlier + [plan])
            && PlansShrank(w, next, reports, earlier + [plan], symbol, onlyActionable)
  {
    hide Plans, Put, Recover;
    var found := Find(w.ledger, plan.tradeId).value;
    FindBelongs(w.ledger, plan.tradeId);
    assert Find(run.world.ledger, plan.tradeId) == Some(found);
    var saved, more := RecoverSucceeds(cfg, uuid, run.world, found, plan.recommended.action, RECOVERY_NOTE, now);
    hide Find;
    RecoveredLeavesList(run.world.ledger, run.world.log, more, reports, saved, symbol, onlyActionable);
    PutKeepsUnique(run.world.ledger, saved);
    var plans := earlier + [plan];
    forall id ensures HasPlan(plans, id) <==> HasPlan(earlier, id) || id == plan.tradeId {
      assert plan in plans && forall p :: p in plans <==> p in earlier || p == plan;
    }
    forall id ensures Find(Put(run.world.ledger, saved), id) == if id == saved.tradeId then Some(saved)
        else Find(run.world.ledger, id) {
      FindPut(run.world.ledger, saved, id);
    }
    FilterTwice(Plans(w.ledger, w.log, reports, symbol, onlyActionable), Untouched(earlier), OtherTrade(saved.tradeId),
                Untouched(plans));
  }

  // ---- the planner's own run --------------------------------------------------------------------------

  lemma PlanSource(ledger: seq<TradeLedgerRecord>, log: seq<AuditEventRecord>, reports: seq<ExchangeOrderReport>,
                   symbol: Option<string>, onlyActionable: bool, plan: RecoveryPlan)
    returns (r: TradeLedgerRecord)
    requires UniqueIds(ledger) && plan in Plans(ledger, log, reports, symbol, onlyActionable)
    ensures Find(ledger, plan.tradeId) == Some(r) && NeedsRecovery(r.status)
         && (symbol.Some? ==> r.symbol == symbol.value)
    ensures plan == DirectPlan(r, Timeline(log), LatestByOrder(reports))
    ensures onlyActionable ==> plan.autoExecutable
  {
    var candidates := Candidates(ledger, log, reports, None, false);
    var f := ListedPlan(Timeline(log), candidates, symbol, onlyActionable);
    RecoveryOrder();
    SortSorts(Gather(ledger, f), RecoveryLe);
    var i := GatherSource(ledger, f, plan);
    r := ledger[i];
    FindUnique(ledger, r);
    hide Timeline, Candidates, PlanOf, Find, DirectPlan;
    PlanNames(r, Timeline(log), candidates);
    PlanIsDirect(ledger, log, reports, r);
  }

  /** The actionable list holds exactly the recoverable trades whose plan is automatic. */
  lemma PlanListed(ledger: seq<TradeLedgerRecord>, log: seq<AuditEventRecord>, reports: seq<ExchangeOrderReport>,
                   symbol: Option<string>, onlyActionable: bool, r: TradeLedgerRecord)
    requires UniqueIds(ledger) && r in ledger && Recoverable(r, symbol)
    requires onlyActionable ==> DirectPlan(r, Timeline(log), LatestByOrder(reports)).autoExecutable
    ensures DirectPlan(r, Timeline(log), LatestByOrder(reports)) in Plans(ledger, log, reports, symbol, onlyActionable)
  {
    hide Timeline, Candidates, PlanOf, DirectPlan;
    var f := ListedPlan(Timeline(log), Candidates(ledger, log, reports, None, false), symbol, onlyActionable);
    PlanIsDirect(ledger, log, reports, r);
    var i :| 0 <= i < |ledger| && ledger[i] == r;
    GatherContains(ledger, f, i);
    RecoveryOrder();
    SortSorts(Gather(ledger, f), RecoveryLe);
  }

  lemma PlansDoNotRepeat(ledger: seq<TradeLedgerRecord>, log: seq<AuditEventRecord>, reports: seq<ExchangeOrderReport>,
                         symbol: Option<string>, onlyActionable: bool)
    requires UniqueIds(ledger)
    ensures NoRepeats(Plans(ledger, log, reports, symbol, onlyActionable))
  {
    hide Timeline, Candidates;
    var candidates := Candidates(ledger, log, reports, None, false);
    var f := ListedPlan(Timeline(log), candidates, symbol, onlyActionable);
    forall r | r in ledger ensures f(r).Some? ==> f(r).value.tradeId == r.tradeId {
      PlanNames(r, Timeline(log), candidates);
    }
    hide PlanOf;
    GatherNoRepeats(ledger, f);
    RecoveryOrder();
    SortKeepsNoRepeats(Gather(ledger, f), RecoveryLe);
  }

  lemma PlansAreOfDistinctTrades(ledger: seq<TradeLedgerRecord>, log: seq<AuditEventRecord>,
                                 reports: seq<ExchangeOrderReport>, symbol: Option<string>, onlyActionable: bool)
    requires UniqueIds(ledger)
    ensures var plans := Plans(ledger, log, reports, symbol, onlyActionable);
            forall i, j :: 0 <= i < j < |plans| ==> plans[i].tradeId != plans[j].tradeId
  {
    PlansDoNotRepeat(ledger, log, reports, symbol, onlyActionable);
    var plans := Plans(ledger, log, reports, symbol, onlyActionable);
    hide Plans, DirectPlan, Find, Timeline, LatestByOrder;
    forall i, j | 0 <= i < j < |plans| ensures plans[i].tradeId != plans[j].tradeId {
      var a := PlanSource(ledger, log, reports, symbol, onlyActionable, plans[i]);
      var b := PlanSource(ledger, log, reports, symbol, onlyActionable, plans[j]);
    }
  }

  /** Filtering and cutting keep trades distinct. */
  lemma {:induction false} FilterKeepsDistinct(plans: seq<RecoveryPlan>, keep: RecoveryPlan -> bool)
    requires forall i, j :: 0 <= i < j < |plans| ==> plans[i].tradeId != plans[j].tradeId
    ensures var kept := Filter(plans, keep); forall i, j :: 0 <= i < j < |kept| ==> kept[i].tradeId != kept[j].tradeId
  {
    if plans != [] {
      var rest := plans[1..];
      FilterKeepsDistinct(rest, keep);
      FilterMembers(rest, keep);
      var kept, keptRest := Filter(plans, keep), Filter(rest, keep);
      forall i, j | 0 <= i < j < |kept| ensures kept[i].tradeId != kept[j].tradeId {
        if keep(plans[0]) {
          assert kept[j] == keptRest[j - 1] && keptRest[j - 1] in rest;
          if i > 0 { assert kept[i] == keptRest[i - 1]; }
        } else {
          assert kept == keptRest;
        }
      }
    }
  }

  lemma ChosenPlansAreExecutable(ledger: seq<TradeLedgerRecord>, log: seq<AuditEventRecord>,
                                 reports: seq<ExchangeOrderReport>,
                                 symbol: Option<string>, tradeIds: Option<set<string>>, limit: Option<nat>)
    requires UniqueIds(ledger)
    ensures Executable(ledger, ChosenPlans(ledger, log, reports, symbol, tradeIds, limit))
  {
    PlansAreOfDistinctTrades(ledger, log, reports, symbol, true);
    var all := Plans(ledger, log, reports, symbol, true);
    hide Plans, DirectPlan, Find, Timeline, LatestByOrder;
    FilterKeepsDistinct(all, WithIds(tradeIds));
    FilterMembers(all, WithIds(tradeIds));
    var chosen := ChosenPlans(ledger, log, reports, symbol, tradeIds, limit);
    forall p | p in chosen
      ensures p.recommended.Resume? && Find(ledger, p.tradeId).Some?
           && NeedsRecovery(Find(ledger, p.tradeId).value.status)
    {
      assert p in all;
      var r := PlanSource(ledger, log, reports, symbol, true, p);
      AutomaticPlans(r, Timeline(log), LatestByOrder(reports));
    }
  }

  /** One run executes every plan it takes and skips nothing; afterwards the plans of the
      executed trades are gone from every listing, and every other plan is unchanged. */
  lemma RecoveryDrains(cfg: ExecutionConfig, uuid: Ids, w: World, reports: seq<ExchangeOrderReport>,
                       symbol: Option<string>, tradeIds: Option<set<string>>, limit: Option<nat>, clock: nat -> Time,
                       view: Option<string>, onlyActionable: bool)
    requires UniqueIds(w.ledger)
    ensures var plans := ChosenPlans(w.ledger, w.log, reports, symbol, tradeIds, limit);
            var run := RunRecoveries(cfg, uuid, w, plans, clock);
            && AnswersPlans(run, plans) && OthersUnchanged(w.ledger, run, plans)
            && PlansShrank(w, run, reports, plans, view, onlyActionable)
  {
    ChosenPlansAreExecutable(w.ledger, w.log, reports, symbol, tradeIds, limit);
    RecoveriesRun(cfg, uuid, w, reports, ChosenPlans(w.ledger, w.log, reports, symbol, tradeIds, limit), view,
                  onlyActionable, clock);
  }

  /** The queue shrinks from the front by exactly min(limit, length): what is left is the
      tail of the list as it was. */
  lemma RecoveryCountsDown(cfg: ExecutionConfig, uuid: Ids, w: World, reports: seq<ExchangeOrderReport>,
                           symbol: Option<string>, limit: Option<nat>, clock: nat -> Time)
    requires UniqueIds(w.ledger)
    ensures var queue := Plans(w.ledger, w.log, reports, symbol, true);
            var taken := if limit.Some? && limit.value < |queue| then limit.value else |queue|;
            var run := RunRecoveries(cfg, uuid, w, ChosenPlans(w.ledger, w.log, reports, symbol, None, limit), clock);
            && |run.results| == taken && run.skipped == []
            && Plans(run.world.ledger, run.world.log, reports, symbol, true) == queue[taken..]
  {
    var queue := Plans(w.ledger, w.log, reports, symbol, true);
    RecoveryDrains(cfg, uuid, w, reports, symbol, None, limit, clock, symbol, true);
    PlansAreOfDistinctTrades(w.ledger, w.log, reports, symbol, true);
    hide Plans, RunRecoveries;
    FilterAll(queue, WithIds(None));
    var plans := ChosenPlans(w.ledger, w.log, reports, symbol, None, limit);
    assert plans == queue[..|plans|];
    UntouchedIsTheTail(queue, |plans|);
  }

  lemma UntouchedIsTheTail(queue: seq<RecoveryPlan>, n: nat)
    requires n <= |queue| && forall i, j :: 0 <= i < j < |queue| ==> queue[i].tradeId != queue[j].tradeId
    ensures Filter(queue, Untouched(queue[..n])) == queue[n..]
  {
    assert queue == queue[..n] + queue[n..];
    forall p, q | p in queue[..n] && q in queue[n..] ensures p.tradeId != q.tradeId {
      var i :| 0 <= i < n && queue[i] == p;
      var j :| n <= j < |queue| && queue[j] == q;
    }
    UntouchedAreTheOthers(queue[..n], queue[n..]);
  }

  lemma UntouchedAreTheOthers(front: seq<RecoveryPlan>, tail: seq<RecoveryPlan>)
    requires forall p, q :: p in front && q in tail ==> p.tradeId != q.tradeId
    ensures Filter(front + tail, Untouched(front)) == tail
  {
    FilterNone(front, Untouched(front));
    FilterAll(tail, Untouched(front));
    FilterAppend(front, tail, Untouched(front));
    assert [] + tail == tail;
  }

  // ---- runs over any plans ------------------------------------------------------------------------

  /** Whatever the plans and the ledger are, a recovery run never stops and answers every plan
      once: with a result when the plan names an action and its trade still needs recovery, by
      skipping it otherwise. */
  lemma {:induction false} RecoveryNeverStops(cfg: ExecutionConfig, uuid: Ids, w: World, plans: seq<RecoveryPlan>,
                                              clock: nat -> Time)
    ensures var run := RunRecoveries(cfg, uuid, w, plans, clock);
            run.stopped.None? && |run.results| + |run.skipped| == |plans|
  {
    hide Recover;
    if plans != [] {
      var n := |plans| - 1;
      RecoveryNeverStops(cfg, uuid, w, plans[..n], clock);
      PlanIsAnswered(cfg, uuid, RunRecoveries(cfg, uuid, w, plans[..n], clock), plans[n], clock(n));
    }
  }

  lemma PlanIsAnswered(cfg: ExecutionConfig, uuid: Ids, run: RecoveryRun, plan: RecoveryPlan, now: Time)
    requires run.stopped.None?
    ensures var next := RunRecovery(cfg, uuid, run, plan, now);
            var found := Find(run.world.ledger, plan.tradeId);
            && next.stopped.None?
            && if plan.recommended.Resume? && found.Some? && found.value.status in {Failed, RecoveryPending} then
                 && next.skipped == run.skipped && |next.results| == |run.results| + 1
                 && next.results[..|run.results|] == run.results
                 && next.results[|run.results|].tradeId == plan.tradeId
               else next == run.(skipped := run.skipped + [plan.tradeId])
  {
    hide Put;
    EmitNone(uuid, run.world.log);
  }
}
