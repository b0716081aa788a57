/** What a run of safe actions does to the trades: rebalances settle hedged trades, and a
    resume is carried out exactly when the syncs before it left its orders filled. */
module CompensationRuns {
  import opened Options
  import opened Lists
  import opened Ledger
  import opened Audit
  import opened CircuitBreaker
  import opened Execution
  import opened ExecutionRuns
  import opened TradeLifecycle
  import opened ExchangeReports
  import opened Exposure
  import opened Reconciliation
  import opened ReportSync
  import Recovery
  import RecoveryDrain
  import Hedge
  import HedgeDrain
  import opened Compensation
  import opened CompensationSafety

  /** A rebalance plan is only ever executed for a hedged trade, which it settles; a plan that
      is not executed leaves the ledger as it was. */
  lemma RebalanceNeedsHedged(cfg: ExecutionConfig, uuid: Ids, run: CompensationRun, plan: CompensationPlan,
                             r: TradeLedgerRecord, limitBps: real, now: Time)
    requires run.stopped.None? && limitBps >= 0.0 && Find(run.world.ledger, r.tradeId) == Some(r)
    requires Hedge.WantsRebalance(Hedge.PlanFor(r, limitBps)) && plan.tradeId == r.tradeId
    requires plan.suggestedDelta == Hedge.PlanFor(r, limitBps).suggestedDelta
    ensures var next := RunRebalance(cfg, uuid, run, plan, now);
            next.stopped.None? ==>
              && plan.tradeId in next.items
              && (next.items[plan.tradeId].outcome == Hedge.Executed ==>
                    && r.status == Hedged && Find(next.world.ledger, r.tradeId).Some?
                    && HedgeDrain.Settled(Find(next.world.ledger, r.tradeId).value, limitBps))
              && (next.items[plan.tradeId].outcome != Hedge.Executed ==> next.world.ledger == run.world.ledger)
  {
    hide Rebalance, Hedge.ExposureBps, Hedge.PerpQuantity, HedgeDrain.Settled;
    var quantity := RebalanceQuantity(run.stored, plan);
    if quantity.Some? {
      RebalanceSettles(cfg, uuid, run.world, r, limitBps, quantity.value, now);
    }
  }

  lemma RebalanceSettles(cfg: ExecutionConfig, uuid: Ids, w: World, r: TradeLedgerRecord, limitBps: real,
                         quantity: real, now: Time)
    requires limitBps >= 0.0 && Find(w.ledger, r.tradeId) == Some(r)
    requires Hedge.WantsRebalance(Hedge.PlanFor(r, limitBps))
    ensures var step := Rebalance(cfg, uuid, w, r.tradeId, Hedge.PlanFor(r, limitBps).suggestedDelta, quantity,
                                  COMPENSATION_NOTE, now);
            && (step.outcome.Raised? ==> step.world.ledger == w.ledger)
            && (step.outcome.Returned? ==>
                  && r.status == Hedged && Find(step.world.ledger, r.tradeId).Some?
                  && HedgeDrain.Settled(Find(step.world.ledger, r.tradeId).value, limitBps))
  {
    var delta := Hedge.PlanFor(r, limitBps).suggestedDelta;
    assert r.status != Open;
    hide Hedge.ExposureBps;
    var saved := HedgeDrain.RebalanceLedger(cfg, uuid, w, r, delta, quantity, COMPENSATION_NOTE, now);
    PlannedRebalanceNeutralises(r, COMPENSATION_NOTE);
    if saved.Some? {
      FindPut(w.ledger, saved.value, r.tradeId);
      if saved == Some(Rebalanced(r, PlannedDelta(r), COMPENSATION_NOTE)) {
        HedgeDrain.NeutralIsFine(saved.value, limitBps);
      }
    }
  }

  // ---- rebalances do not disturb the other trades -----------------------------------------------

  lemma RebalanceIsLocal(cfg: ExecutionConfig, uuid: Ids, w: World, tradeId: string, delta: real, quantity: real,
                         notes: Option<string>, now: Time)
    returns (more: seq<AuditEventRecord>)
    ensures var after := Rebalance(cfg, uuid, w, tradeId, delta, quantity, notes, now).world;
            && after.log == w.log + more
            && (UniqueIds(w.ledger) ==> UniqueIds(after.ledger))
            && forall id :: id != tradeId ==> Find(after.ledger, id) == Find(w.ledger, id)
    ensures forall e :: e in more ==> !CarriesOrder(e)
  {
    hide Rebalance;
    var call := RebalanceCall(tradeId, delta, quantity, notes, now);
    var tail := StepIsBody(cfg, uuid, w, call);
    var body := BodyOf(cfg, w, call);
    more := Stamped(uuid, |w.log|, body.drafts + tail);
    SavesItsOwnTrade(cfg, w, call);
    RebalanceIsQuiet(cfg, w, tradeId, delta, quantity, notes, now);
    hide BodyOf, Put, Find, UniqueIds;
    if body.saved.Some? {
      PutKeepsOthers(w.ledger, body.saved.value);
    }
  }

  lemma RebalanceIsQuiet(cfg: ExecutionConfig, w: World, tradeId: string, delta: real, quantity: real,
                         notes: Option<string>, now: Time)
    ensures forall d :: d in BodyOf(cfg, w, RebalanceCall(tradeId, delta, quantity, notes, now)).drafts ==>
              d.kind.LiveLeg? ==> d.kind.phase == RebalancePhase
  {
    hide Rebalanced;
  }

  lemma PutKeepsOthers(ledger: seq<TradeLedgerRecord>, record: TradeLedgerRecord)
    ensures UniqueIds(ledger) ==> UniqueIds(Put(ledger, record))
    ensures forall id :: id != record.tradeId ==> Find(Put(ledger, record), id) == Find(ledger, id)
  {
    if UniqueIds(ledger) {
      PutKeepsUnique(ledger, record);
    }
    forall id | id != record.tradeId ensures Find(Put(ledger, record), id) == Find(ledger, id) {
      FindPut(ledger, record, id);
    }
  }

  /** Only events that carry an order matter to the expected orders. */
  lemma {:induction false} ExpectedFromCarriers(events: seq<AuditEventRecord>, tradeId: string)
    ensures ExpectedOrders(events, tradeId) == ExpectedOrders(Filter(events, CarriesOrder), tradeId)
  {
    hide CarriesOrder;
    if events != [] {
      var n := |events| - 1;
      ExpectedFromCarriers(events[..n], tradeId);
      RecoveryDrain.FilterLast(events, CarriesOrder);
      var carriers := Filter(events[..n], CarriesOrder);
      assert (carriers + [events[n]])[..|carriers|] == carriers && carriers + [] == carriers;
    }
  }

  lemma QuietEventsKeepOrders(log: seq<AuditEventRecord>, more: seq<AuditEventRecord>, tradeId: string)
    requires forall e :: e in more ==> !CarriesOrder(e)
    ensures ExpectedOrders(Timeline(log + more), tradeId) == ExpectedOrders(Timeline(log), tradeId)
  {
    hide CarriesOrder, Timeline;
    FilterAppend(log, more, CarriesOrder);
    FilterNone(more, CarriesOrder);
    assert Filter(log, CarriesOrder) + [] == Filter(log, CarriesOrder);
    TimelineFilter(log, CarriesOrder);
    TimelineFilter(log + more, CarriesOrder);
    ExpectedFromCarriers(Timeline(log), tradeId);
    ExpectedFromCarriers(Timeline(log + more), tradeId);
  }

  predicate Rebalances(plans: seq<CompensationPlan>, tradeId: string)
  {
    exists p :: p in plans && p.tradeId == tradeId && p.action == RebalanceTrade
  }

  /** Before recovery starts: no trade without a rebalance plan has changed, and no expected
      order has come or gone. */
  ghost predicate OthersKept(w: World, run: CompensationRun, plans: seq<CompensationPlan>)
  {
    && UniqueIds(run.world.ledger)
    && (forall id :: !Rebalances(plans, id) ==> Find(run.world.ledger, id) == Find(w.ledger, id))
    && (forall id :: ExpectedOrders(Timeline(run.world.log), id) == ExpectedOrders(Timeline(w.log), id))
  }

  predicate WaitingAreResumes(run: CompensationRun, plans: seq<CompensationPlan>)
  {
    run.waiting == Filter(plans, IsResume())
  }

  function IsResume(): CompensationPlan -> bool
  {
    (p: CompensationPlan) => p.action.ResumeTrade?
  }

  lemma {:induction false} ActionsKeepOthers(cfg: ExecutionConfig, uuid: Ids, w: World,
                                             stored: seq<ExchangeOrderReport>,
                                             plans: seq<CompensationPlan>, client: Client, ids: nat -> string,
                                             clock: nat -> Time)
    requires UniqueIds(w.ledger)
    ensures var run := RunActions(cfg, uuid, w, stored, plans, client, ids, clock);
            OthersKept(w, run, plans) && (run.stopped.None? ==> WaitingAreResumes(run, plans))
  {
    if plans != [] {
      var n := |plans| - 1;
      ActionsKeepOthers(cfg, uuid, w, stored, plans[..n], client, ids, clock);
      var run := RunActions(cfg, uuid, w, stored, plans[..n], client, ids, clock);
      assert plans == plans[..n] + [plans[n]];
      RecoveryDrain.FilterLast(plans, IsResume());
      assert run.waiting + [] == run.waiting;
      hide OthersKept;
      ActionKeepsOthers(cfg, uuid, w, run, plans[..n], plans[n], client, ids, clock(n));
    }
  }

  lemma ActionKeepsOthers(cfg: ExecutionConfig, uuid: Ids, w: World, run: CompensationRun, plans: seq<CompensationPlan>,
                          plan: CompensationPlan, client: Client, ids: nat -> string, now: Time)
    requires OthersKept(w, run, plans)
    ensures var next := RunAction(cfg, uuid, run, plan, client, ids, now);
            && OthersKept(w, next, plans + [plan])
            && (next.stopped.None? ==> next.waiting == run.waiting + if plan.action.ResumeTrade? then [plan] else [])
  {
    hide Rebalance, SyncTrade, Find, UniqueIds, ExpectedOrders, Timeline, RebalanceQuantity;
    assert plan in plans + [plan] && forall p :: p in plans ==> p in plans + [plan];
    forall id ensures Rebalances(plans + [plan], id)
                 <==> Rebalances(plans, id) || (plan.tradeId == id && plan.action == RebalanceTrade) {
    }
    var quantity := RebalanceQuantity(run.stored, plan);
    if run.stopped.None? && plan.action == RebalanceTrade && quantity.Some? {
      var more := RebalanceIsLocal(cfg, uuid, run.world, plan.tradeId, plan.suggestedDelta, quantity.value,
                                   COMPENSATION_NOTE, now);
      forall id ensures ExpectedOrders(Timeline(run.world.log + more), id)
          == ExpectedOrders(Timeline(run.world.log), id) {
        QuietEventsKeepOrders(run.world.log, more, id);
      }
    }
  }

  /** Whether recovery executes a waiting trade is decided by the reports stored when it starts. */
  lemma ResumeIsExecutedIff(cfg: ExecutionConfig, uuid: Ids, w: World, run: CompensationRun,
                            plans: seq<CompensationPlan>, r: TradeLedgerRecord, clock: nat -> Time)
    requires UniqueIds(w.ledger) && OthersKept(w, run, plans) && run.stopped.None?
    requires r in w.ledger && r.mode == Live && NeedsRecovery(r.status) && !Rebalances(plans, r.tradeId)
    requires exists p :: p in run.waiting && p.tradeId == r.tradeId
    ensures var chosen := Recovery.ChosenPlans(run.world.ledger, run.world.log, run.stored, None,
                                               Some(TradeIds(run.waiting)), None);
            var recovery := Recovery.RunRecoveries(cfg, uuid, run.world, chosen, clock);
            var expected, index := ExpectedOrders(Timeline(w.log), r.tradeId), LatestByOrder(run.stored);
            && recovery.stopped.None?
            && (RecoveryOutcome(recovery, r.tradeId) == Hedge.Executed <==>
                  && expected != []
                  && forall id :: id in expected ==> id in index && Normalize(index[id].status) == NormalFilled)
            && RecoveryOutcome(recovery, r.tradeId) != Hedge.Skipped
  {
    hide Timeline, LatestByOrder, ExpectedOrders, Normalize, RecoveryDrain.DirectPlan, Recovery.Plans,
         Recovery.RunRecoveries;
    var ledger, log := run.world.ledger, run.world.log;
    var events, index := Timeline(log), LatestByOrder(run.stored);
    FindUnique(w.ledger, r);
    FindBelongs(ledger, r.tradeId);
    RecoveryDrain.AutomaticPlans(r, events, index);
    var wanted := Some(TradeIds(run.waiting));
    var all := Recovery.Plans(ledger, log, run.stored, None, true);
    FilterMembers(all, Recovery.WithIds(wanted));
    var chosen := Recovery.ChosenPlans(ledger, log, run.stored, None, wanted, None);
    RecoveryDrain.RecoveryDrains(cfg, uuid, run.world, run.stored, None, wanted, None, clock, None, true);
    var recovery := Recovery.RunRecoveries(cfg, uuid, run.world, chosen, clock);
    hide OthersKept;
    if RecoveryDrain.DirectPlan(r, events, index).autoExecutable {
      RecoveryDrain.PlanListed(ledger, log, run.stored, None, true, r);
      var plan := RecoveryDrain.DirectPlan(r, events, index);
      assert plan in chosen;
      var i :| 0 <= i < |chosen| && chosen[i] == plan;
      assert recovery.results[i].tradeId == r.tradeId;
      assert recovery.results[i] in recovery.results;
    } else if HasResult(recovery.results, r.tradeId) {
      var i :| 0 <= i < |recovery.results| && recovery.results[i].tradeId == r.tradeId;
      assert chosen[i] in all;
      var source := RecoveryDrain.PlanSource(ledger, log, run.stored, None, true, chosen[i]);
      assert false;
    }
  }

  lemma {:induction false} RecoveredItem(items: map<string, CompensationItem>, waiting: seq<CompensationPlan>,
                                         recovery: Recovery.RecoveryRun, p: CompensationPlan)
    requires p in waiting
    ensures var merged := WithRecovered(items, waiting, recovery);
            p.tradeId in merged && merged[p.tradeId].outcome == RecoveryOutcome(recovery, p.tradeId)
  {
    hide RecoveryOutcome;
    var n := |waiting| - 1;
    assert waiting == waiting[..n] + [waiting[n]];
    if p in waiting[..n] {
      RecoveredItem(items, waiting[..n], recovery, p);
    }
  }

  predicate AllReportedFilled(log: seq<AuditEventRecord>, reports: seq<ExchangeOrderReport>, tradeId: string)
  {
    var index := LatestByOrder(reports);
    forall id :: id in ExpectedOrders(Timeline(log), tradeId)
        ==> id in index && Normalize(index[id].status) == NormalFilled
  }

  /** A run of the listed safe actions that returns executes a resume if and only if, after
      the syncs of the run, the latest report of every order of the trade is filled. */
  lemma ResumesFollowTheReports(cfg: ExecutionConfig, uuid: Ids, w: World, stored: seq<ExchangeOrderReport>,
                                symbol: Option<string>, limit: Option<nat>, limitBps: real, client: Client,
                                ids: nat -> string, clock: nat -> Time, recoveryClock: nat -> Time, p: CompensationPlan)
    requires UniqueIds(w.ledger)
    requires p in Take(Plans(w.ledger, w.log, stored, symbol, true, limitBps), limit) && p.action.ResumeTrade?
    ensures var plans := Take(Plans(w.ledger, w.log, stored, symbol, true, limitBps), limit);
            var acted := RunActions(cfg, uuid, w, stored, plans, client, ids, clock);
            var run := SafeRun(cfg, uuid, w, stored, plans, client, ids, clock, recoveryClock);
            run.stopped.None? ==>
              && p.tradeId in run.items
              && (run.items[p.tradeId].outcome == Hedge.Executed <==> AllReportedFilled(w.log, acted.stored, p.tradeId))
  {
    hide Plans, RunActions, Recovery.RunRecoveries, Recovery.ChosenPlans, Timeline, LatestByOrder, ExpectedOrders,
         Normalize, WithRecovered, Recovery.Plans, PlanOf, RecoveryOutcome, Find, OthersKept;
    var all := Plans(w.ledger, w.log, stored, symbol, true, limitBps);
    var plans := Take(all, limit);
    var acted := RunActions(cfg, uuid, w, stored, plans, client, ids, clock);
    var r := PlanSource(w.ledger, w.log, stored, symbol, true, limitBps, p);
    ActionablePlansAreSafe(w.ledger, w.log, stored, symbol, limitBps, p);
    ListedPlansAgree(w.ledger, w.log, stored, symbol, true, limitBps);
    ActionsKeepOthers(cfg, uuid, w, stored, plans, client, ids, clock);
    PlanOfStatus(r, Candidates(w.ledger, w.log, stored, symbol, false),
                 Recovery.Plans(w.ledger, w.log, stored, symbol, false), limitBps);
    if acted.stopped.None? {
      FilterMembers(plans, IsResume());
      ResumeIsExecutedIff(cfg, uuid, w, acted, plans, r, recoveryClock);
      var chosen := Recovery.ChosenPlans(acted.world.ledger, acted.world.log, acted.stored, None,
                                         Some(TradeIds(acted.waiting)), None);
      RecoveredItem(acted.items, acted.waiting, Recovery.RunRecoveries(cfg, uuid, acted.world, chosen, recoveryClock),
                    p);
    }
  }

  lemma PlanOfStatus(r: TradeLedgerRecord, candidates: seq<ReconciliationCandidate>,
                     recoveries: seq<Recovery.RecoveryPlan>, limitBps: real)
    ensures PlanOf(r, r, candidates, recoveries, limitBps).status == r.status
    ensures PlanOf(r, r, candidates, recoveries, limitBps).tradeId == r.tradeId
  {
  }

  lemma {:induction false} NoSyncNoNews(cfg: ExecutionConfig, uuid: Ids, w: World, stored: seq<ExchangeOrderReport>,
                                        plans: seq<CompensationPlan>, client: Client, ids: nat -> string,
                                        clock: nat -> Time)
    requires forall p :: p in plans ==> p.action != SyncReports
    ensures RunActions(cfg, uuid, w, stored, plans, client, ids, clock).stored == stored
  {
    hide Rebalance, RebalanceQuantity;
    if plans != [] {
      NoSyncNoNews(cfg, uuid, w, stored, plans[..|plans| - 1], client, ids, clock);
    }
  }

  /** In a batch without syncs every resume is executed. */
  lemma ResumesAloneAreExecuted(cfg: ExecutionConfig, uuid: Ids, w: World, stored: seq<ExchangeOrderReport>,
                                symbol: Option<string>, limit: Option<nat>, limitBps: real, client: Client,
                                ids: nat -> string, clock: nat -> Time, recoveryClock: nat -> Time, p: CompensationPlan)
    requires UniqueIds(w.ledger)
    requires var plans := Take(Plans(w.ledger, w.log, stored, symbol, true, limitBps), limit);
             p in plans && p.action.ResumeTrade? && forall q :: q in plans ==> q.action != SyncReports
    ensures var plans := Take(Plans(w.ledger, w.log, stored, symbol, true, limitBps), limit);
            var run := SafeRun(cfg, uuid, w, stored, plans, client, ids, clock, recoveryClock);
            run.stopped.None? ==> p.tradeId in run.items && run.items[p.tradeId].outcome == Hedge.Executed
  {
    hide Plans, RunActions, SafeRun, Timeline, LatestByOrder, ExpectedOrders, Normalize;
    ActionablePlansAreSafe(w.ledger, w.log, stored, symbol, limitBps, p);
    NoSyncNoNews(cfg, uuid, w, stored, Take(Plans(w.ledger, w.log, stored, symbol, true, limitBps), limit), client, ids,
                 clock);
    ResumesFollowTheReports(cfg, uuid, w, stored, symbol, limit, limitBps, client, ids, clock, recoveryClock, p);
  }

  // ---- syncs and idle plans ------------------------------------------------------------------------

  /** A plan that asks for nothing, or for an operator, is skipped. */
  lemma IdlePlansAreSkipped(cfg: ExecutionConfig, uuid: Ids, run: CompensationRun, plan: CompensationPlan,
                            client: Client, ids: nat -> string, now: Time)
    requires run.stopped.None? && plan.action in {Nothing, CompensationAction.ManualReview}
    ensures RunAction(cfg, uuid, run, plan, client, ids, now)
         == run.(items := run.items[plan.tradeId := CompensationItem(plan.tradeId, plan.action, Hedge.Skipped)])
  {
  }

  /** A sync plan of a live trade, against a client that answers with the orders it is asked
      about, is executed and leaves none of the trade's expected orders without a report; any
      trade's stored orders stay. */
  lemma SyncLands(cfg: ExecutionConfig, uuid: Ids, run: CompensationRun, plan: CompensationPlan, client: Client,
                  ids: nat -> string, now: Time)
    requires run.stopped.None? && plan.action == SyncReports
    ensures var next := RunAction(cfg, uuid, run, plan, client, ids, now);
            && next.world == run.world && OrderIds(run.stored) <= OrderIds(next.stored)
            && var found := Find(run.world.ledger, plan.tradeId);
               Echoes(client) && found.Some? && found.value.mode == Live ==>
                 && next.stopped.None? && next.items == run.items[plan.tradeId := ItemFor(plan, Hedge.Executed)]
                 && NoGap(run.world.log, next.stored, plan.tradeId)
  {
    SyncTradeKeepsOrders(run.world.ledger, run.world.log, run.stored, plan.tradeId, client, ids, run.asked);
    var found := Find(run.world.ledger, plan.tradeId);
    if Echoes(client) && found.Some? && found.value.mode == Live {
      SyncTradeClosesGap(run.world.ledger, run.world.log, run.stored, plan.tradeId, client, ids, run.asked);
    }
    hide SyncTrade, NoGap, OrderIds;
  }

  /** A run that returns leaves every stored order stored, whatever it syncs and rebalances. */
  lemma {:induction false} ActionsKeepStoredOrders(cfg: ExecutionConfig, uuid: Ids, w: World,
                                                   stored: seq<ExchangeOrderReport>, plans: seq<CompensationPlan>,
                                                   client: Client, ids: nat -> string, clock: nat -> Time)
    ensures OrderIds(stored) <= OrderIds(RunActions(cfg, uuid, w, stored, plans, client, ids, clock).stored)
  {
    hide OrderIds, Rebalance, RebalanceQuantity, SyncTrade;
    if plans != [] {
      var n := |plans| - 1;
      ActionsKeepStoredOrders(cfg, uuid, w, stored, plans[..n], client, ids, clock);
      var run := RunActions(cfg, uuid, w, stored, plans[..n], client, ids, clock);
      SyncTradeKeepsOrders(run.world.ledger, run.world.log, run.stored, plans[n].tradeId, client, ids, run.asked);
    }
  }

  /** Only an exception that is no `ValueError`, of a query or of the orchestrator, stops a run;
      it is passed on as it is, and the plan gets no item. */
  lemma OtherErrorsStop(cfg: ExecutionConfig, uuid: Ids, run: CompensationRun, plan: CompensationPlan, client: Client,
                        ids: nat -> string, now: Time)
    requires run.stopped.None?
    ensures var next := RunAction(cfg, uuid, run, plan, client, ids, now);
            var sync := SyncTrade(run.world.ledger, run.world.log, run.stored, plan.tradeId, client, ids, run.asked);
            var quantity := RebalanceQuantity(run.stored, plan);
            var rebalance := Rebalance(cfg, uuid, run.world, plan.tradeId, plan.suggestedDelta,
                                       if quantity.Some? then quantity.value else 0.0, COMPENSATION_NOTE, now);
            var error := if plan.action == SyncReports && sync.outcome.Raised? then Some(sync.outcome.error)
                         else if plan.action == RebalanceTrade && quantity.Some? && rebalance.outcome.Raised?
                         then Some(rebalance.outcome.error) else None;
            && next.stopped == (if error.Some? && error.value.OtherError? then error else None)
            && (next.stopped.Some? ==> next.items == run.items)
            && (error.Some? && error.value.ValueError? ==>
                  next.items == run.items[plan.tradeId := ItemFor(plan, Hedge.NotExecuted)])
  {
    hide SyncTrade, Rebalance, RebalanceQuantity;
  }
}
