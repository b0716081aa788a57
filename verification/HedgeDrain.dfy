/** Rebalancing drains its own queue, and every executed plan keeps its promise. */
module HedgeDrain {
  import opened Options
  import opened Lists
  import opened Decimals
  import opened Ledger
  import opened Audit
  import opened CircuitBreaker
  import opened Execution
  import opened ExchangeReports
  import opened Exposure
  import opened Hedge
  import CallBooking

  /** A record no hedge plan asks to rebalance again: neutral and healthy, or handed over
      to recovery. */
  predicate Settled(r: TradeLedgerRecord, limitBps: real)
  {
    || NeedsRecovery(r.status)
    || (r.status == Hedged && r.netExposure == 0.0 && PlanFor(r, limitBps).health == Fine)
  }

  /** A neutral hedged trade is healthy under every non-negative exposure limit. */
  lemma NeutralIsFine(r: TradeLedgerRecord, limitBps: real)
    requires r.netExposure == 0.0 && r.status == Hedged && limitBps >= 0.0
    ensures PlanFor(r, limitBps).health == Fine
  {
  }

  lemma SettledIsNoCandidate(r: TradeLedgerRecord, limitBps: real)
    requires Settled(r, limitBps)
    ensures !WantsRebalance(PlanFor(r, limitBps))
  {
  }

  /** What a rebalance call leaves in the ledger: nothing new if it raises; otherwise the
      rebalanced record, or the old amounts in a recovery status. */
  lemma RebalanceLedger(cfg: ExecutionConfig, uuid: Ids, w: World, found: TradeLedgerRecord, delta: real,
                        quantity: real, notes: Option<string>, now: Time)
    returns (saved: Option<TradeLedgerRecord>)
    requires Find(w.ledger, found.tradeId) == Some(found)
    ensures var step := Rebalance(cfg, uuid, w, found.tradeId, delta, quantity, notes, now);
            && (step.outcome.Raised? <==> saved.None?)
            && step.world.ledger == (if saved.Some? then Put(w.ledger, saved.value) else w.ledger)
    ensures saved.Some? ==>
              || saved.value == Rebalanced(found, delta, notes)
              || (NeedsRecovery(saved.value.status) && saved.value.tradeId == found.tradeId
                  && saved.value.symbol == found.symbol)
  {
    hide Rebalanced;
    if !Rebalancable(w, found.tradeId, delta, quantity) {
      saved := None;
    } else if found.mode == Paper {
      saved := Some(Rebalanced(found, delta, notes));
    } else {
      saved := ExchangeLedger(cfg, uuid, w, found, delta, quantity, notes, now);
    }
  }

  lemma ExchangeLedger(cfg: ExecutionConfig, uuid: Ids, w: World, found: TradeLedgerRecord, delta: real, quantity: real,
                       notes: Option<string>, now: Time)
    returns (saved: Option<TradeLedgerRecord>)
    ensures var step := RebalanceOnExchange(cfg, uuid, w, found, delta, quantity, notes, now);
            && (step.outcome.Raised? <==> saved.None?)
            && step.world.ledger == (if saved.Some? then Put(w.ledger, saved.value) else w.ledger)
    ensures saved.Some? ==>
              || saved.value == Rebalanced(found, delta, notes)
              || (NeedsRecovery(saved.value.status) && saved.value.tradeId == found.tradeId
                  && saved.value.symbol == found.symbol)
  {
    hide Rebalanced;
    var refused := !NotionalAllowed(cfg, found.symbol, Abs(delta)) || GateShut(cfg, w.journal, now) || !cfg.hasAdapter;
    saved := if refused then None else LiveRebalance(w, found, delta, quantity, notes, now).saved;
  }

  /** A live rebalance gets past every check before the exchange, and the exchange answers. */
  predicate ExchangeAnswers(cfg: ExecutionConfig, w: World, symbol: string, delta: real, now: Time)
  {
    && NotionalAllowed(cfg, symbol, Abs(delta))
    && !GateShut(cfg, w.journal, now)
    && cfg.hasAdapter
    && NextAnswer(w.script).Answers?
    && NextAnswer(w.script).reports != []
  }

  /** A rebalance call returns exactly when the trade may be rebalanced, the amounts are worth
      an order and, for a live trade, the exchange is reached and answers. */
  lemma RebalanceReturnsIff(cfg: ExecutionConfig, uuid: Ids, w: World, r: TradeLedgerRecord, delta: real,
                            quantity: real, notes: Option<string>, now: Time)
    requires Find(w.ledger, r.tradeId) == Some(r)
    ensures Rebalance(cfg, uuid, w, r.tradeId, delta, quantity, notes, now).outcome.Returned? <==>
              && r.status in {Hedged, Open} && quantity > 0.0 && delta != 0.0
              && (r.mode == Live ==> ExchangeAnswers(cfg, w, r.symbol, delta, now))
  {
    hide Rebalanced;
  }

  /** A plan is skipped exactly when there is nothing to order, and then nothing happens. */
  lemma RunPlanSkippedIff(cfg: ExecutionConfig, uuid: Ids, w: World, reports: seq<ExchangeOrderReport>,
                          plan: HedgeRebalancePlan, now: Time)
    ensures var price := ReferencePrice(reports, plan.tradeId);
            var run := RunPlan(cfg, uuid, w, reports, plan, now);
            && (run.items == [RebalanceItem(plan.tradeId, Skipped)] <==>
                  plan.suggestedDelta == 0.0 || price.None? || PerpQuantity(plan.suggestedDelta, price.value) <= 0.0)
            && (run.items == [RebalanceItem(plan.tradeId, Skipped)] ==> run.world == w)
  {
    hide Rebalance, PerpQuantity, ReferencePrice;
  }

  /** The quantity is worth the size at the price, to within half a unit of its sixth decimal. */
  predicate Worth(quantity: real, price: real, size: real)
  {
    -0.0000005 * price <= quantity * price - size <= 0.0000005 * price
  }

  /** The quantity ordered is worth the planned delta at the reference price, to within half a
      unit of the sixth decimal of it. */
  lemma OrderedQuantityIsWorthDelta(delta: real, price: real)
    requires price > 0.0
    ensures Worth(PerpQuantity(delta, price), price, if delta >= 0.0 then delta else -delta)
  {
    var exact := Abs(delta) / price;
    Quotient(Abs(delta), price);
    Round6Error(exact);
    hide Round6;
    Spread(Abs(delta), exact, PerpQuantity(delta, price), 0.0000005, price);
  }

  lemma Round6Error(x: real)
    ensures -0.0000005 <= Round6(x) - x <= 0.0000005
  {
  }

  lemma Spread(size: real, exact: real, rounded: real, bound: real, factor: real)
    requires -bound <= rounded - exact <= bound && factor > 0.0 && exact * factor == size
    ensures -bound * factor <= rounded * factor - size <= bound * factor
  {
    assert rounded * factor - exact * factor == (rounded - exact) * factor;
    assert (bound - (rounded - exact)) * factor >= 0.0 && (bound + (rounded - exact)) * factor >= 0.0;
  }

  /** A hedge plan is reported as executed exactly when there is a quantity to order, the trade
      is hedged and, for a live trade, the exchange is reached and answers. */
  lemma RunPlanExecutedIff(cfg: ExecutionConfig, uuid: Ids, w: World, reports: seq<ExchangeOrderReport>,
                           found: TradeLedgerRecord, limitBps: real, now: Time)
    requires Find(w.ledger, found.tradeId) == Some(found) && WantsRebalance(PlanFor(found, limitBps))
    ensures var plan := PlanFor(found, limitBps);
            var price := ReferencePrice(reports, found.tradeId);
            RunPlan(cfg, uuid, w, reports, plan, now).items == [RebalanceItem(found.tradeId, Executed)] <==>
              && found.status == Hedged && plan.suggestedDelta != 0.0
              && price.Some? && PerpQuantity(plan.suggestedDelta, price.value) > 0.0
              && (found.mode == Live ==> ExchangeAnswers(cfg, w, found.symbol, plan.suggestedDelta, now))
  {
    hide Rebalance, ExposureBps, PerpQuantity, ExchangeAnswers;
    var plan := PlanFor(found, limitBps);
    var price := ReferencePrice(reports, found.tradeId);
    assert found.status != Open;
    if price.Some? {
      var quantity := PerpQuantity(plan.suggestedDelta, price.value);
      RebalanceReturnsIff(cfg, uuid, w, found, plan.suggestedDelta, quantity, AUTO_NOTE, now);
    }
  }

  /** The call orders the delta on the exchange, at some average price of the trade's newest
      executed perp report. */
  ghost predicate OrdersExposure(reports: seq<ExchangeOrderReport>, found: TradeLedgerRecord, delta: real,
                                 call: AdapterCall)
  {
    && call.tradeId == found.tradeId && call.order.MovePerp? && call.order.symbol == found.symbol
    && (call.order.side == Sell <==> delta > 0.0) && (call.order.reduceOnly <==> delta < 0.0)
    && exists price, newest :: PriceOf(reports, found.tradeId, newest, price)
                               && Worth(call.order.quantity, price, if delta >= 0.0 then delta else -delta)
  }

  predicate PriceOf(reports: seq<ExchangeOrderReport>, tradeId: string, newest: ExchangeOrderReport, price: real)
  {
    IsNewestPerp(reports, tradeId, newest) && price * newest.executedQty == newest.cumQuoteQty
  }

  /** What carrying out a plan orders on the exchange, if anything: what the exposure is worth
      at the average price of the newest executed perp report, sold when the trade is short of
      perp and bought back when it has too much. */
  lemma RunPlanOrders(cfg: ExecutionConfig, uuid: Ids, w: World, reports: seq<ExchangeOrderReport>,
                      found: TradeLedgerRecord, limitBps: real, now: Time)
    requires Find(w.ledger, found.tradeId) == Some(found)
    ensures var calls := RunPlan(cfg, uuid, w, reports, PlanFor(found, limitBps), now).world.calls;
            calls != w.calls ==>
              && |calls| == |w.calls| + 1 && calls[..|w.calls|] == w.calls
              && OrdersExposure(reports, found, PlanFor(found, limitBps).suggestedDelta, calls[|w.calls|])
  {
    var plan := PlanFor(found, limitBps);
    PlanForId(found, limitBps);
    hide PlanFor, PerpQuantity, OrdersExposure, Rebalance, Find, ReferencePrice;
    if RunPlan(cfg, uuid, w, reports, plan, now).world.calls != w.calls {
      RunPlanRebalances(cfg, uuid, w, reports, plan, now);
      hide RunPlan;
      RebalanceOrdersExposure(cfg, uuid, w, reports, found, plan.suggestedDelta, now);
    }
  }

  lemma RebalanceOrdersExposure(cfg: ExecutionConfig, uuid: Ids, w: World, reports: seq<ExchangeOrderReport>,
                                found: TradeLedgerRecord, delta: real, now: Time)
    requires Find(w.ledger, found.tradeId) == Some(found) && delta != 0.0
    requires ReferencePrice(reports, found.tradeId).Some?
    ensures var quantity := PerpQuantity(delta, ReferencePrice(reports, found.tradeId).value);
            var calls := Rebalance(cfg, uuid, w, found.tradeId, delta, quantity, AUTO_NOTE, now).world.calls;
            calls != w.calls ==>
              && |calls| == |w.calls| + 1 && calls[..|w.calls|] == w.calls
              && OrdersExposure(reports, found, delta, calls[|w.calls|])
  {
    var price := ReferencePrice(reports, found.tradeId).value;
    ReferencePriceMeans(reports, found.tradeId);
    OrderedQuantityIsWorthDelta(delta, price);
    hide Rebalance, PerpQuantity, IsNewestPerp, Worth, CallBooking.AsksExchange, ReferencePrice;
    CallBooking.RebalanceOrders(cfg, uuid, w, found.tradeId, delta, PerpQuantity(delta, price), AUTO_NOTE, now);
    var newest :| IsNewestPerp(reports, found.tradeId, newest) && price * newest.executedQty == newest.cumQuoteQty;
    assert PriceOf(reports, found.tradeId, newest, price);
  }

  /** A plan that reaches the exchange is a rebalance by the quantity its delta is worth. */
  lemma RunPlanRebalances(cfg: ExecutionConfig, uuid: Ids, w: World, reports: seq<ExchangeOrderReport>,
                          plan: HedgeRebalancePlan, now: Time)
    requires RunPlan(cfg, uuid, w, reports, plan, now).world.calls != w.calls
    ensures plan.suggestedDelta != 0.0
    ensures var price := ReferencePrice(reports, plan.tradeId);
            && price.Some?
            && RunPlan(cfg, uuid, w, reports, plan, now).world
               == Rebalance(cfg, uuid, w, plan.tradeId, plan.suggestedDelta,
                            PerpQuantity(plan.suggestedDelta, price.value), AUTO_NOTE, now).world
  {
    hide Rebalance, ReferencePrice, PerpQuantity;
  }

  /** Executing a plan settles its trade; a plan that is not executed changes no record. */
  lemma RunPlanSettles(cfg: ExecutionConfig, uuid: Ids, w: World, reports: seq<ExchangeOrderReport>,
                       found: TradeLedgerRecord, limitBps: real, now: Time)
    returns (saved: Option<TradeLedgerRecord>)
    requires limitBps >= 0.0 && Find(w.ledger, found.tradeId) == Some(found)
    requires WantsRebalance(PlanFor(found, limitBps))
    ensures var plan := PlanFor(found, limitBps);
            var run := RunPlan(cfg, uuid, w, reports, plan, now);
            && |run.items| == 1 && run.items[0].tradeId == plan.tradeId
            && (run.items[0].outcome == Executed <==> saved.Some?)
            && run.world.ledger == (if saved.Some? then Put(w.ledger, saved.value) else w.ledger)
    ensures saved.Some? ==> saved.value.tradeId == found.tradeId && saved.value.symbol == found.symbol
    ensures saved.Some? ==> Settled(saved.value, limitBps)
  {
    hide Rebalance, ExposureBps, Round6;
    var plan := PlanFor(found, limitBps);
    var price := ReferencePrice(reports, plan.tradeId);
    if plan.suggestedDelta == 0.0 || price.None? || PerpQuantity(plan.suggestedDelta, price.value) <= 0.0 {
      saved := None;
    } else {
      var quantity := PerpQuantity(plan.suggestedDelta, price.value);
      saved := RebalanceLedger(cfg, uuid, w, found, plan.suggestedDelta, quantity, AUTO_NOTE, now);
      PlannedRebalanceNeutralises(found, AUTO_NOTE);
      if saved == Some(Rebalanced(found, PlannedDelta(found), AUTO_NOTE)) {
        NeutralIsFine(saved.value, limitBps);
      }
    }
  }

  function OtherTrade(tradeId: string): HedgeRebalancePlan -> bool
  {
    (p: HedgeRebalancePlan) => p.tradeId != tradeId
  }

  /** Saving a settled record takes its trade, and no other, out of the queue. */
  lemma SettledLeavesQueue(ledger: seq<TradeLedgerRecord>, saved: TradeLedgerRecord, symbol: Option<string>,
                           limitBps: real)
    requires UniqueIds(ledger) && Find(ledger, saved.tradeId).Some? && Settled(saved, limitBps)
    ensures CandidatePlans(Put(ledger, saved), symbol, limitBps)
         == Filter(CandidatePlans(ledger, symbol, limitBps), OtherTrade(saved.tradeId))
  {
    var k := PutPosition(ledger, saved);
    FindBelongs(ledger, saved.tradeId);
    var after := Put(ledger, saved);
    PutKeepsUnique(ledger, saved);
    var f, f' := ListedPlan(ledger, symbol, limitBps), ListedPlan(after, symbol, limitBps);
    SettledIsNoCandidate(saved, limitBps);
    forall i | 0 <= i < |ledger|
      ensures i != k ==> f(ledger[i]) == f'(after[i])
      ensures f(ledger[i]).Some? ==> f(ledger[i]).value.tradeId == ledger[i].tradeId
    {
      hide PlanFor, Put;
      FindUnique(ledger, ledger[i]);
      FindUnique(after, after[i]);
      PlanForId(ledger[i], limitBps);
    }
    FindUnique(after, after[k]);
    hide PlanFor, Put, Settled;
    GatherDrops(ledger, after, f, f', k, OtherTrade(saved.tradeId));
    PlanOrder();
    SortFilter(Gather(ledger, f), PlanGe, OtherTrade(saved.tradeId));
  }

  lemma PlanForId(r: TradeLedgerRecord, limitBps: real)
    ensures PlanFor(r, limitBps).tradeId == r.tradeId
  {
  }

  function StillWaiting(items: seq<RebalanceItem>): HedgeRebalancePlan -> bool
  {
    (p: HedgeRebalancePlan) => RebalanceItem(p.tradeId, Executed) !in items
  }

  /** Plans of distinct trades, each the plan of its trade's record. */
  predicate Faithful(ledger: seq<TradeLedgerRecord>, plans: seq<HedgeRebalancePlan>, limitBps: real)
  {
    && (forall p :: p in plans ==>
          && Find(ledger, p.tradeId).Some?
          && p == PlanFor(Find(ledger, p.tradeId).value, limitBps)
          && WantsRebalance(p))
    && (forall i, j :: 0 <= i < j < |plans| ==> plans[i].tradeId != plans[j].tradeId)
  }

  /** The queue lost exactly the trades reported as executed. */
  predicate Drained(before: seq<TradeLedgerRecord>, run: AutoRun, symbol: Option<string>, limitBps: real)
  {
    && UniqueIds(run.world.ledger)
    && CandidatePlans(run.world.ledger, symbol, limitBps)
       == Filter(CandidatePlans(before, symbol, limitBps), StillWaiting(run.items))
  }

  /** Item i belongs to plan i, executed trades are settled, and no other trade changed. */
  ghost predicate Accounted(before: seq<TradeLedgerRecord>, run: AutoRun, plans: seq<HedgeRebalancePlan>,
                            limitBps: real)
  {
    && |run.items| == |plans|
    && (forall i :: 0 <= i < |plans| ==> run.items[i].tradeId == plans[i].tradeId)
    && (forall i :: 0 <= i < |plans| && run.items[i].outcome == Executed ==>
          && Find(run.world.ledger, plans[i].tradeId).Some?
          && Settled(Find(run.world.ledger, plans[i].tradeId).value, limitBps))
    && (forall id :: (forall i :: 0 <= i < |plans| ==> plans[i].tradeId != id) ==>
          Find(run.world.ledger, id) == Find(before, id))
  }

  /** The state of the queue after the plans have run. */
  ghost predicate QueueIs(before: seq<TradeLedgerRecord>, run: AutoRun, plans: seq<HedgeRebalancePlan>,
                          symbol: Option<string>, limitBps: real)
  {
    Drained(before, run, symbol, limitBps) && Accounted(before, run, plans, limitBps)
  }

  lemma {:induction false} PlansRun(cfg: ExecutionConfig, uuid: Ids, w: World, reports: seq<ExchangeOrderReport>,
                                    plans: seq<HedgeRebalancePlan>, symbol: Option<string>, limitBps: real,
                                    clock: nat -> Time)
    requires limitBps >= 0.0 && UniqueIds(w.ledger) && Faithful(w.ledger, plans, limitBps)
    ensures QueueIs(w.ledger, RunPlans(cfg, uuid, w, reports, plans, clock), plans, symbol, limitBps)
  {
    hide PlanFor, RunPlan, QueueIs;
    if plans == [] {
      QueueAtStart(w, symbol, limitBps);
    } else {
      var n := |plans| - 1;
      var earlier, plan := plans[..n], plans[n];
      assert plan in plans && forall p :: p in earlier ==> p in plans;
      PlansRun(cfg, uuid, w, reports, earlier, symbol, limitBps, clock);
      var run := RunPlans(cfg, uuid, w, reports, earlier, clock);
      OnePlanMore(cfg, uuid, w.ledger, run, reports, earlier, plan, symbol, limitBps, clock(n));
      assert plans == earlier + [plan];
    }
  }

  lemma QueueAtStart(w: World, symbol: Option<string>, limitBps: real)
    requires UniqueIds(w.ledger)
    ensures QueueIs(w.ledger, AutoRun(w, []), [], symbol, limitBps)
  {
    FilterAll(CandidatePlans(w.ledger, symbol, limitBps), StillWaiting([]));
  }

  lemma OnePlanMore(cfg: ExecutionConfig, uuid: Ids, before: seq<TradeLedgerRecord>, run: AutoRun,
                    reports: seq<ExchangeOrderReport>, earlier: seq<HedgeRebalancePlan>, plan: HedgeRebalancePlan,
                    symbol: Option<string>, limitBps: real, now: Time)
    requires limitBps >= 0.0 && QueueIs(before, run, earlier, symbol, limitBps)
    requires Find(before, plan.tradeId).Some? && plan == PlanFor(Find(before, plan.tradeId).value, limitBps)
    requires WantsRebalance(plan) && forall i :: 0 <= i < |earlier| ==> earlier[i].tradeId != plan.tradeId
    ensures var last := RunPlan(cfg, uuid, run.world, reports, plan, now);
            QueueIs(before, AutoRun(last.world, run.items + last.items), earlier + [plan], symbol, limitBps)
  {
    var found := Find(before, plan.tradeId).value;
    FindBelongs(before, plan.tradeId);
    assert Find(run.world.ledger, found.tradeId) == Some(found);
    var last := RunPlan(cfg, uuid, run.world, reports, plan, now);
    var saved := RunPlanSettles(cfg, uuid, run.world, reports, found, limitBps, now);
    assert last.items == [last.items[0]];
    hide PlanFor, RunPlan, QueueIs;
    if saved.None? {
      NothingSaved(before, run, last, earlier, plan, symbol, limitBps);
    } else {
      RecordSaved(before, run, last, saved.value, earlier, plan, symbol, limitBps);
    }
  }

  lemma NothingSaved(before: seq<TradeLedgerRecord>, run: AutoRun, last: AutoRun, earlier: seq<HedgeRebalancePlan>,
                     plan: HedgeRebalancePlan, symbol: Option<string>, limitBps: real)
    requires QueueIs(before, run, earlier, symbol, limitBps) && last.world.ledger == run.world.ledger
    requires |last.items| == 1 && last.items[0].tradeId == plan.tradeId && last.items[0].outcome != Executed
    ensures QueueIs(before, AutoRun(last.world, run.items + last.items), earlier + [plan], symbol, limitBps)
  {
    hide CandidatePlans, Settled, UniqueIds, Find;
    assert Drained(before, AutoRun(last.world, run.items + last.items), symbol, limitBps) by {
      var all := CandidatePlans(before, symbol, limitBps);
      FilterSame(all, StillWaiting(run.items), StillWaiting(run.items + last.items));
    }
    assert forall i :: 0 <= i < |earlier| ==> (earlier + [plan])[i] == earlier[i];
  }

  lemma SaveDrains(before: seq<TradeLedgerRecord>, run: AutoRun, last: AutoRun, saved: TradeLedgerRecord,
                   symbol: Option<string>, limitBps: real)
    requires Drained(before, run, symbol, limitBps) && last.world.ledger == Put(run.world.ledger, saved)
    requires last.items == [RebalanceItem(saved.tradeId, Executed)]
    requires Settled(saved, limitBps) && Find(run.world.ledger, saved.tradeId).Some?
    ensures Drained(before, AutoRun(last.world, run.items + last.items), symbol, limitBps)
  {
    SettledLeavesQueue(run.world.ledger, saved, symbol, limitBps);
    PutKeepsUnique(run.world.ledger, saved);
    hide CandidatePlans, Settled, UniqueIds, Put, Find;
    FilterTwice(CandidatePlans(before, symbol, limitBps), StillWaiting(run.items), OtherTrade(saved.tradeId),
                StillWaiting(run.items + last.items));
  }

  lemma SaveIsAccounted(before: seq<TradeLedgerRecord>, run: AutoRun, last: AutoRun, saved: TradeLedgerRecord,
                        earlier: seq<HedgeRebalancePlan>, plan: HedgeRebalancePlan, limitBps: real)
    requires Accounted(before, run, earlier, limitBps) && last.world.ledger == Put(run.world.ledger, saved)
    requires last.items == [RebalanceItem(saved.tradeId, Executed)]
    requires saved.tradeId == plan.tradeId && Settled(saved, limitBps)
    requires forall i :: 0 <= i < |earlier| ==> earlier[i].tradeId != plan.tradeId
    ensures Accounted(before, AutoRun(last.world, run.items + last.items), earlier + [plan], limitBps)
  {
    SavedElsewhere(run.world.ledger, saved);
    hide Settled, Put, Find;
    var plans := earlier + [plan];
    assert plans[|earlier|] == plan;
    assert forall i :: 0 <= i < |earlier| ==> plans[i] == earlier[i];
  }

  lemma RecordSaved(before: seq<TradeLedgerRecord>, run: AutoRun, last: AutoRun, saved: TradeLedgerRecord,
                    earlier: seq<HedgeRebalancePlan>, plan: HedgeRebalancePlan, symbol: Option<string>, limitBps: real)
    requires QueueIs(before, run, earlier, symbol, limitBps) && last.world.ledger == Put(run.world.ledger, saved)
    requires last.items == [RebalanceItem(plan.tradeId, Executed)]
    requires saved.tradeId == plan.tradeId && Settled(saved, limitBps) && Find(run.world.ledger, saved.tradeId).Some?
    requires forall i :: 0 <= i < |earlier| ==> earlier[i].tradeId != plan.tradeId
    ensures QueueIs(before, AutoRun(last.world, run.items + last.items), earlier + [plan], symbol, limitBps)
  {
    hide Drained, Accounted;
    SaveDrains(before, run, last, saved, symbol, limitBps);
    SaveIsAccounted(before, run, last, saved, earlier, plan, limitBps);
  }

  /** A save shows under its own id only. */
  lemma SavedElsewhere(ledger: seq<TradeLedgerRecord>, saved: TradeLedgerRecord)
    ensures forall id :: Find(Put(ledger, saved), id) == if id == saved.tradeId then Some(saved) else Find(ledger, id)
  {
  }

  lemma CandidatesAreFaithful(ledger: seq<TradeLedgerRecord>, symbol: Option<string>, limit: Option<nat>,
                              limitBps: real)
    requires UniqueIds(ledger)
    ensures Faithful(ledger, Take(CandidatePlans(ledger, symbol, limitBps), limit), limitBps)
  {
    var f := ListedPlan(ledger, symbol, limitBps);
    var raw, sorted := Gather(ledger, f), CandidatePlans(ledger, symbol, limitBps);
    forall i | 0 <= i < |ledger|
      ensures f(ledger[i]).Some? ==>
              f(ledger[i]) == Some(PlanFor(ledger[i], limitBps)) && f(ledger[i]).value.tradeId == ledger[i].tradeId
    {
      hide PlanFor;
      FindUnique(ledger, ledger[i]);
      PlanForId(ledger[i], limitBps);
    }
    hide PlanFor;
    GatherNoRepeats(ledger, f);
    PlanOrder();
    SortKeepsNoRepeats(raw, PlanGe);
    SortSorts(raw, PlanGe);
    forall p | p in sorted
      ensures Find(ledger, p.tradeId).Some? && p == PlanFor(Find(ledger, p.tradeId).value, limitBps)
           && WantsRebalance(p)
    {
      var i := GatherSource(ledger, f, p);
      FindUnique(ledger, ledger[i]);
    }
    forall i, j | 0 <= i < j < |sorted| ensures sorted[i].tradeId != sorted[j].tradeId {
      assert sorted[i] in sorted && sorted[j] in sorted && sorted[i] != sorted[j];
    }
  }

  /** One automatic run removes from the queue exactly the trades it reports as executed,
      each of them left neutral and healthy or in a recovery status; everything else, the
      plans beyond the limit included, waits as before. */
  lemma AutoRebalanceDrains(cfg: ExecutionConfig, uuid: Ids, w: World, reports: seq<ExchangeOrderReport>,
                            symbol: Option<string>, limit: Option<nat>, limitBps: real, clock: nat -> Time)
    requires limitBps >= 0.0 && UniqueIds(w.ledger)
    ensures var plans := Take(CandidatePlans(w.ledger, symbol, limitBps), limit);
            QueueIs(w.ledger, RunPlans(cfg, uuid, w, reports, plans, clock), plans, symbol, limitBps)
  {
    CandidatesAreFaithful(w.ledger, symbol, limit, limitBps);
    PlansRun(cfg, uuid, w, reports, Take(CandidatePlans(w.ledger, symbol, limitBps), limit), symbol, limitBps, clock);
  }

  /** Every attempted plan is counted once. */
  lemma {:induction false} OutcomesPartition(items: seq<RebalanceItem>)
    ensures CountOutcome(items, Executed) + CountOutcome(items, Skipped) + CountOutcome(items, NotExecuted) == |items|
  {
    if items != [] {
      OutcomesPartition(items[..|items| - 1]);
    }
  }

  /** Each count is the number of items that ended that way. */
  lemma {:induction false} CountIsNumber(items: seq<RebalanceItem>, outcome: RebalanceOutcome)
    ensures CountOutcome(items, outcome) == |set i | 0 <= i < |items| && items[i].outcome == outcome|
  {
    if items != [] {
      var n := |items| - 1;
      CountIsNumber(items[..n], outcome);
      assert (set i | 0 <= i < |items| && items[i].outcome == outcome)
          == (set i | 0 <= i < n && items[..n][i].outcome == outcome)
             + if items[n].outcome == outcome then {n} else {};
    }
  }
}
