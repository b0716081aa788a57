/** Conservation of exposure: what a hedge is short of its spot leg is its net exposure. */
module Exposure {
  import opened Options
  import opened Ledger
  import opened Audit
  import opened CircuitBreaker
  import opened Execution
  import opened ExecutionRuns
  import opened TradeLifecycle
  import opened Decimals

  // ---- one rebalance ------------------------------------------------------------

  /** The delta a rebalance plan suggests for a record. */
  function PlannedDelta(r: TradeLedgerRecord): real
  {
    Round4(r.netExposure)
  }

  /** Executing the planned delta leaves no exposure at all, whatever the exposure was. */
  lemma PlannedRebalanceNeutralises(r: TradeLedgerRecord, notes: Option<string>)
    ensures Rebalanced(r, PlannedDelta(r), notes).netExposure == 0.0
  {
  }

  /** Any rebalance keeps perp notional plus exposure to within one unit of 1e-4 ... */
  lemma RebalanceDrift(r: TradeLedgerRecord, delta: real, notes: Option<string>)
    ensures var n := Rebalanced(r, delta, notes);
            -0.0001 <= (n.perpNotional + n.netExposure) - (r.perpNotional + r.netExposure) <= 0.0001
  {
  }

  /** ... and that bound is met: halves round to even on both sides. */
  lemma RebalanceDriftIsMet(r: TradeLedgerRecord, notes: Option<string>)
    requires r.perpNotional == 0.0001 && r.netExposure == 0.0
    ensures var n := Rebalanced(r, 0.00005, notes);
            (n.perpNotional + n.netExposure) - (r.perpNotional + r.netExposure) == 0.0001
  {
  }

  /** A record whose amounts are on the 1e-4 grid and add up. */
  predicate Balanced(r: TradeLedgerRecord)
  {
    && OnGrid(r.spotNotional) && OnGrid(r.perpNotional) && OnGrid(r.netExposure)
    && r.netExposure == r.spotNotional - r.perpNotional
  }

  lemma GridRebalanceConserves(r: TradeLedgerRecord, delta: real, notes: Option<string>)
    requires Balanced(r) && OnGrid(delta)
    ensures Balanced(Rebalanced(r, delta, notes))
  {
    GridSum(r.perpNotional, delta);
    GridSum(r.netExposure, delta);
    Round4Grid(r.perpNotional + delta);
    Round4Grid(r.netExposure - delta);
  }

  /** The planned rebalance of a balanced record brings the perp leg to the spot leg. */
  lemma PlannedRebalanceMatchesSpot(r: TradeLedgerRecord, notes: Option<string>)
    requires Balanced(r)
    ensures PlannedDelta(r) == r.netExposure
    ensures Rebalanced(r, PlannedDelta(r), notes).perpNotional == r.spotNotional
  {
  }

  // ---- opening --------------------------------------------------------------------

  /** Without an override the stored exposure is spot minus perp, exactly so when that
      difference is on the grid and to within half a unit otherwise. */
  lemma OpeningExposure(request: ExecutionIntentRequest)
    requires request.netExposure.None?
    ensures ResolveNetExposure(request) == request.spotNotional - request.perpNotional
       <==> OnGrid(request.spotNotional - request.perpNotional)
    ensures -0.00005 <= ResolveNetExposure(request) - (request.spotNotional - request.perpNotional) <= 0.00005
  {
  }

  // ---- whole runs -------------------------------------------------------------------

  /** Opens give grid amounts and no override, rebalances a grid delta. */
  predicate GridCall(call: Call)
  {
    match call
    case ExecuteCall(request, _, _) =>
      request.action == OpenHedge ==>
        request.netExposure.None? && OnGrid(request.spotNotional) && OnGrid(request.perpNotional)
    case RebalanceCall(_, delta, _, _, _) => OnGrid(delta)
    case _ => true
  }

  /** How the amounts of a saved record come about: a fresh opening, a rebalance, or as found. */
  lemma SavedAmounts(cfg: ExecutionConfig, w: World, call: Call)
    ensures var body := BodyOf(cfg, w, call);
            body.saved.Some? ==>
              || (&& call.ExecuteCall? && call.request.action == OpenHedge
                  && SameAmounts(body.saved.value, NewRecord(call.request, call.now, Candidate)))
              || (&& TradeOf(call).Some? && Find(w.ledger, TradeOf(call).value).Some?
                  && var found := Find(w.ledger, TradeOf(call).value).value;
                     || SameAmounts(body.saved.value, found)
                     || (call.RebalanceCall? && body.saved.value == Rebalanced(found, call.delta, call.notes)))
  {
    hide Round4, ResolveNetExposure, LegDrafts, AnyLeg;
    if TradeOf(call).Some? { FindBelongs(w.ledger, TradeOf(call).value); }
  }

  predicate SameAmounts(a: TradeLedgerRecord, b: TradeLedgerRecord)
  {
    a.spotNotional == b.spotNotional && a.perpNotional == b.perpNotional && a.netExposure == b.netExposure
  }

  lemma SavedIsBalanced(cfg: ExecutionConfig, w: World, call: Call)
    requires GridCall(call) && forall r :: r in w.ledger ==> Balanced(r)
    ensures BodyOf(cfg, w, call).saved.Some? ==> Balanced(BodyOf(cfg, w, call).saved.value)
  {
    SavedAmounts(cfg, w, call);
    hide BodyOf, Rebalanced;
    if TradeOf(call).Some? {
      FindBelongs(w.ledger, TradeOf(call).value);
      if call.RebalanceCall? && Find(w.ledger, TradeOf(call).value).Some? {
        GridRebalanceConserves(Find(w.ledger, TradeOf(call).value).value, call.delta, call.notes);
      }
    }
    if call.ExecuteCall? && call.request.action == OpenHedge {
      GridSum(call.request.spotNotional, call.request.perpNotional);
      OpeningExposure(call.request);
    }
  }

  /** On grid amounts every record of every run satisfies net exposure = spot - perp exactly. */
  lemma {:induction false} ExposureIsConserved(cfg: ExecutionConfig, uuid: Ids, script: seq<AdapterAnswer>,
                                               calls: seq<Call>)
    requires forall c :: c in calls ==> GridCall(c)
    ensures forall r :: r in Run(cfg, uuid, Start(script), calls).ledger ==> Balanced(r)
  {
    if calls != [] {
      var earlier, call := calls[..|calls| - 1], calls[|calls| - 1];
      var w := Run(cfg, uuid, Start(script), earlier);
      ExposureIsConserved(cfg, uuid, script, earlier);
      var tail := StepIsBody(cfg, uuid, w, call);
      SavedIsBalanced(cfg, w, call);
      hide BodyOf, Step, Balanced;
      if BodyOf(cfg, w, call).saved.Some? {
        PutMembers(w.ledger, BodyOf(cfg, w, call).saved.value);
      }
    }
  }

  // ---- planned rebalancing never drives the perp leg negative -----------------------

  predicate PlannedCall(w: World, call: Call)
  {
    && GridCall(call)
    && (call.ExecuteCall? ==> call.request.spotNotional >= 0.0 && call.request.perpNotional >= 0.0)
    && (call.RebalanceCall? && Find(w.ledger, call.tradeId).Some? ==>
          call.delta == PlannedDelta(Find(w.ledger, call.tradeId).value))
  }

  /** Every rebalance of the run executes the delta planned for the record as it then is. */
  predicate PlannedRun(cfg: ExecutionConfig, uuid: Ids, w: World, calls: seq<Call>)
  {
    calls != [] ==>
      && PlannedRun(cfg, uuid, w, calls[..|calls| - 1])
      && PlannedCall(Run(cfg, uuid, w, calls[..|calls| - 1]), calls[|calls| - 1])
  }

  predicate Healthy(r: TradeLedgerRecord)
  {
    Balanced(r) && r.spotNotional >= 0.0 && r.perpNotional >= 0.0
  }

  lemma SavedIsHealthy(cfg: ExecutionConfig, w: World, call: Call)
    requires PlannedCall(w, call) && forall r :: r in w.ledger ==> Healthy(r)
    ensures BodyOf(cfg, w, call).saved.Some? ==> Healthy(BodyOf(cfg, w, call).saved.value)
  {
    SavedIsBalanced(cfg, w, call);
    SavedAmounts(cfg, w, call);
    hide BodyOf, Balanced;
    if TradeOf(call).Some? {
      FindBelongs(w.ledger, TradeOf(call).value);
      if call.RebalanceCall? && Find(w.ledger, TradeOf(call).value).Some? {
        PlannedRebalanceMatchesSpot(Find(w.ledger, TradeOf(call).value).value, call.notes);
      }
    }
  }

  /** When rebalances follow the plan, no record's perp notional ever turns negative. */
  lemma {:induction false} PlannedRunsStayNonNegative(cfg: ExecutionConfig, uuid: Ids, script: seq<AdapterAnswer>,
                                                      calls: seq<Call>)
    requires PlannedRun(cfg, uuid, Start(script), calls)
    ensures forall r :: r in Run(cfg, uuid, Start(script), calls).ledger ==> Healthy(r)
  {
    if calls != [] {
      var earlier, call := calls[..|calls| - 1], calls[|calls| - 1];
      var w := Run(cfg, uuid, Start(script), earlier);
      PlannedRunsStayNonNegative(cfg, uuid, script, earlier);
      var tail := StepIsBody(cfg, uuid, w, call);
      SavedIsHealthy(cfg, w, call);
      hide BodyOf, Step, Healthy;
      if BodyOf(cfg, w, call).saved.Some? {
        PutMembers(w.ledger, BodyOf(cfg, w, call).saved.value);
      }
    }
  }

  // ---- arbitrary amounts --------------------------------------------------------------

  function Rebalances(calls: seq<Call>): nat
  {
    if calls == [] then 0
    else Rebalances(calls[..|calls| - 1]) + if calls[|calls| - 1].RebalanceCall? then 1 else 0
  }

  /** The books are off by at most half a unit for the opening and one per rebalance. */
  predicate OffBy(r: TradeLedgerRecord, rebalances: nat)
  {
    Abs(r.spotNotional - r.perpNotional - r.netExposure) <= 0.00005 + 0.0001 * rebalances as real
  }

  lemma SavedIsOffBy(cfg: ExecutionConfig, w: World, call: Call, k: nat)
    requires call.ExecuteCall? && call.request.action == OpenHedge ==> call.request.netExposure.None?
    requires forall r :: r in w.ledger ==> OffBy(r, k)
    ensures BodyOf(cfg, w, call).saved.Some? ==>
              OffBy(BodyOf(cfg, w, call).saved.value, k + if call.RebalanceCall? then 1 else 0)
  {
    SavedAmounts(cfg, w, call);
    hide BodyOf, Rebalanced;
    if TradeOf(call).Some? {
      FindBelongs(w.ledger, TradeOf(call).value);
      if call.RebalanceCall? && Find(w.ledger, TradeOf(call).value).Some? {
        var found := Find(w.ledger, TradeOf(call).value).value;
        RebalanceDrift(found, call.delta, call.notes);
        RebalancedSpot(found, call.delta, call.notes);
      }
    }
    if call.ExecuteCall? && call.request.action == OpenHedge {
      OpeningExposure(call.request);
    }
  }

  lemma RebalancedSpot(r: TradeLedgerRecord, delta: real, notes: Option<string>)
    ensures Rebalanced(r, delta, notes).spotNotional == r.spotNotional
  {
  }

  /** For arbitrary amounts and deltas, rounding never accumulates beyond that bound. */
  lemma {:induction false} ExposureDriftIsBounded(cfg: ExecutionConfig, uuid: Ids, script: seq<AdapterAnswer>,
                                                  calls: seq<Call>)
    requires forall c: Call ::
            c in calls && c.ExecuteCall? && c.request.action == OpenHedge ==> c.request.netExposure.None?
    ensures forall r :: r in Run(cfg, uuid, Start(script), calls).ledger ==> OffBy(r, Rebalances(calls))
  {
    if calls != [] {
      var earlier, call := calls[..|calls| - 1], calls[|calls| - 1];
      var w := Run(cfg, uuid, Start(script), earlier);
      ExposureDriftIsBounded(cfg, uuid, script, earlier);
      var tail := StepIsBody(cfg, uuid, w, call);
      SavedIsOffBy(cfg, w, call, Rebalances(earlier));
      hide BodyOf, Step;
      if BodyOf(cfg, w, call).saved.Some? {
        PutMembers(w.ledger, BodyOf(cfg, w, call).saved.value);
      }
    }
  }
}
