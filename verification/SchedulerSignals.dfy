/** Which positions a scheduler cycle opens and closes, and in which order. */
module SchedulerSignals {
  import opened Options
  import opened Lists
  import opened Ledger
  import opened Execution
  import opened Audit
  import opened Opportunity
  import opened Risk
  import Backtest
  import CallResults
  import opened Scheduler

  // ---- opening ------------------------------------------------------------------------------

  function Allowed(policy: RiskPolicyConfig): OpportunityScore -> bool
  {
    (row: OpportunityScore) => Evaluate(policy, row).decision == Allow
  }

  function SymbolOf(): OpportunityScore -> string { (row: OpportunityScore) => row.symbol }

  function ActionSymbol(): CycleAction -> string { (action: CycleAction) => action.symbol }

  function ActionTrade(): CycleAction -> string { (action: CycleAction) => action.tradeId }

  function Done(): CycleAction -> bool { (action: CycleAction) => action.done }

  /** The loop's counters say what its actions say. */
  predicate Tallied(start: OpenLoop, loop: OpenLoop)
  {
    && (forall action :: action in loop.actions ==> action.OpenAction?)
    && loop.executed == |Filter(loop.actions, Done())| && loop.executed + loop.failed == |loop.actions|
    && loop.count == start.count + loop.executed
    && loop.notional == start.notional + 1000.0 * loop.executed as real
  }

  /** Something stands in the way of another position. */
  ghost predicate Full(loop: OpenLoop, input: CycleInput)
  {
    || loop.count >= input.maxOpenPositions
    || loop.notional >= input.maxTotalNotional
    || exists i: nat :: !input.canOpen(i)
  }

  lemma DoneOneMore(actions: seq<CycleAction>, action: CycleAction)
    ensures |Filter(actions + [action], Done())| == |Filter(actions, Done())| + if action.done then 1 else 0
  {
    FilterAppend(actions, [action], Done());
    assert [action][1..] == [];
  }

  lemma {:induction false} OpeningTallies(cfg: ExecutionConfig, uuid: Ids, input: CycleInput, start: OpenLoop,
                                          rows: seq<OpportunityScore>)
    requires start.executed == start.failed == 0 && start.actions == [] && !start.stopped
    ensures Tallied(start, OpenAll(cfg, uuid, input, start, rows))
  {
    hide Execute, Evaluate;
    if rows != [] {
      var n := |rows| - 1;
      OpeningTallies(cfg, uuid, input, start, rows[..n]);
      var before, after := OpenAll(cfg, uuid, input, start, rows[..n]), OpenAll(cfg, uuid, input, start, rows);
      if after.actions != before.actions {
        DoneOneMore(before.actions, after.actions[|before.actions|]);
      }
    }
  }

  /** The cycle tries the allowed rows from the top of the ranking, one action each, and stops
      early only at a cap or when it may not open. */
  lemma {:induction false} OpensTheBestAllowed(cfg: ExecutionConfig, uuid: Ids, input: CycleInput, start: OpenLoop,
                                               rows: seq<OpportunityScore>)
    requires start.executed == start.failed == 0 && start.actions == [] && !start.stopped
    ensures var loop := OpenAll(cfg, uuid, input, start, rows);
            var wanted := Map(Filter(rows, Allowed(input.policy)), SymbolOf());
            && Map(loop.actions, ActionSymbol()) <= wanted
            && (!loop.stopped ==> Map(loop.actions, ActionSymbol()) == wanted)
            && (loop.stopped ==> Full(loop, input))
  {
    hide Execute, Evaluate;
    if rows != [] {
      var n := |rows| - 1;
      OpensTheBestAllowed(cfg, uuid, input, start, rows[..n]);
      var before, after := OpenAll(cfg, uuid, input, start, rows[..n]), OpenAll(cfg, uuid, input, start, rows);
      FilterAppend(rows[..n], [rows[n]], Allowed(input.policy));
      assert rows == rows[..n] + [rows[n]] && [rows[n]][1..] == [];
      var wanted := Map(Filter(rows, Allowed(input.policy)), SymbolOf());
      var earlier := Map(Filter(rows[..n], Allowed(input.policy)), SymbolOf());
      assert wanted == earlier + if Allowed(input.policy)(rows[n]) then [rows[n].symbol] else [];
      if after.actions != before.actions {
        assert Map(after.actions, ActionSymbol()) == Map(before.actions, ActionSymbol()) + [rows[n].symbol];
      }
    }
  }

  // ---- closing ------------------------------------------------------------------------------

  /** The last row of the ranking for a symbol, if there is one, has a negative rate or edge. */
  predicate Turned(rows: seq<OpportunityScore>, symbol: string)
  {
    exists i :: 0 <= i < |rows| && LastOf(rows, symbol, i) && (rows[i].fundingRate < 0.0 || rows[i].netEdgeBps < 0.0)
  }

  predicate LastOf(rows: seq<OpportunityScore>, symbol: string, i: int)
  {
    && 0 <= i < |rows| && rows[i].symbol == symbol
    && forall j :: i < j < |rows| ==> rows[j].symbol != symbol
  }

  lemma {:induction false} ScoreOfIsLast(rows: seq<OpportunityScore>, symbol: string) returns (i: int)
    ensures ScoreOf(rows, symbol).Some? ==> LastOf(rows, symbol, i) && ScoreOf(rows, symbol) == Some(rows[i])
    ensures ScoreOf(rows, symbol).None? ==> forall row :: row in rows ==> row.symbol != symbol
  {
    i := |rows| - 1;
    if rows != [] && rows[i].symbol != symbol {
      var n := |rows| - 1;
      i := ScoreOfIsLast(rows[..n], symbol);
      assert rows == rows[..n] + [rows[n]];
    }
  }

  /** A position the cycle wants to be rid of. */
  predicate ToClose(input: CycleInput, rows: seq<OpportunityScore>, r: TradeLedgerRecord)
  {
    r.status == Hedged && input.canOperate(r.tradeId) && Turned(rows, r.symbol)
  }

  lemma WantsCloseIff(input: CycleInput, rows: seq<OpportunityScore>, r: TradeLedgerRecord)
    ensures WantsClose(input, rows, r) <==> ToClose(input, rows, r)
  {
    var k := ScoreOfIsLast(rows, r.symbol);
    if i :| 0 <= i < |rows| && LastOf(rows, r.symbol, i) && (rows[i].fundingRate < 0.0 || rows[i].netEdgeBps < 0.0) {
      assert rows[i] in rows;
      assert i == k by {
        if ScoreOf(rows, r.symbol).Some? { assert !(i < k) && !(k < i); }
      }
    }
  }

  function Closing(input: CycleInput, rows: seq<OpportunityScore>): TradeLedgerRecord -> bool
  {
    (r: TradeLedgerRecord) => ToClose(input, rows, r)
  }

  function TradeIdOf(): TradeLedgerRecord -> string { (r: TradeLedgerRecord) => r.tradeId }

  /** The cycle sends a close for exactly the hedged positions it may operate whose symbol's
      row has a negative funding rate or a negative net edge, in the order of the ledger, and
      counts those that were executed. */
  lemma {:induction false} ClosesTheTurned(cfg: ExecutionConfig, uuid: Ids, input: CycleInput, w: World,
                                           rows: seq<OpportunityScore>, active: seq<TradeLedgerRecord>)
    ensures var loop := CloseAll(cfg, uuid, input, CloseLoop(w, 0, 0, []), rows, active);
            && Map(loop.actions, ActionTrade()) == Map(Filter(active, Closing(input, rows)), TradeIdOf())
            && (forall action :: action in loop.actions ==> action.CloseAction?)
            && loop.executed == |Filter(loop.actions, Done())| && loop.executed + loop.failed == |loop.actions|
  {
    hide Execute, WantsClose, ToClose;
    if active != [] {
      var n := |active| - 1;
      var start := CloseLoop(w, 0, 0, []);
      ClosesTheTurned(cfg, uuid, input, w, rows, active[..n]);
      WantsCloseIff(input, rows, active[n]);
      var before, after := CloseAll(cfg, uuid, input, start, rows, active[..n]),
              CloseAll(cfg, uuid, input, start, rows, active);
      FilterAppend(active[..n], [active[n]], Closing(input, rows));
      assert active == active[..n] + [active[n]] && [active[n]][1..] == [];
      assert Map(Filter(active, Closing(input, rows)), TradeIdOf())
          == Map(Filter(active[..n], Closing(input, rows)), TradeIdOf())
             + if Closing(input, rows)(active[n]) then [active[n].tradeId] else [];
      if Closing(input, rows)(active[n]) {
        DoneOneMore(before.actions, after.actions[|before.actions|]);
        assert Map(after.actions, ActionTrade()) == Map(before.actions, ActionTrade()) + [active[n].tradeId];
      }
    }
  }

  // ---- one position -----------------------------------------------------------------------------

  /** A position the cycle opened: a thousand on each leg, in the cycle's mode, for the row's
      symbol, without exposure. */
  lemma OpenedPosition(cfg: ExecutionConfig, uuid: Ids, input: CycleInput, loop: OpenLoop, row: OpportunityScore,
                       i: nat)
    requires !loop.stopped && Find(loop.world.ledger, input.newIds(i)).None?
    ensures var next := OpenOne(cfg, uuid, input, loop, row, i);
            next.executed > loop.executed ==>
              var left := Find(next.world.ledger, input.newIds(i));
              && left.Some? && left.value.symbol == row.symbol && left.value.mode == input.mode
              && left.value.strategyId == "funding-arb" && left.value.openedAt == input.clock(i)
              && left.value.spotNotional == left.value.perpNotional == 1000.0 && left.value.netExposure == 0.0
  {
    hide Evaluate, Execute;
    var id := input.newIds(i);
    var request := OpenRequest(input, row, id);
    var outcome := Execute(cfg, uuid, loop.world, request, input.clock(i), input.executeIsSafe(id)).outcome;
    if outcome.Returned? {
      assert !IsReplay(loop.world, request);
      CallResults.OpenLeaves(cfg, uuid, loop.world, request, input.clock(i), input.executeIsSafe(id));
    }
  }

  /** A close the cycle sends follows the position's own mode: a live position that it closed
      was closed on the exchange, a paper position was not. */
  lemma ClosedPosition(cfg: ExecutionConfig, uuid: Ids, input: CycleInput, loop: CloseLoop, rows: seq<OpportunityScore>,
                       r: TradeLedgerRecord, now: Time)
    requires Find(loop.world.ledger, r.tradeId) == Some(r) && r.status == Hedged
    ensures var next := CloseOne(cfg, uuid, input, loop, rows, r, now);
            var left := Find(next.world.ledger, r.tradeId);
            left.Some? && left.value.status == Closed ==>
              && ToClose(input, rows, r)
              && |next.world.calls| == |loop.world.calls| + if r.mode == Live then 1 else 0
  {
    WantsCloseIff(input, rows, r);
    hide Execute, WantsClose, ToClose;
    var request := CloseRequest(r);
    var left := Find(Execute(cfg, uuid, loop.world, request, now, input.executeIsSafe(r.tradeId)).world.ledger,
                     r.tradeId);
    if left.Some? && left.value.status == Closed {
      CallResults.CloseFollowsTheIntent(cfg, uuid, loop.world, request, now, input.executeIsSafe(r.tradeId));
    }
  }
}
