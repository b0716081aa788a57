/** The strategy scheduler: one cycle opens allowed opportunities up to its caps and closes
    positions whose signal has turned. */
module Scheduler {
  import opened Options
  import opened Lists
  import opened Ledger
  import opened Audit
  import opened Execution
  import opened Orchestration
  import opened Opportunity
  import opened Risk
  import Decimals
  import Backtest

  /** A cycle's surroundings: safety checks, ids and times may say anything at each use. */
  datatype CycleInput = CycleInput(
    snapshots: seq<MarketSnapshot>,
    scoreConfig: ScoreConfig,
    policy: RiskPolicyConfig,
    mode: TradeMode,
    maxOpenPositions: int,
    maxTotalNotional: real,
    newIds: nat -> string,
    canOpen: nat -> bool,
    canOperate: string -> bool,
    executeIsSafe: string -> bool,
    clock: nat -> Time)

  const STRATEGY_ID := "funding-arb"
  const TICKET := 1000.0

  datatype CycleAction =
    | OpenAction(symbol: string, tradeId: string, done: bool)
    | CloseAction(symbol: string, tradeId: string, done: bool)

  datatype OpenLoop = OpenLoop(world: World, executed: nat, failed: nat, count: int, notional: real, stopped: bool,
                               actions: seq<CycleAction>)

  function IsActive(): TradeLedgerRecord -> bool
  {
    (r: TradeLedgerRecord) => r.status in {Hedged, Open}
  }

  function Amount(r: TradeLedgerRecord): real
  {
    Decimals.Max(r.spotNotional, r.perpNotional)
  }

  function SumAmounts(records: seq<TradeLedgerRecord>): real
  {
    if records == [] then 0.0 else Amount(records[0]) + SumAmounts(records[1..])
  }

  function OpenRequest(input: CycleInput, row: OpportunityScore, tradeId: string): ExecutionIntentRequest
  {
    ExecutionIntentRequest(tradeId, input.mode, STRATEGY_ID, row.symbol, OpenHedge, TICKET, TICKET, None, None, 0.0,
                           None, None, false)
  }

  function CloseRequest(r: TradeLedgerRecord): ExecutionIntentRequest
  {
    ExecutionIntentRequest(r.tradeId, r.mode, STRATEGY_ID, r.symbol, CloseHedge, 0.0, 0.0, None, None, 0.0, None, None,
                           false)
  }

  /** One scored row: passed over, the end of the loop, or an attempt to open. */
  function OpenOne(cfg: ExecutionConfig, uuid: Ids, input: CycleInput, loop: OpenLoop, row: OpportunityScore,
                   i: nat): OpenLoop
  {
    if loop.stopped || Evaluate(input.policy, row).decision != Allow then loop
    else if loop.count >= input.maxOpenPositions || loop.notional >= input.maxTotalNotional || !input.canOpen(i) then
      loop.(stopped := true)
    else
      var id := input.newIds(i);
      var step := Execute(cfg, uuid, loop.world, OpenRequest(input, row, id), input.clock(i), input.executeIsSafe(id));
      if step.outcome.Returned? then
        loop.(world := step.world, executed := loop.executed + 1, count := loop.count + 1,
              notional := loop.notional + TICKET,
              actions := loop.actions + [OpenAction(row.symbol, id, true)])
      else
        loop.(world := step.world, failed := loop.failed + 1,
              actions := loop.actions + [OpenAction(row.symbol, id, false)])
  }

  function OpenAll(cfg: ExecutionConfig, uuid: Ids, input: CycleInput, start: OpenLoop,
                   rows: seq<OpportunityScore>): OpenLoop
  {
    if rows == [] then start
    else
      var n := |rows| - 1;
      OpenOne(cfg, uuid, input, OpenAll(cfg, uuid, input, start, rows[..n]), rows[n], n)
  }

  /** `{s.symbol: s for s in scored}`: the last row of a symbol. */
  function ScoreOf(rows: seq<OpportunityScore>, symbol: string): Option<OpportunityScore>
  {
    if rows == [] then None
    else if rows[|rows| - 1].symbol == symbol then Some(rows[|rows| - 1])
    else ScoreOf(rows[..|rows| - 1], symbol)
  }

  predicate CloseSignal(row: OpportunityScore)
  {
    row.fundingRate < 0.0 || row.netEdgeBps < 0.0
  }

  predicate WantsClose(input: CycleInput, rows: seq<OpportunityScore>, r: TradeLedgerRecord)
  {
    && r.status == Hedged
    && ScoreOf(rows, r.symbol).Some?
    && input.canOperate(r.tradeId)
    && CloseSignal(ScoreOf(rows, r.symbol).value)
  }

  datatype CloseLoop = CloseLoop(world: World, executed: nat, failed: nat, actions: seq<CycleAction>)

  function CloseOne(cfg: ExecutionConfig, uuid: Ids, input: CycleInput, loop: CloseLoop, rows: seq<OpportunityScore>,
                    r: TradeLedgerRecord, now: Time): CloseLoop
  {
    if !WantsClose(input, rows, r) then loop
    else
      var step := Execute(cfg, uuid, loop.world, CloseRequest(r), now, input.executeIsSafe(r.tradeId));
      if step.outcome.Returned? then
        loop.(world := step.world, executed := loop.executed + 1,
              actions := loop.actions + [CloseAction(r.symbol, r.tradeId, true)])
      else
        loop.(world := step.world, failed := loop.failed + 1,
              actions := loop.actions + [CloseAction(r.symbol, r.tradeId, false)])
  }

  function CloseAll(cfg: ExecutionConfig, uuid: Ids, input: CycleInput, start: CloseLoop, rows: seq<OpportunityScore>,
                    active: seq<TradeLedgerRecord>): CloseLoop
  {
    if active == [] then start
    else
      var n := |active| - 1;
      CloseOne(cfg, uuid, input, CloseAll(cfg, uuid, input, start, rows, active[..n]), rows, active[n],
               input.clock(|rows| + n))
  }

  function OpenStart(w: World): OpenLoop
  {
    var active := Filter(w.ledger, IsActive());
    OpenLoop(w, 0, 0, |active|, SumAmounts(active), false, [])
  }

  datatype CycleRun = CycleRun(opening: OpenLoop, closing: CloseLoop)

  /** The two loops of a cycle; the positions to close are those listed before it opened any. */
  function Cycle(cfg: ExecutionConfig, uuid: Ids, w: World, input: CycleInput): CycleRun
  {
    var rows := Backtest.Ranked(input.snapshots, input.scoreConfig);
    var opening := OpenAll(cfg, uuid, input, OpenStart(w), rows);
    CycleRun(opening, CloseAll(cfg, uuid, input, CloseLoop(opening.world, 0, 0, []), rows,
                               Filter(w.ledger, IsActive())))
  }

  datatype SchedulerCycleResult = SchedulerCycleResult(
    evaluated: nat, positions: nat, generated: nat, executed: nat, failed: nat, actions: seq<CycleAction>)

  class SchedulerService {
    const ledger: TradeLedgerService

    constructor (ledger: TradeLedgerService)
      ensures this.ledger == ledger
    {
      this.ledger := ledger;
    }

    method BuildScoreMap(rows: seq<OpportunityScore>) returns (scores: map<string, OpportunityScore>)
      ensures forall symbol :: (if symbol in scores then Some(scores[symbol]) else None) == ScoreOf(rows, symbol)
    {
      scores := map[];
      for i := 0 to |rows|
        invariant forall symbol ::
                (if symbol in scores then Some(scores[symbol]) else None) == ScoreOf(rows[..i], symbol)
      {
        scores := scores[rows[i].symbol := rows[i]];
        assert rows[..i + 1][..i] == rows[..i];
      }
      assert rows[..|rows|] == rows;
    }

    method TotalNotional(active: seq<TradeLedgerRecord>) returns (total: real)
      ensures total == SumAmounts(active)
    {
      total := 0.0;
      for i := 0 to |active|
        invariant total + SumAmounts(active[i..]) == SumAmounts(active)
      {
        total := total + Amount(active[i]);
        assert active[i..][1..] == active[i + 1..];
      }
    }

    method OpenPositions(orchestrator: ExecutionOrchestrator, input: CycleInput, rows: seq<OpportunityScore>,
                         active: seq<TradeLedgerRecord>)
      returns (executed: nat, failed: nat, actions: seq<CycleAction>)
      requires orchestrator.ledger == ledger && active == Filter(ledger.records, IsActive())
      modifies orchestrator.ledger, orchestrator.audit, orchestrator.breaker, orchestrator.adapter
      ensures var all := OpenAll(orchestrator.Config(), orchestrator.audit.uuid, input,
                                 OpenStart(old(orchestrator.State())), rows);
              && orchestrator.State() == all.world && executed == all.executed && failed == all.failed
              && actions == all.actions
    {
      hide Execute, Evaluate, SumAmounts;
      ghost var cfg, uuid, start := orchestrator.Config(), orchestrator.audit.uuid, OpenStart(orchestrator.State());
      var count: int := |active|;
      var notional := TotalNotional(active);
      executed, failed, actions := 0, 0, [];
      for i := 0 to |rows|
        invariant OpenAll(cfg, uuid, input, start, rows[..i])
               == OpenLoop(orchestrator.State(), executed, failed, count, notional, false, actions)
      {
        assert rows[..i + 1][..i] == rows[..i];
        if Evaluate(input.policy, rows[i]).decision != Allow {
          continue;
        }
        if count >= input.maxOpenPositions || notional >= input.maxTotalNotional || !input.canOpen(i) {
          OpenStops(cfg, uuid, input, start, rows, i + 1);
          return;
        }
        var id := input.newIds(i);
        var outcome := orchestrator.Execute(OpenRequest(input, rows[i], id), input.clock(i), input.executeIsSafe(id));
        if outcome.Returned? {
          executed := executed + 1;
          count := count + 1;
          notional := notional + TICKET;
        } else {
          failed := failed + 1;
        }
        actions := actions + [OpenAction(rows[i].symbol, id, outcome.Returned?)];
      }
      assert rows[..|rows|] == rows;
    }

    method ClosePositions(orchestrator: ExecutionOrchestrator, input: CycleInput, rows: seq<OpportunityScore>,
                          active: seq<TradeLedgerRecord>, ghost start: CloseLoop)
      returns (executed: nat, failed: nat, actions: seq<CycleAction>)
      requires start == CloseLoop(orchestrator.State(), 0, 0, [])
      modifies orchestrator.ledger, orchestrator.audit, orchestrator.breaker, orchestrator.adapter
      ensures CloseAll(orchestrator.Config(), orchestrator.audit.uuid, input, start, rows, active)
           == CloseLoop(orchestrator.State(), executed, failed, actions)
    {
      hide Execute;
      ghost var cfg, uuid := orchestrator.Config(), orchestrator.audit.uuid;
      var scores := BuildScoreMap(rows);
      executed, failed, actions := 0, 0, [];
      for i := 0 to |active|
        invariant CloseAll(cfg, uuid, input, start, rows, active[..i])
               == CloseLoop(orchestrator.State(), executed, failed, actions)
      {
        assert active[..i + 1][..i] == active[..i];
        var r := active[i];
        if r.status != Hedged || r.symbol !in scores || !input.canOperate(r.tradeId) || !CloseSignal(scores[r.symbol]) {
          continue;
        }
        var outcome := orchestrator.Execute(CloseRequest(r), input.clock(|rows| + i), input.executeIsSafe(r.tradeId));
        if outcome.Returned? {
          executed := executed + 1;
        } else {
          failed := failed + 1;
        }
        actions := actions + [CloseAction(r.symbol, r.tradeId, outcome.Returned?)];
      }
      assert active[..|active|] == active;
    }

    method RunCycle(orchestrator: ExecutionOrchestrator, input: CycleInput) returns (result: SchedulerCycleResult)
      requires orchestrator.ledger == ledger
      modifies orchestrator.ledger, orchestrator.audit, orchestrator.breaker, orchestrator.adapter
      ensures var cycle := Cycle(orchestrator.Config(), orchestrator.audit.uuid, old(orchestrator.State()), input);
              && orchestrator.State() == cycle.closing.world
              && result == SchedulerCycleResult(|input.snapshots|, |Filter(old(ledger.records), IsActive())|,
                                                |cycle.opening.actions| + |cycle.closing.actions|,
                                                cycle.opening.executed + cycle.closing.executed,
                                                cycle.opening.failed + cycle.closing.failed,
                                                cycle.opening.actions + cycle.closing.actions)
    {
      hide OpenAll, CloseAll, Execute, Backtest.Ranked, SumAmounts;
      var rows := Backtest.Ranked(input.snapshots, input.scoreConfig);
      Backtest.RankingSorts(input.snapshots, input.scoreConfig);
      var active := Filter(ledger.records, IsActive());
      var executed, failed, actions := OpenPositions(orchestrator, input, rows, active);
      ghost var start := CloseLoop(orchestrator.State(), 0, 0, []);
      var closed, notClosed, closings := ClosePositions(orchestrator, input, rows, active, start);
      return SchedulerCycleResult(|rows|, |active|, |actions| + |closings|, executed + closed, failed + notClosed,
                                  actions + closings);
    }
  }

  lemma {:induction false} OpenStops(cfg: ExecutionConfig, uuid: Ids, input: CycleInput, start: OpenLoop,
                                     rows: seq<OpportunityScore>, n: nat)
    requires n <= |rows| && OpenAll(cfg, uuid, input, start, rows[..n]).stopped
    ensures OpenAll(cfg, uuid, input, start, rows) == OpenAll(cfg, uuid, input, start, rows[..n])
  {
    hide Execute, Evaluate;
    if n == |rows| {
      assert rows[..n] == rows;
    } else {
      assert rows[..|rows| - 1][..n] == rows[..n];
      OpenStops(cfg, uuid, input, start, rows[..|rows| - 1], n);
    }
  }
}
