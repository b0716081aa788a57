/** The scheduler's caps hold over any number of cycles, whatever the executions do. */
module SchedulerCaps {
  import opened Options
  import opened Lists
  import opened Ledger
  import opened Audit
  import opened CircuitBreaker
  import opened Execution
  import opened Opportunity
  import opened Risk
  import Decimals
  import Backtest
  import opened Scheduler

  function ActiveCount(ledger: seq<TradeLedgerRecord>): nat
  {
    |Filter(ledger, IsActive())|
  }

  function ActiveNotional(ledger: seq<TradeLedgerRecord>): real
  {
    SumAmounts(Filter(ledger, IsActive()))
  }

  /** Spot notionals are never negative, as the record's schema demands. */
  predicate SpotNonNegative(ledger: seq<TradeLedgerRecord>)
  {
    forall r :: r in ledger ==> r.spotNotional >= 0.0
  }

  /** A save adds at most the saved record to the active ones. */
  lemma {:induction false} PutAddsAtMost(ledger: seq<TradeLedgerRecord>, saved: TradeLedgerRecord)
    requires SpotNonNegative(ledger) && saved.spotNotional >= 0.0
    ensures SpotNonNegative(Put(ledger, saved))
    ensures ActiveCount(Put(ledger, saved)) <= ActiveCount(ledger) + if IsActive()(saved) then 1 else 0
    ensures ActiveNotional(Put(ledger, saved))
         <= ActiveNotional(ledger) + if IsActive()(saved) then Amount(saved) else 0.0
  {
    if ledger == [] {
      FilterHead(saved, []);
      assert [saved] + [] == [saved];
    } else {
      var head, rest := ledger[0], ledger[1..];
      assert ledger == [head] + rest && head in ledger;
      FilterHead(head, rest);
      if head.tradeId == saved.tradeId {
        FilterHead(saved, rest);
      } else {
        PutAddsAtMost(rest, saved);
        FilterHead(head, Put(rest, saved));
      }
    }
  }

  lemma FilterHead(head: TradeLedgerRecord, rest: seq<TradeLedgerRecord>)
    ensures ActiveCount([head] + rest) == ActiveCount(rest) + if IsActive()(head) then 1 else 0
    ensures ActiveNotional([head] + rest) == ActiveNotional(rest) + if IsActive()(head) then Amount(head) else 0.0
  {
    assert ([head] + rest)[1..] == rest;
    var active := Filter(rest, IsActive());
    assert ([head] + active)[1..] == active && [] + active == active;
  }

  // ---- what one execution can do ------------------------------------------------------------

  /** An open saves one record of the requested size; when it raises, the record is not active. */
  lemma OpenSaves(cfg: ExecutionConfig, uuid: Ids, w: World, request: ExecutionIntentRequest, now: Time, safe: bool)
    returns (saved: Option<TradeLedgerRecord>)
    requires request.action == OpenHedge
    ensures var step := Execute(cfg, uuid, w, request, now, safe);
            && step.world.ledger == (if saved.Some? then Put(w.ledger, saved.value) else w.ledger)
            && (saved.Some? ==>
                  && saved.value.spotNotional == request.spotNotional
                  && saved.value.perpNotional == request.perpNotional)
            && (saved.Some? && step.outcome.Raised? ==> !IsActive()(saved.value))
  {
    hide NoteFailure, NoteResult, LiveOpen;
    saved := None;
    if !IsReplay(w, request) && safe {
      if request.mode == Paper {
        saved := PaperOpen(request, now).saved;
      } else {
        saved := LiveSaves(cfg, uuid, w, request, now);
      }
    }
  }

  lemma FailureKeepsLedger(cfg: ExecutionConfig, uuid: Ids, w: World, tradeId: string, at: Time, reason: string)
    ensures NoteFailure(cfg, uuid, w, tradeId, at, reason).ledger == w.ledger
  {
  }

  lemma ResultKeepsLedger(cfg: ExecutionConfig, uuid: Ids, w: World, result: ExecutionResult)
    ensures NoteResult(cfg, uuid, w, result).ledger == w.ledger
  {
  }

  /** What a live call saves, and that it is not active when the call raises, or closes. */
  lemma LiveSaves(cfg: ExecutionConfig, uuid: Ids, w: World, request: ExecutionIntentRequest, now: Time)
    returns (saved: Option<TradeLedgerRecord>)
    ensures var step := ExecuteLive(cfg, uuid, w, request, now);
            && step.world.ledger == (if saved.Some? then Put(w.ledger, saved.value) else w.ledger)
            && (saved.Some? && step.outcome.Raised? ==> !IsActive()(saved.value))
    ensures saved.Some? ==>
              if request.action == OpenHedge
              then saved.value.spotNotional == request.spotNotional && saved.value.perpNotional == request.perpNotional
              else !IsActive()(saved.value) && Find(w.ledger, request.tradeId).Some?
                   && saved.value.spotNotional == Find(w.ledger, request.tradeId).value.spotNotional
  {
    hide NoteFailure, NoteResult, LegDrafts, AnyLeg;
    if !NotionalAllowed(cfg, request.symbol, Decimals.Max(request.spotNotional, request.perpNotional))
       || GateShut(cfg, w.journal, now) {
      saved := None;
    } else {
      var open := w.(journal := GateJournal(cfg, w.journal, now));
      var body := LiveBody(cfg, open, request, now);
      saved := body.saved;
      var step := Finish(uuid, open, request.tradeId, Load(cfg.breaker, open.journal), body);
      if step.outcome.Raised? {
        FailureKeepsLedger(cfg, uuid, step.world, request.tradeId, now, step.outcome.error.text);
      } else {
        ResultKeepsLedger(cfg, uuid, step.world, step.outcome.value);
      }
    }
  }

  /** A close never adds to the active positions: what it saves is not active. */
  lemma CloseSaves(cfg: ExecutionConfig, uuid: Ids, w: World, request: ExecutionIntentRequest, now: Time, safe: bool)
    returns (saved: Option<TradeLedgerRecord>)
    requires request.action == CloseHedge
    ensures var step := Execute(cfg, uuid, w, request, now, safe);
            step.world.ledger == (if saved.Some? then Put(w.ledger, saved.value) else w.ledger)
    ensures saved.Some? ==>
              && !IsActive()(saved.value) && Find(w.ledger, request.tradeId).Some?
              && saved.value.spotNotional == Find(w.ledger, request.tradeId).value.spotNotional
  {
    hide NoteFailure, NoteResult, LiveClose, ExecuteLive;
    saved := None;
    if !IsReplay(w, request) && safe {
      if request.mode == Paper {
        saved := PaperClose(w, request, now).saved;
      } else {
        saved := LiveSaves(cfg, uuid, w, request, now);
      }
    }
  }

  // ---- one cycle ----------------------------------------------------------------------------------

  /** The loop's own counters never fall behind the ledger, and stay under the caps. */
  predicate Counted(loop: OpenLoop, before: seq<TradeLedgerRecord>, input: CycleInput)
  {
    && SpotNonNegative(loop.world.ledger)
    && ActiveCount(loop.world.ledger) <= loop.count
    && ActiveNotional(loop.world.ledger) <= loop.notional
    && (loop.count <= ActiveCount(before) || loop.count <= input.maxOpenPositions)
    && (loop.notional <= ActiveNotional(before) || loop.notional <= input.maxTotalNotional + TICKET)
  }

  lemma OpenOneIsCounted(cfg: ExecutionConfig, uuid: Ids, input: CycleInput, loop: OpenLoop, row: OpportunityScore,
                         i: nat, before: seq<TradeLedgerRecord>)
    requires Counted(loop, before, input)
    ensures Counted(OpenOne(cfg, uuid, input, loop, row, i), before, input)
  {
    hide Evaluate, Execute, ActiveCount, ActiveNotional, SpotNonNegative;
    var id := input.newIds(i);
    var saved := OpenSaves(cfg, uuid, loop.world, OpenRequest(input, row, id), input.clock(i), input.executeIsSafe(id));
    if saved.Some? {
      PutAddsAtMost(loop.world.ledger, saved.value);
    }
  }

  lemma {:induction false} OpenAllIsCounted(cfg: ExecutionConfig, uuid: Ids, input: CycleInput, w: World,
                                            rows: seq<OpportunityScore>)
    requires SpotNonNegative(w.ledger)
    ensures Counted(OpenAll(cfg, uuid, input, OpenStart(w), rows), w.ledger, input)
  {
    if rows != [] {
      var n := |rows| - 1;
      OpenAllIsCounted(cfg, uuid, input, w, rows[..n]);
      OpenOneIsCounted(cfg, uuid, input, OpenAll(cfg, uuid, input, OpenStart(w), rows[..n]), rows[n], n, w.ledger);
    }
  }

  predicate NoMoreThan(after: seq<TradeLedgerRecord>, before: seq<TradeLedgerRecord>)
  {
    && SpotNonNegative(after) && ActiveCount(after) <= ActiveCount(before)
    && ActiveNotional(after) <= ActiveNotional(before)
  }

  lemma {:induction false} CloseAllAddsNothing(cfg: ExecutionConfig, uuid: Ids, input: CycleInput, start: CloseLoop,
                                               rows: seq<OpportunityScore>, active: seq<TradeLedgerRecord>)
    requires SpotNonNegative(start.world.ledger)
    ensures NoMoreThan(CloseAll(cfg, uuid, input, start, rows, active).world.ledger, start.world.ledger)
  {
    hide ActiveCount, ActiveNotional, Execute, WantsClose;
    if active != [] {
      var n := |active| - 1;
      CloseAllAddsNothing(cfg, uuid, input, start, rows, active[..n]);
      var loop := CloseAll(cfg, uuid, input, start, rows, active[..n]);
      if WantsClose(input, rows, active[n]) {
        var saved := CloseSaves(cfg, uuid, loop.world, CloseRequest(active[n]), input.clock(|rows| + n),
                                input.executeIsSafe(active[n].tradeId));
        if saved.Some? {
          FindBelongs(loop.world.ledger, active[n].tradeId);
          PutAddsAtMost(loop.world.ledger, saved.value);
        }
      }
    }
  }

  /** The caps after a cycle, against the positions before it. */
  predicate WithinCaps(after: seq<TradeLedgerRecord>, before: seq<TradeLedgerRecord>, maxOpen: int, maxTotal: real)
  {
    && SpotNonNegative(after)
    && (ActiveCount(after) <= ActiveCount(before) || ActiveCount(after) <= maxOpen)
    && (ActiveNotional(after) <= ActiveNotional(before) || ActiveNotional(after) <= maxTotal + TICKET)
  }

  lemma CycleStaysWithinCaps(cfg: ExecutionConfig, uuid: Ids, w: World, input: CycleInput)
    requires SpotNonNegative(w.ledger)
    ensures WithinCaps(Cycle(cfg, uuid, w, input).closing.world.ledger, w.ledger, input.maxOpenPositions,
                       input.maxTotalNotional)
  {
    hide ActiveCount, ActiveNotional, OpenAll, CloseAll, SpotNonNegative;
    var rows := Backtest.Ranked(input.snapshots, input.scoreConfig);
    OpenAllIsCounted(cfg, uuid, input, w, rows);
    var opening := OpenAll(cfg, uuid, input, OpenStart(w), rows);
    CloseAllAddsNothing(cfg, uuid, input, CloseLoop(opening.world, 0, 0, []), rows, Filter(w.ledger, IsActive()));
  }

  // ---- any number of cycles ---------------------------------------------------------------------------

  function Cycles(cfg: ExecutionConfig, uuid: Ids, w: World, inputs: seq<CycleInput>): World
  {
    if inputs == [] then w
    else Cycle(cfg, uuid, Cycles(cfg, uuid, w, inputs[..|inputs| - 1]), inputs[|inputs| - 1]).closing.world
  }

  /** Over any number of cycles under the same caps, the active positions never exceed the
      larger of their initial number and the cap, and their notional never exceeds the larger
      of the initial sum and the cap plus one ticket. */
  lemma {:induction false} CapsHoldOverCycles(cfg: ExecutionConfig, uuid: Ids, w: World, inputs: seq<CycleInput>,
                                              maxOpen: int, maxTotal: real)
    requires SpotNonNegative(w.ledger)
    requires forall input :: input in inputs ==> input.maxOpenPositions <= maxOpen && input.maxTotalNotional <= maxTotal
    ensures WithinCaps(Cycles(cfg, uuid, w, inputs).ledger, w.ledger, maxOpen, maxTotal)
  {
    hide ActiveCount, ActiveNotional, SpotNonNegative, Cycle;
    if inputs != [] {
      var n := |inputs| - 1;
      CapsHoldOverCycles(cfg, uuid, w, inputs[..n], maxOpen, maxTotal);
      CycleStaysWithinCaps(cfg, uuid, Cycles(cfg, uuid, w, inputs[..n]), inputs[n]);
      assert inputs[n] in inputs;
    }
  }

  /** The amount a position binds: its larger leg. */
  function LargerLeg(r: TradeLedgerRecord): real
  {
    if r.spotNotional < r.perpNotional then r.perpNotional else r.spotNotional
  }

  /** What the positions that are open or hedged bind together. */
  function Bound(ledger: seq<TradeLedgerRecord>): real
  {
    if ledger == [] then 0.0
    else (if ledger[0].status in {Open, Hedged} then LargerLeg(ledger[0]) else 0.0) + Bound(ledger[1..])
  }

  /** What the caps are about: the number of trades that are open or hedged, and the sum of
      their larger legs. */
  lemma {:induction false} CapsCountPositions(ledger: seq<TradeLedgerRecord>)
    ensures ActiveCount(ledger) == |set i | 0 <= i < |ledger| && ledger[i].status in {Open, Hedged}|
    ensures ActiveNotional(ledger) == Bound(ledger)
  {
    FilterSize(ledger, IsActive());
    assert Places(ledger, IsActive()) == set i | 0 <= i < |ledger| && ledger[i].status in {Open, Hedged};
    if ledger != [] {
      CapsCountPositions(ledger[1..]);
      FilterHead(ledger[0], ledger[1..]);
      assert ledger == [ledger[0]] + ledger[1..];
    }
  }
}
