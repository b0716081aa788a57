/** The live-execution circuit breaker: a stored state with lazy expiry. The store is
    modelled by the journal of everything ever saved to it; loading reads the last entry. */
module CircuitBreaker {
  import opened Options
  import opened Ledger

  datatype BreakerConfig = BreakerConfig(enabled: bool, failureThreshold: nat, cooldown: nat)

  datatype BreakerState = BreakerState(
    enabled: bool,
    isOpen: bool,
    failureThreshold: nat,
    cooldown: nat,
    consecutiveFailures: nat,
    lastFailureAt: Option<Time>,
    openedAt: Option<Time>,
    resumeAt: Option<Time>,
    lastReason: Option<string>,
    lastTradeId: Option<string>)

  type Journal = seq<BreakerState>

  function Load(cfg: BreakerConfig, journal: Journal): BreakerState
  {
    if journal == [] then
      BreakerState(cfg.enabled, false, cfg.failureThreshold, cfg.cooldown, 0, None, None, None, None, None)
    else
      journal[|journal| - 1].(enabled := cfg.enabled,
                              failureThreshold := cfg.failureThreshold, cooldown := cfg.cooldown)
  }

  function Cleared(state: BreakerState): BreakerState
  {
    state.(isOpen := false, consecutiveFailures := 0, openedAt := None, resumeAt := None, lastReason := None)
  }

  predicate Expired(state: BreakerState, now: Time)
  {
    state.isOpen && state.resumeAt.Some? && now >= state.resumeAt.value
  }

  /** The journal after `get_state(now)`, and the state it returns. */
  function Polled(cfg: BreakerConfig, journal: Journal, now: Time): Journal
  {
    var state := Load(cfg, journal);
    if Expired(state, now) then journal + [Cleared(state)] else journal
  }

  function Current(cfg: BreakerConfig, journal: Journal, now: Time): BreakerState
  {
    Load(cfg, Polled(cfg, journal, now))
  }

  /** A second poll at the same time finds nothing to do. */
  lemma PolledTwice(cfg: BreakerConfig, journal: Journal, now: Time)
    ensures Polled(cfg, Polled(cfg, journal, now), now) == Polled(cfg, journal, now)
  {
  }

  function AfterFailure(cfg: BreakerConfig, journal: Journal, now: Time, tradeId: string, reason: string): Journal
  {
    var polled := Polled(cfg, journal, now);
    var state := Load(cfg, polled);
    if !state.enabled then polled
    else
      var failures := state.consecutiveFailures + 1;
      var isOpen := failures >= state.failureThreshold;
      polled + [state.(isOpen := isOpen,
                       consecutiveFailures := failures, lastFailureAt := Some(now),
                       openedAt := if isOpen then Some(now) else None,
                       resumeAt := if isOpen then Some(now + state.cooldown) else None, lastReason := Some(reason),
                       lastTradeId := Some(tradeId))]
  }

  function AfterSuccess(cfg: BreakerConfig, journal: Journal, now: Time, tradeId: string): Journal
  {
    var polled := Polled(cfg, journal, now);
    var state := Load(cfg, polled);
    if !state.enabled then polled else polled + [Cleared(state).(lastTradeId := Some(tradeId))]
  }

  function AfterReset(cfg: BreakerConfig, journal: Journal, now: Time): Journal
  {
    var polled := Polled(cfg, journal, now);
    polled + [Cleared(Load(cfg, polled))]
  }

  class ExecutionCircuitBreakerService {
    const cfg: BreakerConfig
    var saves: Journal

    constructor (cfg: BreakerConfig)
      ensures this.cfg == cfg && saves == []
    {
      this.cfg := cfg;
      saves := [];
    }

    method LoadState() returns (state: BreakerState)
      ensures state == Load(cfg, saves)
    {
      if |saves| == 0 {
        return BreakerState(cfg.enabled, false, cfg.failureThreshold, cfg.cooldown, 0, None, None, None, None, None);
      }
      state := saves[|saves| - 1];
      state := state.(enabled := cfg.enabled, failureThreshold := cfg.failureThreshold, cooldown := cfg.cooldown);
    }

    method GetState(now: Time) returns (state: BreakerState)
      modifies this
      ensures saves == Polled(cfg, old(saves), now)
      ensures state == Load(cfg, saves)
    {
      state := LoadState();
      if state.isOpen && state.resumeAt.Some? && now >= state.resumeAt.value {
        state := state.(isOpen := false, consecutiveFailures := 0, openedAt := None, resumeAt := None,
                        lastReason := None);
        saves := saves + [state];
      }
    }

    /** False when the call would raise "circuit breaker is open". */
    method EnsureAllowsExecution(now: Time) returns (allowed: bool)
      modifies this
      ensures saves == Polled(cfg, old(saves), now)
      ensures allowed <==> !(cfg.enabled && Current(cfg, old(saves), now).isOpen)
    {
      var state := GetState(now);
      return !(state.enabled && state.isOpen);
    }

    method RecordFailure(tradeId: string, reason: string, now: Time) returns (state: BreakerState)
      modifies this
      ensures saves == AfterFailure(cfg, old(saves), now, tradeId, reason)
      ensures state == Load(cfg, saves)
    {
      state := GetState(now);
      if !state.enabled {
        return;
      }
      var failures := state.consecutiveFailures + 1;
      var isOpen := failures >= state.failureThreshold;
      state := state.(isOpen := isOpen, consecutiveFailures := failures, lastFailureAt := Some(now),
                      openedAt := if isOpen then Some(now) else None,
                      resumeAt := if isOpen then Some(now + state.cooldown) else None,
                      lastReason := Some(reason), lastTradeId := Some(tradeId));
      saves := saves + [state];
    }

    method RecordSuccess(tradeId: string, now: Time) returns (state: BreakerState)
      modifies this
      ensures saves == AfterSuccess(cfg, old(saves), now, tradeId)
      ensures state == Load(cfg, saves)
    {
      state := GetState(now);
      if !state.enabled {
        return;
      }
      state := state.(isOpen := false, consecutiveFailures := 0, openedAt := None, resumeAt := None,
                      lastReason := None, lastTradeId := Some(tradeId));
      saves := saves + [state];
    }

    method ManualReset(now: Time) returns (state: BreakerState)
      modifies this
      ensures saves == AfterReset(cfg, old(saves), now)
      ensures state == Load(cfg, saves)
    {
      state := GetState(now);
      state := state.(isOpen := false, consecutiveFailures := 0, openedAt := None, resumeAt := None,
                      lastReason := None);
      saves := saves + [state];
    }
  }
}

/** What the breaker promises over whole histories of calls. */
module BreakerHistory {
  import opened Options
  import opened Ledger
  import opened CircuitBreaker

  datatype BreakerOp =
    | Poll(at: Time)
    | Failure(at: Time, tradeId: string, reason: string)
    | Success(at: Time, tradeId: string)
    | ManualReset(at: Time)

  function Apply(cfg: BreakerConfig, journal: Journal, op: BreakerOp): Journal
  {
    match op
    case Poll(at) => Polled(cfg, journal, at)
    case Failure(at, tradeId, reason) => AfterFailure(cfg, journal, at, tradeId, reason)
    case Success(at, tradeId) => AfterSuccess(cfg, journal, at, tradeId)
    case ManualReset(at) => AfterReset(cfg, journal, at)
  }

  function Replay(cfg: BreakerConfig, ops: seq<BreakerOp>): Journal
  {
    if ops == [] then [] else Apply(cfg, Replay(cfg, ops[..|ops| - 1]), ops[|ops| - 1])
  }

  // ---- the reference: no stored flags, no polls ------------------------------

  /** Enough failures, and the cooldown after the last of them is over. */
  predicate Lapsed(cfg: BreakerConfig, failures: seq<Time>, now: Time)
  {
    failures != [] && |failures| >= cfg.failureThreshold && now >= failures[|failures| - 1] + cfg.cooldown
  }

  predicate OpenAt(cfg: BreakerConfig, failures: seq<Time>, now: Time)
  {
    failures != [] && |failures| >= cfg.failureThreshold && now < failures[|failures| - 1] + cfg.cooldown
  }

  /** The failures since the last success, reset or expiry. */
  function Streak(cfg: BreakerConfig, ops: seq<BreakerOp>): seq<Time>
  {
    if ops == [] then []
    else
      var earlier := Streak(cfg, ops[..|ops| - 1]);
      match ops[|ops| - 1]
      case Poll(_) => earlier
      case Failure(at, _, _) => (if Lapsed(cfg, earlier, at) then [] else earlier) + [at]
      case Success(_, _) => []
      case ManualReset(_) => []
  }

  predicate ClockForward(ops: seq<BreakerOp>)
  {
    forall i, j :: 0 <= i < j < |ops| ==> ops[i].at <= ops[j].at
  }

  predicate NotBefore(ops: seq<BreakerOp>, now: Time)
  {
    ops != [] ==> ops[|ops| - 1].at <= now
  }

  predicate Matches(cfg: BreakerConfig, state: BreakerState, failures: seq<Time>)
  {
    && state.consecutiveFailures == |failures|
    && (state.isOpen <==> failures != [] && |failures| >= cfg.failureThreshold)
    && state.resumeAt == if state.isOpen then Some(failures[|failures| - 1] + cfg.cooldown) else None
  }

  /** The stored state is the streak's, or the streak lapsed and a poll cleared it. */
  predicate Simulates(cfg: BreakerConfig, state: BreakerState, failures: seq<Time>, now: Time)
  {
    Matches(cfg, state, failures) || (Lapsed(cfg, failures, now) && Matches(cfg, state, []))
  }

  lemma PollSimulates(cfg: BreakerConfig, journal: Journal, failures: seq<Time>, before: Time, now: Time)
    requires before <= now && Simulates(cfg, Load(cfg, journal), failures, before)
    ensures Simulates(cfg, Current(cfg, journal, now), failures, now)
    ensures Matches(cfg, Current(cfg, journal, now), if Lapsed(cfg, failures, now) then [] else failures)
  {
  }

  lemma {:induction false} ReplaySimulates(cfg: BreakerConfig, ops: seq<BreakerOp>, now: Time)
    requires cfg.enabled && ClockForward(ops) && NotBefore(ops, now)
    ensures Simulates(cfg, Load(cfg, Replay(cfg, ops)), Streak(cfg, ops), now)
  {
    if ops != [] {
      var earlier, op := ops[..|ops| - 1], ops[|ops| - 1];
      var journal := Replay(cfg, earlier);
      ReplaySimulates(cfg, earlier, op.at);
      PollSimulates(cfg, journal, Streak(cfg, earlier), op.at, op.at);
      assert Simulates(cfg, Load(cfg, Replay(cfg, ops)), Streak(cfg, ops), op.at);
    }
  }

  /** The lazily expiring breaker is the history reference: at any time that is not
      before the last call, it is open exactly when enough failures occurred since the
      last success, reset or expiry and the cooldown after the last one still runs. */
  lemma BreakerRefinesHistory(cfg: BreakerConfig, ops: seq<BreakerOp>, now: Time)
    requires cfg.enabled && ClockForward(ops) && NotBefore(ops, now)
    ensures Current(cfg, Replay(cfg, ops), now).isOpen <==> OpenAt(cfg, Streak(cfg, ops), now)
    ensures Matches(cfg, Current(cfg, Replay(cfg, ops), now),
                    if Lapsed(cfg, Streak(cfg, ops), now) then [] else Streak(cfg, ops))
  {
    ReplaySimulates(cfg, ops, now);
    PollSimulates(cfg, Replay(cfg, ops), Streak(cfg, ops), now, now);
  }

  function WithoutPolls(ops: seq<BreakerOp>): seq<BreakerOp>
  {
    if ops == [] then []
    else WithoutPolls(ops[..|ops| - 1]) + (if ops[|ops| - 1].Poll? then [] else [ops[|ops| - 1]])
  }

  lemma {:induction false} StreakIgnoresPolls(cfg: BreakerConfig, ops: seq<BreakerOp>)
    ensures Streak(cfg, WithoutPolls(ops)) == Streak(cfg, ops)
  {
    if ops != [] {
      var earlier := WithoutPolls(ops[..|ops| - 1]);
      StreakIgnoresPolls(cfg, ops[..|ops| - 1]);
      assert earlier + [] == earlier;
      assert (earlier + [ops[|ops| - 1]])[..|earlier|] == earlier;
    }
  }

  /** What a reader of the state at `now` learns. */
  function Verdict(cfg: BreakerConfig, ops: seq<BreakerOp>, now: Time): (bool, Option<Time>, nat)
  {
    var state := Current(cfg, Replay(cfg, ops), now);
    (state.isOpen, state.resumeAt, state.consecutiveFailures)
  }

  /** A disabled breaker never leaves its initial state, whatever is reported to it. */
  lemma {:induction false} DisabledStaysClear(cfg: BreakerConfig, ops: seq<BreakerOp>)
    requires !cfg.enabled
    ensures forall s :: s in Replay(cfg, ops) ==> !s.isOpen && s.resumeAt.None? && s.consecutiveFailures == 0
  {
    if ops != [] {
      var journal := Replay(cfg, ops[..|ops| - 1]);
      DisabledStaysClear(cfg, ops[..|ops| - 1]);
      assert journal != [] ==> journal[|journal| - 1] in journal;
    }
  }

  lemma DisabledVerdict(cfg: BreakerConfig, ops: seq<BreakerOp>, now: Time)
    requires !cfg.enabled
    ensures Verdict(cfg, ops, now) == (false, None, 0)
  {
    DisabledStaysClear(cfg, ops);
    var journal := Replay(cfg, ops);
    assert journal != [] ==> journal[|journal| - 1] in journal;
  }

  /** Reading the state any number of times, anywhere in a history, changes no later verdict. */
  lemma PollsChangeNothing(cfg: BreakerConfig, ops: seq<BreakerOp>, polled: seq<BreakerOp>, now: Time)
    requires WithoutPolls(ops) == WithoutPolls(polled)
    requires ClockForward(ops) && NotBefore(ops, now)
    requires ClockForward(polled) && NotBefore(polled, now)
    ensures Verdict(cfg, ops, now) == Verdict(cfg, polled, now)
  {
    if cfg.enabled {
      hide Replay, WithoutPolls, Streak, Current;
      StreakIgnoresPolls(cfg, ops);
      StreakIgnoresPolls(cfg, polled);
      BreakerRefinesHistory(cfg, ops, now);
      BreakerRefinesHistory(cfg, polled, now);
    } else {
      hide Verdict;
      DisabledVerdict(cfg, ops, now);
      DisabledVerdict(cfg, polled, now);
    }
  }

  /** Whatever the clock does, one more poll changes the verdict at `now` exactly when the
      breaker has expired by the time of the poll but not by `now`. */
  lemma PollMattersIff(cfg: BreakerConfig, ops: seq<BreakerOp>, at: Time, now: Time)
    ensures Verdict(cfg, ops + [Poll(at)], now) != Verdict(cfg, ops, now)
       <==> Expired(Load(cfg, Replay(cfg, ops)), at) && !Expired(Load(cfg, Replay(cfg, ops)), now)
  {
    assert (ops + [Poll(at)])[..|ops|] == ops;
  }

  /** A poll that finds nothing to expire can be left out anywhere in a history. */
  lemma {:induction false} IdlePollIsInvisible(cfg: BreakerConfig, ops: seq<BreakerOp>, at: Time, rest: seq<BreakerOp>)
    requires !Expired(Load(cfg, Replay(cfg, ops)), at)
    ensures Replay(cfg, ops + [Poll(at)] + rest) == Replay(cfg, ops + rest)
  {
    if rest == [] {
      assert ops + [Poll(at)] + [] == ops + [Poll(at)] && ops + [] == ops;
      assert (ops + [Poll(at)])[..|ops|] == ops;
    } else {
      var n := |rest| - 1;
      IdlePollIsInvisible(cfg, ops, at, rest[..n]);
      hide Apply, Expired, Load;
      OneOpMore(cfg, ops + [Poll(at)], rest);
      OneOpMore(cfg, ops, rest);
    }
  }

  lemma OneOpMore(cfg: BreakerConfig, ops: seq<BreakerOp>, rest: seq<BreakerOp>)
    requires rest != []
    ensures var n := |rest| - 1; Replay(cfg, ops + rest) == Apply(cfg, Replay(cfg, ops + rest[..n]), rest[n])
  {
    hide Apply;
    var n := |rest| - 1;
    assert (ops + rest)[..|ops| + n] == ops + rest[..n];
  }

  /** Such histories exist once the clock runs backwards: a poll at time 20 expires the
      breaker, and asking about time 5 afterwards gives another answer than without it. */
  lemma PollsMatterWhenTheClockRunsBack(cfg: BreakerConfig, failure: BreakerOp)
    requires cfg == BreakerConfig(true, 1, 10) && failure == Failure(0, "t", "r")
    ensures Current(cfg, Replay(cfg, [failure]), 5).isOpen
    ensures !Current(cfg, Replay(cfg, [failure, Poll(20)]), 5).isOpen
    ensures Verdict(cfg, [failure] + [Poll(20)], 5) != Verdict(cfg, [failure], 5)
  {
    assert [failure][..0] == [] && [failure, Poll(20)] == [failure] + [Poll(20)];
    assert Replay(cfg, [failure]) == AfterFailure(cfg, [], 0, "t", "r");
    PollMattersIff(cfg, [failure], 20, 5);
  }

  // ---- facts about every saved state, whatever the clock does ---------------

  /** A manual reset saves a clear state, whatever was stored and whether the breaker is enabled
      or not. */
  lemma ResetAlwaysClears(cfg: BreakerConfig, journal: Journal, at: Time)
    ensures var after := AfterReset(cfg, journal, at);
            && |after| > |journal| && journal <= after
            && !after[|after| - 1].isOpen && after[|after| - 1].consecutiveFailures == 0
            && after[|after| - 1].resumeAt == after[|after| - 1].openedAt == None
  {
  }

  /** What the stored state remembers of an enabled breaker's history, whatever the clock does:
      the trade of the last failure or success, the time of the last failure, and the reason of
      the last failure for as long as failures are counted. */
  lemma {:induction false} StateRemembers(cfg: BreakerConfig, ops: seq<BreakerOp>)
    requires cfg.enabled
    ensures var state := Load(cfg, Replay(cfg, ops));
            && state.lastTradeId == LastTrade(ops)
            && state.lastFailureAt == (if LastFailure(ops).Some? then Some(LastFailure(ops).value.at) else None)
            && (state.consecutiveFailures > 0 ==>
                  LastFailure(ops).Some? && state.lastReason == Some(LastFailure(ops).value.reason))
            && (state.consecutiveFailures == 0 ==> state.lastReason == None)
  {
    if ops != [] {
      StateRemembers(cfg, ops[..|ops| - 1]);
    }
  }

  function LastFailure(ops: seq<BreakerOp>): (last: Option<BreakerOp>)
    ensures last.Some? ==> last.value.Failure?
  {
    if ops == [] then None
    else if ops[|ops| - 1].Failure? then Some(ops[|ops| - 1])
    else LastFailure(ops[..|ops| - 1])
  }

  function LastTrade(ops: seq<BreakerOp>): Option<string>
  {
    if ops == [] then None
    else if ops[|ops| - 1].Failure? || ops[|ops| - 1].Success? then Some(ops[|ops| - 1].tradeId)
    else LastTrade(ops[..|ops| - 1])
  }

  /** Open, "resume time set" and "threshold reached" are one and the same. */
  predicate Coherent(cfg: BreakerConfig, state: BreakerState)
  {
    && (state.isOpen <==> state.resumeAt.Some?)
    && (state.isOpen <==> state.openedAt.Some?)
    && (state.isOpen <==> state.consecutiveFailures >= cfg.failureThreshold)
    && (state.isOpen ==> state.lastFailureAt == state.openedAt)
    && (state.isOpen ==> state.resumeAt == Some(state.openedAt.value + cfg.cooldown))
  }

  lemma {:induction false} EverySavedStateIsCoherent(cfg: BreakerConfig, ops: seq<BreakerOp>)
    requires cfg.failureThreshold >= 1
    ensures forall s :: s in Replay(cfg, ops) ==> Coherent(cfg, s)
    ensures !cfg.enabled ==> forall s :: s in Replay(cfg, ops) ==> !s.isOpen
  {
    if ops != [] {
      var journal := Replay(cfg, ops[..|ops| - 1]);
      EverySavedStateIsCoherent(cfg, ops[..|ops| - 1]);
      CallKeepsCoherent(cfg, journal, ops[|ops| - 1]);
    }
  }

  lemma CallKeepsCoherent(cfg: BreakerConfig, journal: Journal, op: BreakerOp)
    requires cfg.failureThreshold >= 1
    requires forall s :: s in journal ==> Coherent(cfg, s)
    ensures forall s :: s in Apply(cfg, journal, op) ==> Coherent(cfg, s)
    ensures !cfg.enabled && (forall s :: s in journal ==> !s.isOpen) ==>
              forall s :: s in Apply(cfg, journal, op) ==> !s.isOpen
  {
  }
}
