/** Tuning: parameter packages around the current configuration, which of them is recommended,
    and applying one. */
module Tuning {
  import opened Options
  import opened Lists
  import opened Decimals
  import opened Execution
  import opened Opportunity
  import opened Risk
  import opened Backtest

  datatype TuningConfig = TuningConfig(score: ScoreConfig, risk: RiskPolicyConfig, backtest: BacktestConfig)

  datatype PackageId = Conservative | Balanced | Aggressive | Auto

  datatype ReasonCode =
    WinRateWeak | RealizedEdgeWeak | ProjectionShortfallHigh | DrawdownHigh | PaybackSlow | SampleTooSmall |
    StabilityFirst | ThroughputBias

  datatype TuningPackage = TuningPackage(packageId: PackageId, derivedFrom: Option<PackageId>, reasons: seq<ReasonCode>,
                                         config: TuningConfig)

  datatype TuningState = TuningState(activePackage: PackageId, config: TuningConfig)

  const DEFAULT_BACKTEST := BacktestConfig(1000.0, 0.0, 0.0, 1, false)

  const DEFAULT_STATE := TuningState(Balanced,
                                     TuningConfig(DEFAULT_SCORE_CONFIG, DEFAULT_RISK_CONFIG, DEFAULT_BACKTEST))

  // ---- metrics of the trade samples -----------------------------------------------------

  datatype LearningTradeSample = LearningTradeSample(
    realizedPnlBps: real, projectedBps: real, maxDrawdownBps: real, holdPeriods: real)

  datatype AdaptationMetrics = AdaptationMetrics(
    tradeCount: nat,
    winRate: real,
    avgRealized: real,
    avgProjected: real,
    avgShortfall: real,
    maxDrawdownP95: real,
    slowPaybackRate: real)

  function Drawdown(): LearningTradeSample -> real { (s: LearningTradeSample) => s.maxDrawdownBps }

  function Realized(): LearningTradeSample -> real { (s: LearningTradeSample) => s.realizedPnlBps }

  function Projected(): LearningTradeSample -> real { (s: LearningTradeSample) => s.projectedBps }

  function Shortfall(): LearningTradeSample -> real { (s: LearningTradeSample) => s.projectedBps - s.realizedPnlBps }

  function Won(): LearningTradeSample -> bool { (s: LearningTradeSample) => s.realizedPnlBps > 0.0 }

  function Slow(): LearningTradeSample -> bool { (s: LearningTradeSample) => s.holdPeriods >= 7.0 }

  predicate RealLe(x: real, y: real)
  {
    x <= y
  }

  /** The index of the 95th percentile in a sorted list of n values. */
  function P95Index(n: nat): nat
    requires n > 0
  {
    (n - 1) * 95 / 100
  }

  function Rate(count: nat, total: nat): real
    requires total > 0
  {
    Round4(count as real / total as real)
  }

  function ComputeMetrics(samples: seq<LearningTradeSample>): AdaptationMetrics
  {
    if samples == [] then AdaptationMetrics(0, 0.0, 0.0, 0.0, 0.0, 0.0, 0.0)
    else
      var n := |samples|;
      var drawdowns := Sort(Map(samples, Drawdown()), RealLe);
      AdaptationMetrics(n, Rate(|Filter(samples, Won())|, n), Average(Map(samples, Realized())),
                        Average(Map(samples, Projected())), Average(Map(samples, Shortfall())),
                        if P95Index(n) < |drawdowns| then Round4(drawdowns[P95Index(n)]) else 0.0,
                        Rate(|Filter(samples, Slow())|, n))
  }

  // ---- the packages -----------------------------------------------------------------------

  function StabilityReasons(m: AdaptationMetrics): seq<ReasonCode>
  {
    (if m.winRate < 0.55 then [WinRateWeak] else [])
    + (if m.avgRealized < 0.25 then [RealizedEdgeWeak] else [])
    + (if m.avgShortfall > 2.0 then [ProjectionShortfallHigh] else [])
    + (if m.maxDrawdownP95 > 6.0 then [DrawdownHigh] else [])
    + (if m.slowPaybackRate > 0.4 then [PaybackSlow] else [])
  }

  function MinInt(x: int, y: int): int { if y < x then y else x }

  function MaxInt(x: int, y: int): int { if x < y then y else x }

  function ConservativePackage(c: TuningConfig, m: AdaptationMetrics): TuningPackage
  {
    TuningPackage(Conservative, None, StabilityReasons(m),
      TuningConfig(
        c.score.(expectedHoldPeriods := MinInt(c.score.expectedHoldPeriods + 2, 12),
                 basisGuardedBps := Max(c.score.basisGuardedBps - 1.0, 4.0),
                 paybackGuardedPeriods := Max(c.score.paybackGuardedPeriods - 0.25, 0.5),
                 costPenaltyWeight := c.score.costPenaltyWeight + 0.25,
                 basisPenaltyWeight := c.score.basisPenaltyWeight + 0.25),
        c.risk.(minAllowScore := c.risk.minAllowScore + 15.0,
                minReviewScore := c.risk.minReviewScore + 5.0,
                maxAllowBasisBps := Max(c.risk.maxAllowBasisBps - 1.0, 4.0),
                maxAllowPaybackPeriods := Max(c.risk.maxAllowPaybackPeriods - 0.2, 0.6)),
        c.backtest.(minScore := c.backtest.minScore + 10.0, acceptReviewed := false)))
  }

  function BalancedPackage(c: TuningConfig): TuningPackage
  {
    TuningPackage(Balanced, None, [StabilityFirst],
      c.(score := c.score.(expectedHoldPeriods := MaxInt(c.score.expectedHoldPeriods, 6))))
  }

  function AggressivePackage(c: TuningConfig): TuningPackage
  {
    TuningPackage(Aggressive, None, [ThroughputBias],
      TuningConfig(
        c.score.(expectedHoldPeriods := MaxInt(c.score.expectedHoldPeriods - 1, 4),
                 basisGuardedBps := c.score.basisGuardedBps + 1.0,
                 paybackGuardedPeriods := c.score.paybackGuardedPeriods + 0.25),
        c.risk.(minAllowScore := Max(c.risk.minAllowScore - 15.0, 50.0),
                maxAllowBasisBps := c.risk.maxAllowBasisBps + 1.0,
                maxAllowPaybackPeriods := c.risk.maxAllowPaybackPeriods + 0.2),
        c.backtest.(minScore := Max(c.backtest.minScore - 10.0, 0.0), acceptReviewed := true,
                    topK := MinInt(c.backtest.topK + 1, 3))))
  }

  function AutoReasons(m: AdaptationMetrics): seq<ReasonCode>
  {
    StabilityReasons(m) + if m.tradeCount < 5 then [SampleTooSmall] else []
  }

  function AutoTarget(m: AdaptationMetrics): PackageId
  {
    if AutoReasons(m) != [] then Conservative else Balanced
  }

  function AutoPackage(c: TuningConfig, m: AdaptationMetrics): TuningPackage
  {
    TuningPackage(Auto, Some(AutoTarget(m)), if AutoReasons(m) != [] then AutoReasons(m) else [StabilityFirst],
                  if AutoTarget(m) == Conservative then ConservativePackage(c, m).config else BalancedPackage(c).config)
  }

  /** The recommended packages, the automatic choice last. */
  function Packages(c: TuningConfig, m: AdaptationMetrics): (packages: seq<TuningPackage>)
    ensures |packages| == 4
  {
    [ConservativePackage(c, m), BalancedPackage(c), AggressivePackage(c), AutoPackage(c, m)]
  }

  function Applied(package: TuningPackage): TuningState
  {
    TuningState(package.packageId, package.config)
  }

  class AdaptationService {
    var state: TuningState

    constructor ()
      ensures state == DEFAULT_STATE
    {
      state := DEFAULT_STATE;
    }

    method Recommend(samples: seq<LearningTradeSample>) returns (packages: seq<TuningPackage>)
      ensures packages == Packages(state.config, ComputeMetrics(samples))
    {
      var metrics := ComputeMetrics(samples);
      var conservative := ConservativePackage(state.config, metrics);
      var balanced := BalancedPackage(state.config);
      var aggressive := AggressivePackage(state.config);
      var target := if AutoTarget(metrics) == Conservative then conservative else balanced;
      var reasons := if AutoReasons(metrics) != [] then AutoReasons(metrics) else [StabilityFirst];
      var auto := TuningPackage(Auto, Some(AutoTarget(metrics)), reasons, target.config);
      return [conservative, balanced, aggressive, auto];
    }

    method Apply(package: TuningPackage, confirmed: bool) returns (outcome: Outcome<TuningState>)
      modifies this
      ensures confirmed ==> state == Applied(package) && outcome == Returned(state)
      ensures confirmed ==> state.activePackage == package.packageId && state.config == package.config
      ensures !confirmed ==> state == old(state) && outcome.Raised? && outcome.error.ValueError?
    {
      if !confirmed {
        return Raised(ValueError("manual confirmation is required before applying a tuning package"));
      }
      state := Applied(package);
      return Returned(state);
    }
  }
}
