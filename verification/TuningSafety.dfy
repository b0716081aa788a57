/** Tuning stays within its limits over every run, and stays ordered at every step. */
module TuningSafety {
  import opened Options
  import opened Lists
  import opened Decimals
  import opened Opportunity
  import opened Risk
  import opened EdgeMonotonicity
  import opened Backtest
  import opened BacktestLaws
  import opened Tuning

  /** The limits a configuration keeps whatever packages are applied. */
  predicate InLimits(c: TuningConfig)
  {
    && 4 <= c.score.expectedHoldPeriods <= 12
    && c.score.basisGuardedBps >= 4.0 && c.score.paybackGuardedPeriods >= 0.5
    && c.risk.maxAllowBasisBps >= 4.0 && c.risk.maxAllowPaybackPeriods >= 0.6
    && c.risk.minAllowScore >= 50.0 && c.risk.minReviewScore >= 10.0
    && c.backtest.minScore >= 0.0 && 1 <= c.backtest.topK <= 3
  }

  /** What no package touches, and the weights, which only grow. */
  predicate SameBase(c: TuningConfig)
  {
    && c.score.takerFeeBps == DEFAULT_SCORE_CONFIG.takerFeeBps
    && c.score.fundingPeriodsPerDay == DEFAULT_SCORE_CONFIG.fundingPeriodsPerDay
    && c.score.carryWeight == DEFAULT_SCORE_CONFIG.carryWeight
    && c.score.annualizedWeight == DEFAULT_SCORE_CONFIG.annualizedWeight
    && c.score.costPenaltyWeight >= DEFAULT_SCORE_CONFIG.costPenaltyWeight
    && c.score.basisPenaltyWeight >= DEFAULT_SCORE_CONFIG.basisPenaltyWeight
    && c.risk.maxReviewBasisBps == DEFAULT_RISK_CONFIG.maxReviewBasisBps
    && c.backtest.notionalPerTrade == DEFAULT_BACKTEST.notionalPerTrade
  }

  /** One step of a run: recommend from some samples, then apply one of the packages. A
      package may come from an earlier recommendation, so the step names its base state. */
  datatype Tuned = Tuned(samples: seq<LearningTradeSample>, choice: nat, base: nat)

  /** The states of a run, the default state first; a step that names no existing base or
      package is refused and leaves the state. */
  function States(steps: seq<Tuned>): (states: seq<TuningState>)
    ensures |states| == |steps| + 1
  {
    if steps == [] then [DEFAULT_STATE]
    else
      var n := |steps| - 1;
      var earlier := States(steps[..n]);
      var step := steps[n];
      earlier + [if step.base < |earlier| && step.choice < 4
                 then Applied(Packages(earlier[step.base].config, ComputeMetrics(step.samples))[step.choice])
                 else earlier[n]]
  }

  lemma PackagesStayInLimits(c: TuningConfig, m: AdaptationMetrics, choice: nat)
    requires InLimits(c) && SameBase(c) && choice < 4
    ensures InLimits(Packages(c, m)[choice].config) && SameBase(Packages(c, m)[choice].config)
  {
    hide StabilityReasons, AutoReasons;
  }

  /** Every configuration a run can reach keeps the limits, even when packages from stale
      recommendations are applied. */
  lemma {:induction false} EveryReachableConfigIsInLimits(steps: seq<Tuned>)
    ensures forall state :: state in States(steps) ==> InLimits(state.config) && SameBase(state.config)
  {
    if steps != [] {
      var n := |steps| - 1;
      var step, earlier := steps[n], States(steps[..n]);
      EveryReachableConfigIsInLimits(steps[..n]);
      hide InLimits, SameBase, Packages, ComputeMetrics;
      if step.base < |earlier| && step.choice < 4 {
        assert earlier[step.base] in earlier;
        PackagesStayInLimits(earlier[step.base].config, ComputeMetrics(step.samples), step.choice);
      } else {
        assert earlier[n] in earlier;
      }
    }
  }

  // ---- the packages are ordered ----------------------------------------------------------------

  /** Within the limits, the conservative policy is nowhere laxer and the aggressive one
      nowhere stricter than the current one. */
  lemma PackagesAreOrdered(c: TuningConfig, m: AdaptationMetrics, row: OpportunityScore)
    requires InLimits(c)
    ensures var conservative, aggressive := ConservativePackage(c, m).config.risk, AggressivePackage(c).config.risk;
            && AtLeastAsFavourable(Evaluate(conservative, row), Evaluate(c.risk, row))
            && AtLeastAsFavourable(Evaluate(c.risk, row), Evaluate(aggressive, row))
            && Evaluate(BalancedPackage(c).config.risk, row) == Evaluate(c.risk, row)
  {
    hide Evaluate, AtLeastAsFavourable, StabilityReasons;
    BetterRowLaxerPolicy(ConservativePackage(c, m).config.risk, c.risk, row, row);
    BetterRowLaxerPolicy(c.risk, AggressivePackage(c).config.risk, row, row);
  }

  /** A configuration outside the limits breaks the order: lowered below its floor, the
      conservative basis limit rises. */
  lemma ConservativeOrderIff(c: TuningConfig, m: AdaptationMetrics)
    ensures NoStricter(ConservativePackage(c, m).config.risk, c.risk)
       <==> c.risk.maxAllowBasisBps >= 4.0 && c.risk.maxAllowPaybackPeriods >= 0.6
    ensures NoStricter(c.risk, AggressivePackage(c).config.risk) <==> c.risk.minAllowScore >= 50.0
  {
  }

  /** A row the conservative backtest takes passes the current one, and a row that passes the
      current one passes the aggressive one. */
  lemma FiltersNest(c: TuningConfig, m: AdaptationMetrics, row: OpportunityScore)
    requires InLimits(c)
    ensures var conservative, aggressive := ConservativePackage(c, m).config, AggressivePackage(c).config;
            && (Passes(conservative.risk, row, conservative.backtest) ==> Passes(c.risk, row, c.backtest))
            && (Passes(c.risk, row, c.backtest) ==> Passes(aggressive.risk, row, aggressive.backtest))
  {
  }

  // ---- consequences for scoring ------------------------------------------------------------------

  /** In every configuration a run can reach, for every snapshot whatsoever, a higher funding
      rate never hurts and a thin-edge row is blocked. */
  lemma TunedPoliciesStayMonotone(steps: seq<Tuned>, state: TuningState, s: MarketSnapshot, rate: real)
    requires state in States(steps) && s.fundingRate <= rate
    ensures var a, b := ScoreSnapshot(s, state.config.score),
            ScoreSnapshot(s.(fundingRate := rate), state.config.score);
            && a.score <= b.score
            && AtLeastAsFavourable(Evaluate(state.config.risk, a), Evaluate(state.config.risk, b))
            && (a.riskTag == ThinEdge ==> Evaluate(state.config.risk, a).decision == Block)
  {
    EveryReachableConfigIsInLimits(steps);
    hide States, ScoreSnapshot, Evaluate, TradingCost;
    HigherRateNeverHurts(s, rate, state.config.score, state.config.risk);
    ThinEdgeIsBlocked(s, state.config.score, state.config.risk);
  }

  /** No reachable configuration ever backtests to a loss. */
  lemma TunedBacktestsNeverLose(steps: seq<Tuned>, state: TuningState, periods: seq<seq<MarketSnapshot>>)
    requires state in States(steps)
    ensures var c := state.config;
            Totals(Trades(c.risk, c.score, periods, c.backtest), periods).estimatedTotalPnl >= 0.0
  {
    EveryReachableConfigIsInLimits(steps);
    hide States, Trades, Totals;
    TotalIsNonNegative(state.config.risk, state.config.score, periods, state.config.backtest);
  }

  // ---- the automatic choice and its metrics ---------------------------------------------------------

  /** The balanced package is chosen exactly when there are enough samples and nothing is weak. */
  lemma BalancedIsChosenIff(m: AdaptationMetrics)
    ensures AutoTarget(m) == Balanced <==>
              && m.tradeCount >= 5 && m.winRate >= 0.55 && m.avgRealized >= 0.25 && m.avgShortfall <= 2.0
              && m.maxDrawdownP95 <= 6.0 && m.slowPaybackRate <= 0.4
  {
  }

  /** Tuning by the automatic package alone never loosens the risk policy. */
  lemma AutoNeverLoosens(c: TuningConfig, m: AdaptationMetrics, row: OpportunityScore)
    requires InLimits(c)
    ensures AtLeastAsFavourable(Evaluate(AutoPackage(c, m).config.risk, row), Evaluate(c.risk, row))
  {
  }

  /** The percentile is the drawdown of a sample, to the nearest unit: the one at place i of the
      sorted drawdowns, where i is 95% of the way to the last of them, rounded down. */
  lemma DrawdownPercentile(samples: seq<LearningTradeSample>) returns (i: nat)
    requires samples != []
    ensures var drawdowns := Sort(Map(samples, Drawdown()), RealLe);
            && i < |samples| == |drawdowns| && 100 * i <= 95 * (|samples| - 1) < 100 * (i + 1)
            && multiset(drawdowns) == multiset(Map(samples, (s: LearningTradeSample) => s.maxDrawdownBps))
            && -0.00005 <= ComputeMetrics(samples).maxDrawdownP95 - drawdowns[i] <= 0.00005
            && forall j, k :: 0 <= j < k < |drawdowns| ==> drawdowns[j] <= drawdowns[k]
  {
    i := P95Index(|samples|);
    SortSorts(Map(samples, Drawdown()), RealLe);
    assert Map(samples, Drawdown()) == Map(samples, (s: LearningTradeSample) => s.maxDrawdownBps);
    Round4Error(Sort(Map(samples, Drawdown()), RealLe)[i]);
    hide Round4, Average, Rate;
  }

  // ---- what the metrics say -------------------------------------------------------------------------

  /** The plain sum of one field, from the front. */
  function SampleTotal(samples: seq<LearningTradeSample>, field: LearningTradeSample -> real): real
  {
    if samples == [] then 0.0 else field(samples[0]) + SampleTotal(samples[1..], field)
  }

  lemma {:induction false} SampleTotalIsSum(samples: seq<LearningTradeSample>, field: LearningTradeSample -> real)
    ensures Sum(Map(samples, field)) == SampleTotal(samples, field)
  {
    if samples != [] {
      SampleTotalIsSum(samples[1..], field);
      assert samples == [samples[0]] + samples[1..];
      MapAppend([samples[0]], samples[1..], field);
      SumAppend(Map([samples[0]], field), Map(samples[1..], field));
      assert Map([samples[0]], field)[..0] == [];
    }
  }

  lemma {:induction false} SameSampleTotal(samples: seq<LearningTradeSample>, f: LearningTradeSample -> real,
                                           g: LearningTradeSample -> real)
    requires forall s :: f(s) == g(s)
    ensures SampleTotal(samples, f) == SampleTotal(samples, g)
  {
    if samples != [] {
      SameSampleTotal(samples[1..], f, g);
    }
  }

  lemma AverageOfSamples(samples: seq<LearningTradeSample>, f: LearningTradeSample -> real,
                         g: LearningTradeSample -> real)
    requires forall s :: f(s) == g(s)
    ensures IsMean(Average(Map(samples, f)), SampleTotal(samples, g), |samples|)
  {
    SampleTotalIsSum(samples, f);
    SameSampleTotal(samples, f, g);
    if samples != [] {
      Round4Error(SampleTotal(samples, f) / |samples| as real);
    }
  }

  lemma RateOfSamples(samples: seq<LearningTradeSample>, f: LearningTradeSample -> bool, g: LearningTradeSample -> bool)
    requires samples != [] && forall s :: f(s) == g(s)
    ensures IsMean(Rate(|Filter(samples, f)|, |samples|), |Places(samples, g)| as real, |samples|)
  {
    FilterSize(samples, f);
    assert Places(samples, f) == Places(samples, g);
    Round4Error(|Places(samples, g)| as real / |samples| as real);
  }

  /** The metrics of a sample list: the share of samples that won, the mean realised and
      projected edge, the mean shortfall of the one against the other, and the share that was
      held for seven periods or more, each to the nearest unit. */
  lemma MetricsSay(samples: seq<LearningTradeSample>)
    ensures var m, n := ComputeMetrics(samples), |samples|;
            && m.tradeCount == n
            && IsMean(m.winRate, |Places(samples, (s: LearningTradeSample) => s.realizedPnlBps > 0.0)| as real, n)
            && IsMean(m.avgRealized, SampleTotal(samples, (s: LearningTradeSample) => s.realizedPnlBps), n)
            && IsMean(m.avgProjected, SampleTotal(samples, (s: LearningTradeSample) => s.projectedBps), n)
            && IsMean(m.avgShortfall,
                      SampleTotal(samples, (s: LearningTradeSample) => s.projectedBps - s.realizedPnlBps), n)
            && IsMean(m.slowPaybackRate, |Places(samples, (s: LearningTradeSample) => s.holdPeriods >= 7.0)| as real, n)
  {
    hide Average, Rate, IsMean, Round4;
    if samples != [] {
      RateOfSamples(samples, Won(), (s: LearningTradeSample) => s.realizedPnlBps > 0.0);
      RateOfSamples(samples, Slow(), (s: LearningTradeSample) => s.holdPeriods >= 7.0);
      AverageOfSamples(samples, Realized(), (s: LearningTradeSample) => s.realizedPnlBps);
      AverageOfSamples(samples, Projected(), (s: LearningTradeSample) => s.projectedBps);
      AverageOfSamples(samples, Shortfall(), (s: LearningTradeSample) => s.projectedBps - s.realizedPnlBps);
    } else {
      NoSamples();
    }
  }

  lemma NoSamples()
    ensures IsMean(0.0, 0.0, 0)
  {
  }

  // ---- the reasons and the contents of the packages -----------------------------------------------------

  lemma InOneOfFive(x: ReasonCode, a: seq<ReasonCode>, b: seq<ReasonCode>, c: seq<ReasonCode>, d: seq<ReasonCode>,
                    e: seq<ReasonCode>)
    ensures x in a + b + c + d + e <==> x in a || x in b || x in c || x in d || x in e
  {
  }

  lemma StabilityReasonsAre(m: AdaptationMetrics)
    ensures var given := StabilityReasons(m);
            && (WinRateWeak in given <==> m.winRate < 0.55)
            && (RealizedEdgeWeak in given <==> m.avgRealized < 0.25)
            && (ProjectionShortfallHigh in given <==> m.avgShortfall > 2.0)
            && (DrawdownHigh in given <==> m.maxDrawdownP95 > 6.0)
            && (PaybackSlow in given <==> m.slowPaybackRate > 0.4)
            && SampleTooSmall !in given && StabilityFirst !in given
  {
    var a := if m.winRate < 0.55 then [WinRateWeak] else [];
    var b := if m.avgRealized < 0.25 then [RealizedEdgeWeak] else [];
    var c := if m.avgShortfall > 2.0 then [ProjectionShortfallHigh] else [];
    var d := if m.maxDrawdownP95 > 6.0 then [DrawdownHigh] else [];
    var e := if m.slowPaybackRate > 0.4 then [PaybackSlow] else [];
    assert StabilityReasons(m) == a + b + c + d + e;
    hide StabilityReasons;
    forall x ensures x in a + b + c + d + e <==> x in a || x in b || x in c || x in d || x in e {
      InOneOfFive(x, a, b, c, d, e);
    }
  }

  /** Each weakness is named exactly when its metric is weak, and a small sample as well. */
  lemma ReasonsNameTheWeak(c: TuningConfig, m: AdaptationMetrics)
    ensures var given := AutoPackage(c, m).reasons;
            && (WinRateWeak in given <==> m.winRate < 0.55)
            && (RealizedEdgeWeak in given <==> m.avgRealized < 0.25)
            && (ProjectionShortfallHigh in given <==> m.avgShortfall > 2.0)
            && (DrawdownHigh in given <==> m.maxDrawdownP95 > 6.0)
            && (PaybackSlow in given <==> m.slowPaybackRate > 0.4)
            && (SampleTooSmall in given <==> m.tradeCount < 5)
            && (StabilityFirst in given <==> AutoPackage(c, m).derivedFrom == Some(Balanced))
  {
    StabilityReasonsAre(m);
    hide StabilityReasons, ConservativePackage, BalancedPackage;
  }

  /** n conservative packages in a row, each recommended for the configuration before it. */
  function Tightened(c: TuningConfig, m: AdaptationMetrics, n: nat): TuningConfig
  {
    if n == 0 then c else ConservativePackage(Tightened(c, m, n - 1), m).config
  }

  /** n aggressive packages in a row. */
  function Loosened(c: TuningConfig, n: nat): TuningConfig
  {
    if n == 0 then c else AggressivePackage(Loosened(c, n - 1)).config
  }

  /** How far n conservative packages go from the default: hold up to 12, basis limits down to
      4, payback limits down to 0.5 and 0.6; scores and weights rise without end, everything
      else stays. */
  lemma {:induction false} TightenedFromDefault(m: AdaptationMetrics, n: nat)
    ensures var c, k := Tightened(DEFAULT_STATE.config, m, n), n as real;
            && c.score == DEFAULT_SCORE_CONFIG.(expectedHoldPeriods := if n <= 3 then 6 + 2 * n else 12,
                                                basisGuardedBps := if n <= 4 then 8.0 - k else 4.0,
                                                paybackGuardedPeriods := if n <= 2 then 1.0 - 0.25 * k else 0.5,
                                                costPenaltyWeight := 1.0 + 0.25 * k,
                                                basisPenaltyWeight := 1.5 + 0.25 * k)
            && c.risk == DEFAULT_RISK_CONFIG.(minAllowScore := 100.0 + 15.0 * k, minReviewScore := 10.0 + 5.0 * k,
                                              maxAllowBasisBps := if n <= 3 then 7.0 - k else 4.0,
                                              maxAllowPaybackPeriods := if n <= 2 then 1.0 - 0.2 * k else 0.6)
            && c.backtest == DEFAULT_BACKTEST.(minScore := 10.0 * k)
  {
    hide StabilityReasons;
    if n > 0 {
      TightenedFromDefault(m, n - 1);
    }
  }

  /** How far n aggressive packages go from the default: hold down to 4, the allowed score down
      to 50, three trades a period; basis and payback limits rise without end. */
  lemma {:induction false} LoosenedFromDefault(n: nat)
    ensures var c, k := Loosened(DEFAULT_STATE.config, n), n as real;
            && c.score == DEFAULT_SCORE_CONFIG.(expectedHoldPeriods := if n <= 2 then 6 - n else 4,
                                                basisGuardedBps := 8.0 + k, paybackGuardedPeriods := 1.0 + 0.25 * k)
            && c.risk == DEFAULT_RISK_CONFIG.(minAllowScore := if n <= 3 then 100.0 - 15.0 * k else 50.0,
                                              maxAllowBasisBps := 7.0 + k,
                                              maxAllowPaybackPeriods := 1.0 + 0.2 * k)
            && c.backtest == DEFAULT_BACKTEST.(acceptReviewed := n > 0, topK := if n <= 2 then 1 + n else 3)
  {
    if n > 0 {
      LoosenedFromDefault(n - 1);
    }
  }

  /** The recommended packages in their order; the automatic one is the one it is derived from. */
  lemma PackagesAre(c: TuningConfig, m: AdaptationMetrics)
    ensures var packages := Packages(c, m);
            && packages[0].packageId == Conservative && packages[1].packageId == Balanced
            && packages[2].packageId == Aggressive && packages[3].packageId == Auto
            && packages[3].derivedFrom in {Some(Conservative), Some(Balanced)}
            && packages[3].config == packages[if packages[3].derivedFrom == Some(Conservative) then 0 else 1].config
            && packages[0].derivedFrom == packages[1].derivedFrom == packages[2].derivedFrom == None
  {
    hide StabilityReasons, AutoReasons;
  }

  /** The balanced package only lengthens a short hold to six periods. */
  lemma BalancedSettles(c: TuningConfig)
    ensures var balanced := BalancedPackage(c).config;
            && (c.score.expectedHoldPeriods >= 6 <==> balanced == c)
            && balanced.score.expectedHoldPeriods >= 6
            && (c.score.expectedHoldPeriods < 6 ==> balanced.score.expectedHoldPeriods == 6)
            && balanced.(score := c.score) == c
            && balanced.score.(expectedHoldPeriods := c.score.expectedHoldPeriods) == c.score
  {
  }
}
