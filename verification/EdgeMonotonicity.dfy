/** A higher funding rate never hurts, through every rounding of the scorer and every
    threshold of the risk policy. */
module EdgeMonotonicity {
  import opened Decimals
  import opened Opportunity
  import opened Risk

  predicate WeightsNonNegative(cfg: ScoreConfig)
  {
    cfg.carryWeight >= 0.0 && cfg.annualizedWeight >= 0.0
  }

  lemma ComponentMonotone(a: real, b: real, limit: real, weight: real)
    requires a <= b && weight >= 0.0
    ensures Component(a, limit, weight) <= Component(b, limit, weight)
  {
    hide Weighted;
    WeightedMonotone(Max(a - limit, 0.0), Max(b - limit, 0.0), weight);
  }

  lemma WeightedMonotone(x: real, y: real, weight: real)
    requires x <= y && weight >= 0.0
    ensures Weighted(x, weight) <= Weighted(y, weight)
  {
    ProductMonotone(x, y, weight);
    Round4Monotone(x * weight, y * weight);
  }

  lemma ProductMonotone(x: real, y: real, weight: real)
    requires x <= y && weight >= 0.0
    ensures x * weight <= y * weight
  {
  }

  lemma EdgesMonotone(a: real, b: real, cost: real, hold: int)
    requires a <= b && hold >= 0
    ensures NetEdge(a, cost) <= NetEdge(b, cost) && ProjectedEdge(a, cost, hold) <= ProjectedEdge(b, cost, hold)
  {
    Round4Monotone(a - cost, b - cost);
    ProductMonotone(a, b, hold as real);
    Round4Monotone(a * hold as real - cost, b * hold as real - cost);
  }

  lemma RatesMonotone(f: real, g: real, periods: int)
    requires f <= g && periods >= 0
    ensures GrossEdge(f) <= GrossEdge(g) && Annualized(f, periods) <= Annualized(g, periods)
  {
    Round4Monotone(f * 10000.0, g * 10000.0);
    ProductMonotone(f, g, periods as real);
    Round4Monotone(f * periods as real * 365.0 * 100.0, g * periods as real * 365.0 * 100.0);
  }

  /** A larger edge pays its costs back no later; negative costs never take long. */
  lemma PaybackAntitone(a: real, b: real, cost: real, threshold: real)
    requires 0.0 < a <= b && (cost >= 0.0 || threshold >= 0.0)
    ensures Payback(b, cost) > threshold ==> Payback(a, cost) > threshold
  {
    if cost >= 0.0 {
      QuotientAntitone(a, b, cost);
      Round4Monotone(cost / b, cost / a);
    } else {
      assert cost / b <= 0.0;
      Round4Zero();
      Round4Monotone(cost / b, 0.0);
    }
  }

  lemma QuotientAntitone(a: real, b: real, cost: real)
    requires 0.0 < a <= b && cost >= 0.0
    ensures cost / b <= cost / a
  {
  }

  /** The funding rate touches neither costs nor basis. */
  lemma SameCosts(s: MarketSnapshot, rate: real, cfg: ScoreConfig)
    ensures TradingCost(s.(fundingRate := rate), cfg) == TradingCost(s, cfg)
    ensures BasisBps(s.(fundingRate := rate)) == BasisBps(s)
  {
  }

  lemma ScoreMonotone(s: MarketSnapshot, rate: real, cfg: ScoreConfig)
    requires s.fundingRate <= rate && cfg.expectedHoldPeriods >= 0 && cfg.fundingPeriodsPerDay >= 0
          && WeightsNonNegative(cfg)
    ensures var a, b := ScoreSnapshot(s, cfg), ScoreSnapshot(s.(fundingRate := rate), cfg);
            && a.grossEdgeBps <= b.grossEdgeBps && a.netEdgeBps <= b.netEdgeBps && a.projectedBps <= b.projectedBps
            && a.annualizedPct <= b.annualizedPct && a.score <= b.score
  {
    hide Round4, Component, BasisBps, BasisPenalty, CostPenalty, TradingCost, FinalScore;
    var a, b := ScoreSnapshot(s, cfg), ScoreSnapshot(s.(fundingRate := rate), cfg);
    SameCosts(s, rate, cfg);
    RatesMonotone(s.fundingRate, rate, cfg.fundingPeriodsPerDay);
    EdgesMonotone(a.grossEdgeBps, b.grossEdgeBps, TradingCost(s, cfg), cfg.expectedHoldPeriods);
    hide NetEdge, ProjectedEdge, Annualized, GrossEdge;
    ComponentMonotone(a.projectedBps, b.projectedBps, 0.0, cfg.carryWeight);
    ComponentMonotone(a.annualizedPct, b.annualizedPct, 0.0, cfg.annualizedWeight);
    FinalScoreMonotone(CarryComponent(a.projectedBps, cfg), CarryComponent(b.projectedBps, cfg),
                       AnnualizedComponent(a.annualizedPct, cfg), AnnualizedComponent(b.annualizedPct, cfg),
                       CostPenalty(a.tradingCostBps, cfg), BasisPenalty(a.basisBps, cfg));
  }

  lemma FinalScoreMonotone(carryA: real, carryB: real, annualA: real, annualB: real, costPenalty: real,
                           basisPenalty: real)
    requires carryA <= carryB && annualA <= annualB
    ensures FinalScore(carryA, annualA, costPenalty, basisPenalty)
         <= FinalScore(carryB, annualB, costPenalty, basisPenalty)
  {
    hide Round4;
    Round4Monotone(carryA + annualA, carryB + annualB);
    Round4Monotone(Max(Round4(carryA + annualA) - costPenalty - basisPenalty, 0.0),
                   Max(Round4(carryB + annualB) - costPenalty - basisPenalty, 0.0));
  }

  /** The fallback from a zero projected edge to the net edge lets a thin-edge row pass the
      edge test exactly when the expected hold is below one period. */
  lemma ThinEdgePassesIff(s: MarketSnapshot, cfg: ScoreConfig)
    ensures var row := ScoreSnapshot(s, cfg);
            row.riskTag == ThinEdge && !HasNegativeEdge(row) <==>
              row.grossEdgeBps > 0.0 && row.projectedBps == 0.0 && cfg.expectedHoldPeriods <= 0 && row.score > 0.0
  {
    hide Round4, FinalScore, BasisBps, Payback, Annualized;
    var row := ScoreSnapshot(s, cfg);
    Round4Grid(s.fundingRate * 10000.0);
    Round4Grid(cfg.takerFeeBps * 2.0 + s.perpSpreadBps + s.spotSpreadBps);
    EdgesAreExact(row.grossEdgeBps, row.tradingCostBps, cfg.expectedHoldPeriods);
    hide ProjectedEdge, NetEdge, GrossEdge, TradingCost;
    if row.grossEdgeBps > 0.0 && row.projectedBps == 0.0 {
      var g, hold := row.grossEdgeBps, cfg.expectedHoldPeriods as real;
      assert row.netEdgeBps == g - g * hold;
      if hold >= 1.0 {
        assert g * hold >= g * 1.0;
      } else {
        assert hold <= 0.0 && g * hold <= 0.0;
      }
    }
  }

  /** With an expected hold of a period or more, every thin-edge row is blocked. */
  lemma ThinEdgeIsBlocked(s: MarketSnapshot, cfg: ScoreConfig, policy: RiskPolicyConfig)
    requires cfg.expectedHoldPeriods >= 1
    ensures ScoreSnapshot(s, cfg).riskTag == ThinEdge ==> Evaluate(policy, ScoreSnapshot(s, cfg)).decision == Block
  {
    hide ScoreSnapshot;
    ThinEdgePassesIff(s, cfg);
  }

  /** With a hold of zero periods a thin-edge row can be allowed at full size: a rate of 1%
      and nothing to pay, under the default policy. */
  lemma ZeroHoldAllowsThinEdge(s: MarketSnapshot, cfg: ScoreConfig)
    requires s == MarketSnapshot("X", 0.01, 1.0, 1.0, 0.0, 0.0)
    requires cfg == DEFAULT_SCORE_CONFIG.(takerFeeBps := 0.0, expectedHoldPeriods := 0)
    ensures ScoreSnapshot(s, cfg).riskTag == ThinEdge
    ensures Evaluate(DEFAULT_RISK_CONFIG, ScoreSnapshot(s, cfg)).decision == Allow
  {
    hide ScoreSnapshot, Evaluate;
    ZeroHoldRow(s, cfg, 0.0, 100.0, 1095.0, 164.25);
    CleanRowIsAllowed(DEFAULT_RISK_CONFIG, ScoreSnapshot(s, cfg));
  }

  lemma CleanRowIsAllowed(policy: RiskPolicyConfig, row: OpportunityScore)
    requires policy == DEFAULT_RISK_CONFIG && row.riskTag != Guarded && row.projectedBps == 0.0
    requires row.basisBps == 0.0 && row.tradingCostBps == 0.0 && row.paybackPeriods == 0.0
    requires row.grossEdgeBps == row.netEdgeBps == 100.0 && row.score == 164.25
    ensures Evaluate(policy, row).decision == Allow
  {
  }

  lemma ZeroHoldRow(s: MarketSnapshot, cfg: ScoreConfig, zero: real, gross: real, annualized: real, score: real)
    requires s.fundingRate * 10000.0 == gross && s.perpMid == s.spotMid > 0.0
          && s.perpSpreadBps == s.spotSpreadBps == zero
    requires zero == 0.0 && gross == 100.0 && annualized == 1095.0 && score == 164.25
    requires cfg.takerFeeBps == zero && cfg.expectedHoldPeriods == 0 && cfg.fundingPeriodsPerDay == 3
    requires cfg.annualizedWeight == 0.15 && cfg.costSoftLimitBps >= 0.0 && cfg.basisSoftLimitBps >= 0.0
    ensures ScoreSnapshot(s, cfg) == OpportunityScore(s.symbol, s.fundingRate, gross, score, ThinEdge, gross, zero,
                                                      annualized, zero, zero, zero, 0)
  {
    RoundsExactly(zero, 0);
    RoundsExactly(gross, 1000000);
    RoundsExactly(annualized, 10950000);
    RoundsExactly(score, 1642500);
    hide Round4;
    assert GrossEdge(s.fundingRate) == gross;
    assert TradingCost(s, cfg) == zero;
    assert BasisBps(s) == zero by { assert (s.perpMid - s.spotMid) / s.spotMid == 0.0; }
    assert NetEdge(gross, zero) == gross && ProjectedEdge(gross, zero, 0) == zero;
    assert Payback(gross, zero) == zero;
    assert Annualized(s.fundingRate, 3) == annualized;
    assert Weighted(annualized, 0.15) == score && AnnualizedComponent(annualized, cfg) == score;
    assert Weighted(zero, cfg.carryWeight) == zero && CarryComponent(zero, cfg) == zero;
    assert Weighted(zero, cfg.costPenaltyWeight) == zero && CostPenalty(zero, cfg) == zero;
    assert Weighted(zero, cfg.basisPenaltyWeight) == zero && BasisPenalty(zero, cfg) == zero;
    assert FinalScore(zero, score, zero, zero) == score;
  }

  lemma RoundsExactly(x: real, units: int)
    requires x * 10000.0 == units as real
    ensures Round4(x) == x
  {
  }

  /** The row of a higher funding rate is no worse in anything the policy looks at. */
  lemma HigherRateNoWorse(s: MarketSnapshot, rate: real, cfg: ScoreConfig)
    requires s.fundingRate <= rate && cfg.expectedHoldPeriods >= 1 && cfg.fundingPeriodsPerDay >= 0
          && WeightsNonNegative(cfg)
    requires TradingCost(s, cfg) >= 0.0 || cfg.paybackGuardedPeriods >= 0.0
    ensures NoWorse(ScoreSnapshot(s, cfg), ScoreSnapshot(s.(fundingRate := rate), cfg))
  {
    hide Round4, FinalScore, CarryComponent, AnnualizedComponent, CostPenalty, BasisPenalty, BasisBps, NetEdge,
         ProjectedEdge, GrossEdge, Annualized, Payback, TradingCost;
    var a, b := ScoreSnapshot(s, cfg), ScoreSnapshot(s.(fundingRate := rate), cfg);
    SameCosts(s, rate, cfg);
    ScoreMonotone(s, rate, cfg);
    ThinEdgePassesIff(s, cfg);
    if !HasNegativeEdge(a) {
      PaybackAntitone(a.grossEdgeBps, b.grossEdgeBps, a.tradingCostBps, cfg.paybackGuardedPeriods);
    }
  }

  /** With spreads, mids and configuration fixed, a higher funding rate never gives a lower
      score, a stricter decision, a smaller position or lower confidence. */
  lemma HigherRateNeverHurts(s: MarketSnapshot, rate: real, cfg: ScoreConfig, policy: RiskPolicyConfig)
    requires s.fundingRate <= rate && cfg.expectedHoldPeriods >= 1 && cfg.fundingPeriodsPerDay >= 0
          && WeightsNonNegative(cfg)
    requires TradingCost(s, cfg) >= 0.0 || (cfg.paybackGuardedPeriods >= 0.0 && policy.maxAllowPaybackPeriods >= 0.0)
    ensures var a, b := ScoreSnapshot(s, cfg), ScoreSnapshot(s.(fundingRate := rate), cfg);
            a.score <= b.score && AtLeastAsFavourable(Evaluate(policy, a), Evaluate(policy, b))
  {
    hide Round4, Evaluate, FinalScore, CarryComponent, AnnualizedComponent, CostPenalty, BasisPenalty, BasisBps,
         NetEdge, ProjectedEdge, GrossEdge, Annualized, Payback, TradingCost, AtLeastAsFavourable;
    var a, b := ScoreSnapshot(s, cfg), ScoreSnapshot(s.(fundingRate := rate), cfg);
    SameCosts(s, rate, cfg);
    ScoreMonotone(s, rate, cfg);
    HigherRateNoWorse(s, rate, cfg);
    if !HasNegativeEdge(a) {
      PaybackAntitone(a.grossEdgeBps, b.grossEdgeBps, a.tradingCostBps, policy.maxAllowPaybackPeriods);
    }
    BetterRowLaxerPolicy(policy, policy, a, b);
  }

  /** Every threshold of scorer and policy at once: what an opportunity must have. */
  predicate MeetsEveryThreshold(row: OpportunityScore, cfg: ScoreConfig, policy: RiskPolicyConfig)
  {
    && row.score >= policy.minAllowScore
    && row.netEdgeBps > 0.0 && row.netEdgeBps >= policy.minAllowNetEdgeBps
    && row.projectedBps >= policy.minAllowProjectedEdgeBps
    && row.basisBps <= policy.maxAllowBasisBps && row.basisBps < cfg.basisGuardedBps
    && row.tradingCostBps <= policy.maxAllowTradingCostBps && row.tradingCostBps < cfg.tradingCostGuardedBps
    && row.paybackPeriods <= policy.maxAllowPaybackPeriods && row.paybackPeriods <= cfg.paybackGuardedPeriods
  }

  predicate Viable(row: OpportunityScore, policy: RiskPolicyConfig)
  {
    row.grossEdgeBps > 0.0 && row.projectedBps > 0.0 && row.score > 0.0 && row.basisBps <= policy.maxReviewBasisBps
  }

  /** Scorer and policy together, with a hold of at least one period: a scored snapshot is
      allowed exactly when it is viable and meets every threshold, and blocked exactly when it
      is not viable, or misses a threshold with a score too low for review. */
  lemma DecidedBy(s: MarketSnapshot, cfg: ScoreConfig, policy: RiskPolicyConfig)
    requires cfg.expectedHoldPeriods >= 1
    ensures var row := ScoreSnapshot(s, cfg);
            var decision := Evaluate(policy, row).decision;
            && (decision == Allow <==> Viable(row, policy) && MeetsEveryThreshold(row, cfg, policy))
            && (decision == Block <==>
                  || !Viable(row, policy)
                  || (!MeetsEveryThreshold(row, cfg, policy) && row.score < policy.minReviewScore))
  {
    ThinEdgePassesIff(s, cfg);
    hide GrossEdge, TradingCost, NetEdge, ProjectedEdge, Annualized, BasisBps, Payback, FinalScore, CarryComponent,
         AnnualizedComponent, CostPenalty, BasisPenalty;
  }
}
