/** How far the rounded score can be from the formula it rounds. */
module ScoreAccuracy {
  import opened Decimals
  import opened Opportunity
  import opened EdgeMonotonicity

  predicate Within(x: real, y: real, tolerance: real)
  {
    y - tolerance <= x <= y + tolerance
  }

  function Times(x: real, y: real): real
  {
    x * y
  }

  function ExactBasis(s: MarketSnapshot): real
  {
    if s.spotMid <= 0.0 then 0.0 else Abs((s.perpMid - s.spotMid) / s.spotMid) * 10000.0
  }

  function ExactCost(s: MarketSnapshot, cfg: ScoreConfig): real
  {
    cfg.takerFeeBps * 2.0 + s.perpSpreadBps + s.spotSpreadBps
  }

  function ExactGross(s: MarketSnapshot): real
  {
    s.fundingRate * 10000.0
  }

  function ExactProjected(s: MarketSnapshot, cfg: ScoreConfig): real
  {
    Times(ExactGross(s), cfg.expectedHoldPeriods as real) - ExactCost(s, cfg)
  }

  function ExactAnnualized(s: MarketSnapshot, cfg: ScoreConfig): real
  {
    s.fundingRate * cfg.fundingPeriodsPerDay as real * 365.0 * 100.0
  }

  function Surplus(amount: real, limit: real): real
  {
    Max(amount - limit, 0.0)
  }

  // The four parts of the score, as the scorer rounds them and exactly.

  function Carry(s: MarketSnapshot, cfg: ScoreConfig): real
  {
    CarryComponent(ProjectedEdge(GrossEdge(s.fundingRate), TradingCost(s, cfg), cfg.expectedHoldPeriods), cfg)
  }

  function ExactCarry(s: MarketSnapshot, cfg: ScoreConfig): real
  {
    Times(Surplus(ExactProjected(s, cfg), 0.0), cfg.carryWeight)
  }

  function Yield(s: MarketSnapshot, cfg: ScoreConfig): real
  {
    AnnualizedComponent(Annualized(s.fundingRate, cfg.fundingPeriodsPerDay), cfg)
  }

  function ExactYield(s: MarketSnapshot, cfg: ScoreConfig): real
  {
    Times(Surplus(ExactAnnualized(s, cfg), 0.0), cfg.annualizedWeight)
  }

  function ExactCostPenalty(s: MarketSnapshot, cfg: ScoreConfig): real
  {
    Times(Surplus(ExactCost(s, cfg), cfg.costSoftLimitBps), cfg.costPenaltyWeight)
  }

  function ExactBasisPenalty(s: MarketSnapshot, cfg: ScoreConfig): real
  {
    Times(Surplus(ExactBasis(s), cfg.basisSoftLimitBps), cfg.basisPenaltyWeight)
  }

  /** The score without any rounding. */
  function ExactScore(s: MarketSnapshot, cfg: ScoreConfig): real
  {
    Max(ExactCarry(s, cfg) + ExactYield(s, cfg) - ExactCostPenalty(s, cfg) - ExactBasisPenalty(s, cfg), 0.0)
  }

  /** What the roundings of one part can add up to. */
  function PartTolerance(roundings: real, weight: real): real
  {
    Times(0.00005 * roundings, weight) + 0.00005
  }

  lemma WeightedWithin(x: real, y: real, weight: real, roundings: real)
    requires Within(x, y, 0.00005 * roundings) && weight >= 0.0
    ensures Within(Weighted(x, weight), Times(y, weight), PartTolerance(roundings, weight))
    ensures OnGrid(Weighted(x, weight))
  {
    ProductWithin(x, y, weight, 0.00005 * roundings);
    Round4Error(Times(x, weight));
    Round4Grid(Times(x, weight));
    assert Weighted(x, weight) == Round4(Times(x, weight));
    hide Times, Weighted, Round4;
  }

  lemma ProductWithin(x: real, y: real, weight: real, tolerance: real)
    requires Within(x, y, tolerance) && weight >= 0.0
    ensures Within(Times(x, weight), Times(y, weight), Times(tolerance, weight))
  {
    NonNegativeProduct(x - y + tolerance, weight);
    NonNegativeProduct(y + tolerance - x, weight);
  }

  lemma NonNegativeProduct(x: real, y: real)
    requires x >= 0.0 && y >= 0.0
    ensures x * y >= 0.0
  {
  }

  lemma ComponentWithin(x: real, y: real, limit: real, weight: real, roundings: real)
    requires Within(x, y, 0.00005 * roundings) && weight >= 0.0
    ensures Within(Component(x, limit, weight), Times(Surplus(y, limit), weight), PartTolerance(roundings, weight))
    ensures OnGrid(Component(x, limit, weight))
  {
    hide Weighted, PartTolerance;
    WeightedWithin(Max(x - limit, 0.0), Surplus(y, limit), weight, roundings);
  }

  lemma InputsWithin(s: MarketSnapshot, cfg: ScoreConfig)
    ensures Within(Annualized(s.fundingRate, cfg.fundingPeriodsPerDay), ExactAnnualized(s, cfg), 0.00005)
    ensures Within(TradingCost(s, cfg), ExactCost(s, cfg), 0.00005)
    ensures Within(GrossEdge(s.fundingRate), ExactGross(s), 0.00005)
    ensures Within(BasisBps(s), ExactBasis(s), 0.00005)
    ensures OnGrid(TradingCost(s, cfg)) && OnGrid(GrossEdge(s.fundingRate))
  {
    Round4Error(s.fundingRate * 10000.0);
    Round4Error(ExactAnnualized(s, cfg));
    Round4Error(ExactCost(s, cfg));
    Round4Error(ExactBasis(s));
    Round4Grid(s.fundingRate * 10000.0);
    Round4Grid(ExactCost(s, cfg));
  }

  lemma ProjectionWithin(s: MarketSnapshot, cfg: ScoreConfig)
    requires cfg.expectedHoldPeriods >= 0
    ensures Within(ProjectedEdge(GrossEdge(s.fundingRate), TradingCost(s, cfg), cfg.expectedHoldPeriods),
                   ExactProjected(s, cfg),
                   0.00005 * (cfg.expectedHoldPeriods as real + 1.0))
  {
    InputsWithin(s, cfg);
    hide ProjectedEdge, GrossEdge, TradingCost, OnGrid, ExactGross, ExactCost;
    var gross, cost, hold := GrossEdge(s.fundingRate), TradingCost(s, cfg), cfg.expectedHoldPeriods as real;
    EdgesAreExact(gross, cost, cfg.expectedHoldPeriods);
    ProjectedWithin(gross, ExactGross(s), hold);
    assert ProjectedEdge(gross, cost, cfg.expectedHoldPeriods) == Times(gross, hold) - cost;
  }

  lemma ProjectedWithin(gross: real, exact: real, hold: real)
    requires Within(gross, exact, 0.00005) && hold >= 0.0
    ensures Within(Times(gross, hold), Times(exact, hold), 0.00005 * hold)
  {
    ProductWithin(gross, exact, hold, 0.00005);
  }

  function Tolerance(cfg: ScoreConfig): real
  {
    PartTolerance(cfg.expectedHoldPeriods as real + 1.0, cfg.carryWeight) + PartTolerance(1.0, cfg.annualizedWeight)
    + PartTolerance(1.0, cfg.costPenaltyWeight) + PartTolerance(2.0, cfg.basisPenaltyWeight)
  }

  predicate AllWeightsNonNegative(cfg: ScoreConfig)
  {
    WeightsNonNegative(cfg) && cfg.costPenaltyWeight >= 0.0 && cfg.basisPenaltyWeight >= 0.0
  }

  lemma CarryWithin(s: MarketSnapshot, cfg: ScoreConfig)
    requires cfg.expectedHoldPeriods >= 0 && cfg.carryWeight >= 0.0
    ensures Within(Carry(s, cfg), ExactCarry(s, cfg),
                   PartTolerance(cfg.expectedHoldPeriods as real + 1.0, cfg.carryWeight))
    ensures OnGrid(Carry(s, cfg))
  {
    hide ProjectedEdge, GrossEdge, TradingCost, Component, OnGrid, ExactProjected, Surplus, PartTolerance;
    ProjectionWithin(s, cfg);
    ComponentWithin(ProjectedEdge(GrossEdge(s.fundingRate), TradingCost(s, cfg), cfg.expectedHoldPeriods),
                    ExactProjected(s, cfg), 0.0, cfg.carryWeight, cfg.expectedHoldPeriods as real + 1.0);
  }

  lemma YieldWithin(s: MarketSnapshot, cfg: ScoreConfig)
    requires cfg.annualizedWeight >= 0.0
    ensures Within(Yield(s, cfg), ExactYield(s, cfg), PartTolerance(1.0, cfg.annualizedWeight))
    ensures OnGrid(Yield(s, cfg))
  {
    hide Annualized, Component, OnGrid, ExactAnnualized, Surplus, PartTolerance;
    InputsWithin(s, cfg);
    ComponentWithin(Annualized(s.fundingRate, cfg.fundingPeriodsPerDay), ExactAnnualized(s, cfg), 0.0,
                    cfg.annualizedWeight, 1.0);
  }

  lemma CostPenaltyWithin(s: MarketSnapshot, cfg: ScoreConfig)
    requires cfg.costPenaltyWeight >= 0.0
    ensures Within(CostPenalty(TradingCost(s, cfg), cfg), ExactCostPenalty(s, cfg),
                   PartTolerance(1.0, cfg.costPenaltyWeight))
    ensures OnGrid(CostPenalty(TradingCost(s, cfg), cfg))
  {
    hide TradingCost, Component, OnGrid, ExactCost, Surplus, PartTolerance;
    InputsWithin(s, cfg);
    ComponentWithin(TradingCost(s, cfg), ExactCost(s, cfg), cfg.costSoftLimitBps, cfg.costPenaltyWeight, 1.0);
  }

  lemma BasisPenaltyWithin(s: MarketSnapshot, cfg: ScoreConfig)
    requires cfg.basisPenaltyWeight >= 0.0
    ensures Within(BasisPenalty(BasisBps(s), cfg), ExactBasisPenalty(s, cfg),
                   PartTolerance(2.0, cfg.basisPenaltyWeight))
    ensures OnGrid(BasisPenalty(BasisBps(s), cfg))
  {
    hide Weighted, OnGrid, BasisBps, ExactBasis, TradingCost, ExactCost, Annualized, ExactAnnualized, GrossEdge;
    InputsWithin(s, cfg);
    var surplus := Max(BasisBps(s) - cfg.basisSoftLimitBps, 0.0);
    Round4Error(surplus);
    hide Round4;
    WeightedWithin(Round4(surplus), Surplus(ExactBasis(s), cfg.basisSoftLimitBps), cfg.basisPenaltyWeight, 2.0);
  }

  /** Four summands, each within its tolerance, cut off at zero. */
  lemma SumWithin(a: real, b: real, c: real, d: real, a': real, b': real, c': real, d': real,
                  ta: real, tb: real, tc: real, td: real)
    requires Within(a, a', ta) && Within(b, b', tb) && Within(c, c', tc) && Within(d, d', td)
    ensures Within(Max(a + b - c - d, 0.0), Max(a' + b' - c' - d', 0.0), ta + tb + tc + td)
  {
  }

  /** Ten roundings later, the score is still within a tolerance of the exact formula that
      only the weights and the hold decide (about 0.008 for the default configuration). */
  lemma ScoreIsAccurate(s: MarketSnapshot, cfg: ScoreConfig)
    requires cfg.expectedHoldPeriods >= 0 && AllWeightsNonNegative(cfg)
    ensures Within(ScoreSnapshot(s, cfg).score, ExactScore(s, cfg), Tolerance(cfg))
  {
    ScoreParts(s, cfg);
    hide ScoreSnapshot, Carry, Yield, CostPenalty, BasisPenalty, ExactCarry, ExactYield, ExactCostPenalty,
         ExactBasisPenalty, PartTolerance, OnGrid, TradingCost, BasisBps;
    CarryWithin(s, cfg);
    YieldWithin(s, cfg);
    CostPenaltyWithin(s, cfg);
    BasisPenaltyWithin(s, cfg);
    FinalScoreIsExact(Carry(s, cfg), Yield(s, cfg), CostPenalty(TradingCost(s, cfg), cfg),
                      BasisPenalty(BasisBps(s), cfg));
    hide FinalScore, Within, Max;
    SumWithin(Carry(s, cfg), Yield(s, cfg), CostPenalty(TradingCost(s, cfg), cfg), BasisPenalty(BasisBps(s), cfg),
              ExactCarry(s, cfg), ExactYield(s, cfg), ExactCostPenalty(s, cfg), ExactBasisPenalty(s, cfg),
              PartTolerance(cfg.expectedHoldPeriods as real + 1.0, cfg.carryWeight),
              PartTolerance(1.0, cfg.annualizedWeight),
              PartTolerance(1.0, cfg.costPenaltyWeight), PartTolerance(2.0, cfg.basisPenaltyWeight));
  }

  lemma ScoreParts(s: MarketSnapshot, cfg: ScoreConfig)
    ensures ScoreSnapshot(s, cfg).score
         == FinalScore(Carry(s, cfg), Yield(s, cfg), CostPenalty(TradingCost(s, cfg), cfg),
                       BasisPenalty(BasisBps(s), cfg))
  {
  }

  lemma PaybackIsRatio(gross: real, cost: real)
    ensures gross <= 0.0 ==> Payback(gross, cost) == 0.0
    ensures gross > 0.0 ==> Within(Payback(gross, cost), cost / gross, 0.00005)
  {
    if gross > 0.0 {
      Round4Error(cost / gross);
    }
    hide Round4;
  }

  /** The inputs of a row's score are the plain figures of the snapshot to the nearest unit; its
      payback is what its costs take in periods of its gross edge, and zero when there is no
      gross edge to pay them. */
  lemma RowIsAccurate(s: MarketSnapshot, cfg: ScoreConfig)
    ensures var row := ScoreSnapshot(s, cfg);
            && row.symbol == s.symbol && row.fundingRate == s.fundingRate
            && row.expectedHoldPeriods == cfg.expectedHoldPeriods
            && Within(row.grossEdgeBps, ExactGross(s), 0.00005)
            && Within(row.tradingCostBps, ExactCost(s, cfg), 0.00005)
            && Within(row.basisBps, ExactBasis(s), 0.00005)
            && Within(row.annualizedPct, ExactAnnualized(s, cfg), 0.00005)
            && (row.grossEdgeBps <= 0.0 ==> row.paybackPeriods == 0.0)
            && (row.grossEdgeBps > 0.0 ==> Within(row.paybackPeriods, row.tradingCostBps / row.grossEdgeBps, 0.00005))
  {
    InputsWithin(s, cfg);
    PaybackIsRatio(GrossEdge(s.fundingRate), TradingCost(s, cfg));
    hide GrossEdge, TradingCost, NetEdge, ProjectedEdge, Annualized, BasisBps, Payback, FinalScore, CarryComponent,
         AnnualizedComponent, CostPenalty, BasisPenalty, Within, ExactGross, ExactCost, ExactBasis, ExactAnnualized;
  }
}
