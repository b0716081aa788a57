/** The opportunity scorer: a chain of four-decimal roundings from a market snapshot to a
    score and a risk tag. */
module Opportunity {
  import opened Decimals

  datatype MarketSnapshot = MarketSnapshot(
    symbol: string,
    fundingRate: real,
    perpMid: real,
    spotMid: real,
    perpSpreadBps: real,
    spotSpreadBps: real)

  datatype ScoreConfig = ScoreConfig(
    takerFeeBps: real,
    fundingPeriodsPerDay: int,
    expectedHoldPeriods: int,
    basisSoftLimitBps: real,
    basisGuardedBps: real,
    paybackGuardedPeriods: real,
    tradingCostGuardedBps: real,
    carryWeight: real,
    annualizedWeight: real,
    costSoftLimitBps: real,
    costPenaltyWeight: real,
    basisPenaltyWeight: real)

  const DEFAULT_SCORE_CONFIG := ScoreConfig(0.4, 3, 6, 2.0, 8.0, 1.0, 3.0, 20.0, 0.15, 1.5, 1.0, 1.5)

  datatype RiskTag = ThinEdge | Guarded | Normal

  datatype OpportunityScore = OpportunityScore(
    symbol: string,
    fundingRate: real,
    netEdgeBps: real,
    score: real,
    riskTag: RiskTag,
    grossEdgeBps: real,
    tradingCostBps: real,
    annualizedPct: real,
    basisBps: real,
    projectedBps: real,
    paybackPeriods: real,
    expectedHoldPeriods: int)

  function BasisBps(s: MarketSnapshot): real
  {
    if s.spotMid <= 0.0 then 0.0 else Round4(Abs((s.perpMid - s.spotMid) / s.spotMid) * 10000.0)
  }

  function GrossEdge(fundingRate: real): real
  {
    Round4(fundingRate * 10000.0)
  }

  function TradingCost(s: MarketSnapshot, cfg: ScoreConfig): real
  {
    Round4(cfg.takerFeeBps * 2.0 + s.perpSpreadBps + s.spotSpreadBps)
  }

  function NetEdge(gross: real, cost: real): real
  {
    Round4(gross - cost)
  }

  function ProjectedEdge(gross: real, cost: real, hold: int): real
  {
    Round4(gross * hold as real - cost)
  }

  function Annualized(fundingRate: real, periodsPerDay: int): real
  {
    Round4(fundingRate * periodsPerDay as real * 365.0 * 100.0)
  }

  function Payback(gross: real, cost: real): real
  {
    if gross > 0.0 then Round4(cost / gross) else 0.0
  }

  /** A rounded, weighted surplus over a limit: the shape of every score component. */
  function Component(amount: real, limit: real, weight: real): real
  {
    Weighted(Max(amount - limit, 0.0), weight)
  }

  function Weighted(surplus: real, weight: real): real
  {
    Round4(surplus * weight)
  }

  function CarryComponent(projected: real, cfg: ScoreConfig): real
  {
    Component(projected, 0.0, cfg.carryWeight)
  }

  function AnnualizedComponent(annualized: real, cfg: ScoreConfig): real
  {
    Component(annualized, 0.0, cfg.annualizedWeight)
  }

  function CostPenalty(cost: real, cfg: ScoreConfig): real
  {
    Component(cost, cfg.costSoftLimitBps, cfg.costPenaltyWeight)
  }

  function BasisPenalty(basis: real, cfg: ScoreConfig): real
  {
    Weighted(Round4(Max(basis - cfg.basisSoftLimitBps, 0.0)), cfg.basisPenaltyWeight)
  }

  function FinalScore(carry: real, annualized: real, costPenalty: real, basisPenalty: real): real
  {
    Round4(Max(Round4(carry + annualized) - costPenalty - basisPenalty, 0.0))
  }

  function TagFor(gross: real, projected: real, net: real, payback: real, basis: real, cost: real,
                  cfg: ScoreConfig): RiskTag
  {
    if gross <= 0.0 || projected <= 0.0 then ThinEdge
    else if net <= 0.0 || payback > cfg.paybackGuardedPeriods || basis >= cfg.basisGuardedBps
       || cost >= cfg.tradingCostGuardedBps
    then Guarded
    else Normal
  }

  function ScoreSnapshot(s: MarketSnapshot, cfg: ScoreConfig): OpportunityScore
  {
    var gross := GrossEdge(s.fundingRate);
    var cost := TradingCost(s, cfg);
    var net := NetEdge(gross, cost);
    var annualized := Annualized(s.fundingRate, cfg.fundingPeriodsPerDay);
    var basis := BasisBps(s);
    var projected := ProjectedEdge(gross, cost, cfg.expectedHoldPeriods);
    var payback := Payback(gross, cost);
    var score := FinalScore(CarryComponent(projected, cfg), AnnualizedComponent(annualized, cfg),
                            CostPenalty(cost, cfg), BasisPenalty(basis, cfg));
    OpportunityScore(s.symbol, s.fundingRate, net, score, TagFor(gross, projected, net, payback, basis, cost, cfg),
                     gross, cost, annualized, basis, projected, payback, cfg.expectedHoldPeriods)
  }

  // ---- exactness: which roundings do nothing --------------------------------------------

  /** Differences and whole multiples of rounded values need no rounding. */
  lemma EdgesAreExact(gross: real, cost: real, hold: int)
    requires OnGrid(gross) && OnGrid(cost)
    ensures NetEdge(gross, cost) == gross - cost
    ensures ProjectedEdge(gross, cost, hold) == gross * hold as real - cost
  {
    GridSum(gross, cost);
    Round4Grid(gross - cost);
    GridTimesInt(gross, hold);
    GridSum(gross * hold as real, cost);
    Round4Grid(gross * hold as real - cost);
  }

  /** The final score is the exact sum of its rounded parts, cut off at zero. */
  lemma FinalScoreIsExact(carry: real, annualized: real, costPenalty: real, basisPenalty: real)
    requires OnGrid(carry) && OnGrid(annualized) && OnGrid(costPenalty) && OnGrid(basisPenalty)
    ensures FinalScore(carry, annualized, costPenalty, basisPenalty)
         == Max(carry + annualized - costPenalty - basisPenalty, 0.0)
  {
    GridSum(carry, annualized);
    Round4Grid(carry + annualized);
    GridSum(carry + annualized, costPenalty);
    GridSum(carry + annualized - costPenalty, basisPenalty);
    Round4Grid(carry + annualized - costPenalty - basisPenalty);
    Round4Zero();
  }
}
