/** The risk policy: block, review or allow a scored opportunity. */
module Risk {
  import opened Decimals
  import opened Opportunity

  datatype RiskPolicyConfig = RiskPolicyConfig(
    minAllowScore: real,
    minReviewScore: real,
    minAllowNetEdgeBps: real,
    minAllowProjectedEdgeBps: real,
    maxAllowBasisBps: real,
    maxReviewBasisBps: real,
    maxAllowTradingCostBps: real,
    maxAllowPaybackPeriods: real)

  const DEFAULT_RISK_CONFIG := RiskPolicyConfig(100.0, 10.0, 4.0, 2.0, 7.0, 100.0, 3.0, 1.0)

  datatype Decision = Block | Review | Allow

  datatype Reason = NegativeEdge | BasisExtreme | BasisWide | ElevatedCost | LowScore | SlowPayback | LowEdge

  /** `reasons` is the sorted, duplicate-free list of the source, kept as a set. */
  datatype RiskDecision = RiskDecision(decision: Decision, reasons: set<Reason>, maxPositionFraction: real,
                                       confidence: real)

  /** `projected_net_edge_bps or net_edge_bps`. */
  function EdgeOf(row: OpportunityScore): real
  {
    if row.projectedBps != 0.0 then row.projectedBps else row.netEdgeBps
  }

  predicate HasNegativeEdge(row: OpportunityScore)
  {
    EdgeOf(row) <= 0.0 || row.score <= 0.0 || row.grossEdgeBps <= 0.0
  }

  function ReasonsFor(cfg: RiskPolicyConfig, row: OpportunityScore): set<Reason>
  {
    (if row.riskTag == Guarded || row.basisBps > cfg.maxAllowBasisBps then {BasisWide} else {})
    + (if row.tradingCostBps > cfg.maxAllowTradingCostBps then {ElevatedCost} else {})
    + (if row.score < cfg.minAllowScore then {LowScore} else {})
    + (if row.paybackPeriods > cfg.maxAllowPaybackPeriods || row.netEdgeBps <= 0.0 then {SlowPayback} else {})
    + (if EdgeOf(row) < cfg.minAllowProjectedEdgeBps then {LowEdge}
       else if row.netEdgeBps < cfg.minAllowNetEdgeBps then {LowEdge} else {})
  }

  function Evaluate(cfg: RiskPolicyConfig, row: OpportunityScore): RiskDecision
  {
    if HasNegativeEdge(row) then RiskDecision(Block, {NegativeEdge}, 0.0, 0.05)
    else if row.basisBps > cfg.maxReviewBasisBps then RiskDecision(Block, {BasisExtreme}, 0.0, 0.1)
    else
      var reasons := ReasonsFor(cfg, row);
      if reasons != {} then
        if row.score < cfg.minReviewScore then RiskDecision(Block, reasons, 0.0, 0.2)
        else RiskDecision(Review, reasons, 0.35, Min(Max(row.score / 200.0, 0.35), 0.75))
      else RiskDecision(Allow, {}, 1.0, Min(Max(row.score / 160.0, 0.55), 1.0))
  }

  function Strictness(decision: Decision): nat
  {
    match decision
    case Block => 2
    case Review => 1
    case Allow => 0
  }

  /** Nothing about b is worse than about a, unless a is blocked by its edge anyway. */
  predicate NoWorse(a: OpportunityScore, b: OpportunityScore)
  {
    || HasNegativeEdge(a)
    || (&& EdgeOf(a) <= EdgeOf(b) && a.netEdgeBps <= b.netEdgeBps && a.grossEdgeBps <= b.grossEdgeBps
        && a.score <= b.score && a.basisBps >= b.basisBps && a.tradingCostBps >= b.tradingCostBps
        && (b.riskTag == Guarded ==> a.riskTag == Guarded))
  }

  /** Every threshold of b admits at least what a's admits. */
  predicate NoStricter(a: RiskPolicyConfig, b: RiskPolicyConfig)
  {
    && b.minAllowScore <= a.minAllowScore && b.minReviewScore <= a.minReviewScore
    && b.minAllowNetEdgeBps <= a.minAllowNetEdgeBps && b.minAllowProjectedEdgeBps <= a.minAllowProjectedEdgeBps
    && b.maxAllowBasisBps >= a.maxAllowBasisBps && b.maxReviewBasisBps >= a.maxReviewBasisBps
    && b.maxAllowTradingCostBps >= a.maxAllowTradingCostBps && b.maxAllowPaybackPeriods >= a.maxAllowPaybackPeriods
  }

  /** b is decided at least as favourably as a. */
  predicate AtLeastAsFavourable(a: RiskDecision, b: RiskDecision)
  {
    && Strictness(b.decision) <= Strictness(a.decision) && a.maxPositionFraction <= b.maxPositionFraction
    && a.confidence <= b.confidence
  }

  /** A better row under a laxer policy is never decided worse. */
  lemma BetterRowLaxerPolicy(strict: RiskPolicyConfig, lax: RiskPolicyConfig, a: OpportunityScore, b: OpportunityScore)
    requires NoStricter(strict, lax) && NoWorse(a, b)
    requires b.paybackPeriods > lax.maxAllowPaybackPeriods
         ==> HasNegativeEdge(a) || a.paybackPeriods > strict.maxAllowPaybackPeriods
    ensures AtLeastAsFavourable(Evaluate(strict, a), Evaluate(lax, b))
  {
    if !HasNegativeEdge(a) && a.basisBps <= strict.maxReviewBasisBps {
      FewerReasons(strict, lax, a, b);
    }
  }

  lemma FewerReasons(strict: RiskPolicyConfig, lax: RiskPolicyConfig, a: OpportunityScore, b: OpportunityScore)
    requires NoStricter(strict, lax) && NoWorse(a, b) && !HasNegativeEdge(a)
    requires b.paybackPeriods > lax.maxAllowPaybackPeriods ==> a.paybackPeriods > strict.maxAllowPaybackPeriods
    ensures ReasonsFor(lax, b) <= ReasonsFor(strict, a)
  {
  }

  /** What each decision lets through: full size when allowed, 35% of it in review, nothing when
      blocked; and a confidence in proportion to the score, within the decision's bounds. */
  lemma SizesByDecision(cfg: RiskPolicyConfig, row: OpportunityScore)
    ensures var d := Evaluate(cfg, row);
            && (d.decision == Allow ==>
                  && d.maxPositionFraction == 1.0 && 0.55 <= d.confidence <= 1.0 && d.reasons == {}
                  && (0.55 < d.confidence < 1.0 ==> d.confidence * 160.0 == row.score))
            && (d.decision == Review ==>
                  && d.maxPositionFraction == 0.35 && 0.35 <= d.confidence <= 0.75 && d.reasons != {}
                  && (0.35 < d.confidence < 0.75 ==> d.confidence * 200.0 == row.score))
            && (d.decision == Block ==>
                  && d.maxPositionFraction == 0.0 && d.reasons != {}
                  && d.confidence == if d.reasons == {NegativeEdge} then 0.05
                                     else if d.reasons == {BasisExtreme} then 0.1 else 0.2)
  {
    hide HasNegativeEdge;
  }

  /** The reasons given, each under its own condition. */
  lemma ReasonsSay(cfg: RiskPolicyConfig, row: OpportunityScore)
    ensures var d := Evaluate(cfg, row);
            var edge := if row.projectedBps == 0.0 then row.netEdgeBps else row.projectedBps;
            var hopeless := edge <= 0.0 || row.score <= 0.0 || row.grossEdgeBps <= 0.0;
            var extreme := row.basisBps > cfg.maxReviewBasisBps;
            && (NegativeEdge in d.reasons <==> hopeless)
            && (BasisExtreme in d.reasons <==> !hopeless && extreme)
            && (!hopeless && !extreme ==>
                  && (BasisWide in d.reasons <==> row.riskTag == Guarded || row.basisBps > cfg.maxAllowBasisBps)
                  && (ElevatedCost in d.reasons <==> row.tradingCostBps > cfg.maxAllowTradingCostBps)
                  && (LowScore in d.reasons <==> row.score < cfg.minAllowScore)
                  && (SlowPayback in d.reasons <==>
                        row.paybackPeriods > cfg.maxAllowPaybackPeriods || row.netEdgeBps <= 0.0)
                  && (LowEdge in d.reasons <==>
                        edge < cfg.minAllowProjectedEdgeBps || row.netEdgeBps < cfg.minAllowNetEdgeBps))
  {
  }
}
