/** The backtest: rank each period's snapshots, take the best that pass, add up the estimates. */
module Backtest {
  import opened Lists
  import opened Decimals
  import opened Opportunity
  import opened Risk

  datatype BacktestConfig = BacktestConfig(
    notionalPerTrade: real,
    minScore: real,
    minNetEdgeBps: real,
    topK: int,
    acceptReviewed: bool)

  datatype BacktestTrade = BacktestTrade(
    periodIndex: nat,
    symbol: string,
    fundingRate: real,
    score: real,
    netEdgeBps: real,
    projectedBps: real,
    estimatedPnl: real,
    riskTag: RiskTag,
    decision: RiskDecision)

  datatype BacktestResult = BacktestResult(
    periodsProcessed: nat,
    candidatesSeen: nat,
    selectedTrades: nat,
    estimatedTotalPnl: real,
    averageScore: real,
    averageNetEdgeBps: real,
    averageProjectedBps: real,
    trades: seq<BacktestTrade>)

  // ---- the strategy: score, then sort by score, best first ------------------------------

  function ScoreWith(cfg: ScoreConfig): MarketSnapshot -> OpportunityScore
  {
    (s: MarketSnapshot) => ScoreSnapshot(s, cfg)
  }

  predicate ScoreGe(a: OpportunityScore, b: OpportunityScore)
  {
    a.score >= b.score
  }

  function Ranked(snapshots: seq<MarketSnapshot>, cfg: ScoreConfig): seq<OpportunityScore>
  {
    Sort(Map(snapshots, ScoreWith(cfg)), ScoreGe)
  }

  // ---- one period ---------------------------------------------------------------------------

  predicate Passes(policy: RiskPolicyConfig, row: OpportunityScore, config: BacktestConfig)
  {
    var decision := Evaluate(policy, row).decision;
    && row.score >= config.minScore && EdgeOf(row) >= config.minNetEdgeBps
    && decision != Block
    && (decision == Review ==> config.acceptReviewed)
  }

  function Passing(policy: RiskPolicyConfig, config: BacktestConfig): OpportunityScore -> bool
  {
    (row: OpportunityScore) => Passes(policy, row, config)
  }

  function Sized(notional: real, fraction: real): real
  {
    notional * fraction
  }

  function EstimatedPnl(notional: real, edge: real): real
  {
    Round4(notional * edge / 10000.0)
  }

  function ToTrade(policy: RiskPolicyConfig, config: BacktestConfig,
                   periodIndex: nat): OpportunityScore -> BacktestTrade
  {
    (row: OpportunityScore) =>
      var decision := Evaluate(policy, row);
      BacktestTrade(periodIndex, row.symbol, row.fundingRate, row.score, row.netEdgeBps, EdgeOf(row),
                    EstimatedPnl(Sized(config.notionalPerTrade, decision.maxPositionFraction), EdgeOf(row)),
                    row.riskTag, decision)
  }

  /** The selection stops once it has `top_k` rows; it looks at the count only after taking one. */
  function Wanted(config: BacktestConfig): nat
  {
    if config.topK < 1 then 1 else config.topK
  }

  function First<T>(s: seq<T>, n: nat): seq<T>
  {
    if n < |s| then s[..n] else s
  }

  /** The first `top_k` passing rows of a ranking. */
  function Selection(policy: RiskPolicyConfig, rows: seq<OpportunityScore>,
                     config: BacktestConfig): seq<OpportunityScore>
  {
    First(Filter(rows, Passing(policy, config)), Wanted(config))
  }

  function PeriodTrades(policy: RiskPolicyConfig, rows: seq<OpportunityScore>, config: BacktestConfig,
                        periodIndex: nat):
    seq<BacktestTrade>
  {
    Map(Selection(policy, rows, config), ToTrade(policy, config, periodIndex))
  }

  // ---- the whole run --------------------------------------------------------------------------

  function Trades(policy: RiskPolicyConfig, cfg: ScoreConfig, periods: seq<seq<MarketSnapshot>>,
                  config: BacktestConfig):
    seq<BacktestTrade>
  {
    if periods == [] then []
    else
      var n := |periods| - 1;
      Trades(policy, cfg, periods[..n], config) + PeriodTrades(policy, Ranked(periods[n], cfg), config, n)
  }

  function CountSnapshots(periods: seq<seq<MarketSnapshot>>): nat
  {
    if periods == [] then 0 else CountSnapshots(periods[..|periods| - 1]) + |periods[|periods| - 1]|
  }

  function Sum(values: seq<real>): real
  {
    if values == [] then 0.0 else Sum(values[..|values| - 1]) + values[|values| - 1]
  }

  function Average(values: seq<real>): real
  {
    if values == [] then 0.0 else Round4(Sum(values) / |values| as real)
  }

  function PnlOf(): BacktestTrade -> real { (t: BacktestTrade) => t.estimatedPnl }

  function ScoreOf(): BacktestTrade -> real { (t: BacktestTrade) => t.score }

  function NetEdgeOf(): BacktestTrade -> real { (t: BacktestTrade) => t.netEdgeBps }

  function ProjectedOf(): BacktestTrade -> real { (t: BacktestTrade) => t.projectedBps }

  function Totals(trades: seq<BacktestTrade>, periods: seq<seq<MarketSnapshot>>): BacktestResult
  {
    BacktestResult(|periods|, CountSnapshots(periods), |trades|, Round4(Sum(Map(trades, PnlOf()))),
                   Average(Map(trades, ScoreOf())), Average(Map(trades, NetEdgeOf())),
                   Average(Map(trades, ProjectedOf())), trades)
  }

  class BacktestEngine {
    const scoreConfig: ScoreConfig
    const policy: RiskPolicyConfig

    constructor (scoreConfig: ScoreConfig, policy: RiskPolicyConfig)
      ensures this.scoreConfig == scoreConfig && this.policy == policy
    {
      this.scoreConfig := scoreConfig;
      this.policy := policy;
    }

    /** Walks down the ranking, takes what passes and stops at `top_k`. */
    method SelectRows(rows: seq<OpportunityScore>, config: BacktestConfig) returns (selected: seq<OpportunityScore>)
      ensures selected == Selection(policy, rows, config)
    {
      hide Passes;
      var taken := 0;
      selected := [];
      assert rows[0..] == rows;
      for i := 0 to |rows|
        invariant taken == |selected| < Wanted(config)
        invariant Filter(rows, Passing(policy, config)) == selected + Filter(rows[i..], Passing(policy, config))
      {
        assert rows[i..][1..] == rows[i + 1..];
        if Passes(policy, rows[i], config) {
          ConcatAssociates(selected, [rows[i]], Filter(rows[i + 1..], Passing(policy, config)));
          selected := selected + [rows[i]];
          taken := taken + 1;
          if taken >= config.topK {
            return;
          }
        } else {
          assert [] + Filter(rows[i + 1..], Passing(policy, config)) == Filter(rows[i + 1..], Passing(policy, config));
        }
      }
      assert selected + [] == selected;
    }

    method Run(periods: seq<seq<MarketSnapshot>>, config: BacktestConfig) returns (result: BacktestResult)
      ensures result == Totals(Trades(policy, scoreConfig, periods, config), periods)
    {
      hide Selection, Round4;
      var selected: seq<BacktestTrade> := [];
      var seen := 0;
      for i := 0 to |periods|
        invariant selected == Trades(policy, scoreConfig, periods[..i], config)
        invariant seen == CountSnapshots(periods[..i])
      {
        assert periods[..i + 1][..i] == periods[..i];
        var ranked := Ranked(periods[i], scoreConfig);
        RankingSorts(periods[i], scoreConfig);
        seen := seen + |ranked|;
        var rows := SelectRows(ranked, config);
        for j := 0 to |rows|
          invariant selected == Trades(policy, scoreConfig, periods[..i], config)
                  + Map(rows[..j], ToTrade(policy, config, i))
        {
          selected := selected + [ToTrade(policy, config, i)(rows[j])];
          assert Map(rows[..j + 1], ToTrade(policy, config, i))
              == Map(rows[..j], ToTrade(policy, config, i)) + [ToTrade(policy, config, i)(rows[j])];
        }
        assert rows[..|rows|] == rows;
      }
      assert periods[..|periods|] == periods;
      return Totals(selected, periods);
    }
  }

  lemma ScoreOrder()
    ensures TotalPreorder(ScoreGe)
  {
  }

  lemma RankingSorts(snapshots: seq<MarketSnapshot>, cfg: ScoreConfig)
    ensures |Ranked(snapshots, cfg)| == |snapshots|
    ensures Sorted(Ranked(snapshots, cfg), ScoreGe)
    ensures multiset(Ranked(snapshots, cfg)) == multiset(Map(snapshots, ScoreWith(cfg)))
  {
    ScoreOrder();
    SortSorts(Map(snapshots, ScoreWith(cfg)), ScoreGe);
  }

  function HasScore(score: real): OpportunityScore -> bool
  {
    (row: OpportunityScore) => row.score == score
  }

  /** Rows of one score stay in the order of their snapshots. */
  lemma RankingKeepsTies(snapshots: seq<MarketSnapshot>, cfg: ScoreConfig, score: real)
    ensures Filter(Ranked(snapshots, cfg), HasScore(score)) == Filter(Map(snapshots, ScoreWith(cfg)), HasScore(score))
  {
    var rows := Map(snapshots, ScoreWith(cfg));
    hide ScoreWith, ScoreSnapshot;
    ScoreOrder();
    SortFilter(rows, ScoreGe, HasScore(score));
    FilterMembers(rows, HasScore(score));
    var tied := Filter(rows, HasScore(score));
    forall i, j | 0 <= i < j < |tied| ensures ScoreGe(tied[i], tied[j]) {
      assert tied[i] in tied && tied[j] in tied;
    }
    SortOfSorted(tied, ScoreGe);
  }
}
