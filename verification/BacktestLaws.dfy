/** What the backtest promises: no losing trade is ever selected, the best passing rows are
    taken first, and loosening the filters only adds trades. */
module BacktestLaws {
  import opened Lists
  import opened Decimals
  import opened Opportunity
  import opened Risk
  import opened EdgeMonotonicity
  import opened Backtest

  // ---- no selected trade loses ------------------------------------------------------------

  /** Only rows with a positive edge get past the policy. */
  lemma PassingRowsHaveAnEdge(policy: RiskPolicyConfig, row: OpportunityScore, config: BacktestConfig)
    requires Passes(policy, row, config)
    ensures EdgeOf(row) > 0.0 && row.score > 0.0 && Evaluate(policy, row).maxPositionFraction > 0.0
  {
  }

  lemma PeriodNeverLoses(policy: RiskPolicyConfig, rows: seq<OpportunityScore>, config: BacktestConfig,
                         periodIndex: nat)
    requires config.notionalPerTrade >= 0.0
    ensures forall t :: t in PeriodTrades(policy, rows, config, periodIndex) ==> t.estimatedPnl >= 0.0
  {
  }

  lemma {:induction false} TradesNeverLose(policy: RiskPolicyConfig, cfg: ScoreConfig,
                                           periods: seq<seq<MarketSnapshot>>, config: BacktestConfig)
    requires config.notionalPerTrade >= 0.0
    ensures forall t :: t in Trades(policy, cfg, periods, config) ==> t.estimatedPnl >= 0.0
  {
    hide PeriodTrades;
    if periods != [] {
      var n := |periods| - 1;
      TradesNeverLose(policy, cfg, periods[..n], config);
      PeriodNeverLoses(policy, Ranked(periods[n], cfg), config, n);
    }
  }

  lemma {:induction false} SumNonNegative(values: seq<real>)
    requires forall i :: 0 <= i < |values| ==> values[i] >= 0.0
    ensures Sum(values) >= 0.0
  {
    if values != [] {
      SumNonNegative(values[..|values| - 1]);
    }
  }

  /** The estimated total is never negative. */
  lemma TotalIsNonNegative(policy: RiskPolicyConfig, cfg: ScoreConfig, periods: seq<seq<MarketSnapshot>>,
                           config: BacktestConfig)
    requires config.notionalPerTrade >= 0.0
    ensures Totals(Trades(policy, cfg, periods, config), periods).estimatedTotalPnl >= 0.0
  {
    TradesNeverLose(policy, cfg, periods, config);
    var trades := Trades(policy, cfg, periods, config);
    hide Trades;
    var pnls := Map(trades, PnlOf());
    forall i | 0 <= i < |pnls| ensures pnls[i] >= 0.0 {
      assert trades[i] in trades;
    }
    SumNonNegative(pnls);
    Round4Monotone(0.0, Sum(pnls));
    Round4Zero();
  }

  // ---- the best passing rows come first --------------------------------------------------------

  function Fewer(x: int, y: int): int { if x < y then x else y }

  /** A period's selection is its best: as many as wanted, one at the least, or as pass, best
      first, and no passing row left out beats one that was taken. */
  lemma SelectionIsTheBest(policy: RiskPolicyConfig, snapshots: seq<MarketSnapshot>, cfg: ScoreConfig,
                           config: BacktestConfig)
    ensures var rows := Ranked(snapshots, cfg);
            var passing := Filter(rows, Passing(policy, config));
            var taken := Selection(policy, rows, config);
            && |taken| == Fewer(if config.topK >= 1 then config.topK else 1, |passing|)
            && Sorted(taken, ScoreGe)
            && taken <= passing
            && forall i, j :: 0 <= i < |taken| <= j < |passing| ==> taken[i].score >= passing[j].score
  {
    hide Passes, Ranked;
    RankingSorts(snapshots, cfg);
    FilterKeepsSorted(Ranked(snapshots, cfg), Passing(policy, config));
  }

  lemma {:induction false} FilterKeepsSorted(rows: seq<OpportunityScore>, keep: OpportunityScore -> bool)
    requires Sorted(rows, ScoreGe)
    ensures Sorted(Filter(rows, keep), ScoreGe)
  {
    if rows != [] {
      var rest := Filter(rows[1..], keep);
      FilterKeepsSorted(rows[1..], keep);
      FilterMembers(rows[1..], keep);
      var kept := Filter(rows, keep);
      forall i, j | 0 <= i < j < |kept| ensures ScoreGe(kept[i], kept[j]) {
        if keep(rows[0]) {
          assert kept[j] == rest[j - 1] && rest[j - 1] in rows[1..];
          if i > 0 { assert kept[i] == rest[i - 1]; }
        } else {
          assert kept == rest;
        }
      }
    }
  }

  // ---- loosening only adds ------------------------------------------------------------------------

  /** The looser of two configurations: a lower score limit, a larger count, the rest equal. */
  predicate Looser(tight: BacktestConfig, loose: BacktestConfig)
  {
    && loose.minScore <= tight.minScore && tight.topK <= loose.topK
    && loose == tight.(minScore := loose.minScore, topK := loose.topK)
  }

  /** In a ranking, the rows above a higher limit are the first of those above a lower one. */
  lemma {:induction false} HigherLimitIsPrefix(policy: RiskPolicyConfig, rows: seq<OpportunityScore>,
                                               tight: BacktestConfig, loose: BacktestConfig)
    requires Sorted(rows, ScoreGe) && Looser(tight, loose)
    ensures Filter(rows, Passing(policy, tight)) <= Filter(rows, Passing(policy, loose))
  {
    if rows != [] {
      if rows[0].score >= tight.minScore {
        assert Passes(policy, rows[0], tight) == Passes(policy, rows[0], loose);
        hide Passes;
        HigherLimitIsPrefix(policy, rows[1..], tight, loose);
      } else {
        forall row | row in rows ensures row.score < tight.minScore {
          var i :| 0 <= i < |rows| && rows[i] == row;
          assert i == 0 || ScoreGe(rows[0], rows[i]);
        }
        FilterNone(rows, Passing(policy, tight));
      }
    }
  }

  /** Each period's trade list under the tighter configuration starts the list under the
      looser one. */
  lemma LooserExtendsPeriod(policy: RiskPolicyConfig, snapshots: seq<MarketSnapshot>, cfg: ScoreConfig,
                            tight: BacktestConfig, loose: BacktestConfig, periodIndex: nat)
    requires Looser(tight, loose)
    ensures PeriodTrades(policy, Ranked(snapshots, cfg), tight, periodIndex)
         <= PeriodTrades(policy, Ranked(snapshots, cfg), loose, periodIndex)
  {
    hide Passes, Ranked, Evaluate;
    var rows := Ranked(snapshots, cfg);
    RankingSorts(snapshots, cfg);
    HigherLimitIsPrefix(policy, rows, tight, loose);
    var less, more := Selection(policy, rows, tight), Selection(policy, rows, loose);
    assert less <= more;
    forall i | 0 <= i < |less|
      ensures PeriodTrades(policy, rows, tight, periodIndex)[i] == PeriodTrades(policy, rows, loose, periodIndex)[i]
    {
    }
  }

  lemma {:induction false} SumAppend(a: seq<real>, b: seq<real>)
    ensures Sum(a + b) == Sum(a) + Sum(b)
  {
    if b == [] {
      assert a + b == a;
    } else {
      var n := |b| - 1;
      SumAppend(a, b[..n]);
      assert (a + b)[..|a| + n] == a + b[..n];
    }
  }

  lemma MapAppend<T, U>(a: seq<T>, b: seq<T>, f: T -> U)
    ensures Map(a + b, f) == Map(a, f) + Map(b, f)
  {
  }

  lemma LooserPeriodSumsHigher(policy: RiskPolicyConfig, snapshots: seq<MarketSnapshot>, cfg: ScoreConfig,
                               tight: BacktestConfig, loose: BacktestConfig, periodIndex: nat)
    requires Looser(tight, loose) && tight.notionalPerTrade >= 0.0
    ensures var less := PeriodTrades(policy, Ranked(snapshots, cfg), tight, periodIndex);
            var more := PeriodTrades(policy, Ranked(snapshots, cfg), loose, periodIndex);
            |less| <= |more| && Sum(Map(less, PnlOf())) <= Sum(Map(more, PnlOf()))
  {
    LooserExtendsPeriod(policy, snapshots, cfg, tight, loose, periodIndex);
    PeriodNeverLoses(policy, Ranked(snapshots, cfg), loose, periodIndex);
    ExtensionSumsHigher(PeriodTrades(policy, Ranked(snapshots, cfg), tight, periodIndex),
                        PeriodTrades(policy, Ranked(snapshots, cfg), loose, periodIndex));
  }

  lemma ExtensionSumsHigher(less: seq<BacktestTrade>, more: seq<BacktestTrade>)
    requires less <= more && forall t :: t in more ==> t.estimatedPnl >= 0.0
    ensures Sum(Map(less, PnlOf())) <= Sum(Map(more, PnlOf()))
  {
    var extra := more[|less|..];
    assert more == less + extra;
    MapAppend(less, extra, PnlOf());
    SumAppend(Map(less, PnlOf()), Map(extra, PnlOf()));
    forall i | 0 <= i < |extra| ensures Map(extra, PnlOf())[i] >= 0.0 {
      assert extra[i] == more[|less| + i];
    }
    SumNonNegative(Map(extra, PnlOf()));
  }

  lemma {:induction false} LooserSumsHigher(policy: RiskPolicyConfig, cfg: ScoreConfig,
                                            periods: seq<seq<MarketSnapshot>>,
                                            tight: BacktestConfig, loose: BacktestConfig)
    requires Looser(tight, loose) && tight.notionalPerTrade >= 0.0
    ensures Sum(Map(Trades(policy, cfg, periods, tight), PnlOf()))
         <= Sum(Map(Trades(policy, cfg, periods, loose), PnlOf()))
    ensures |Trades(policy, cfg, periods, tight)| <= |Trades(policy, cfg, periods, loose)|
  {
    if periods != [] {
      var n := |periods| - 1;
      LooserSumsHigher(policy, cfg, periods[..n], tight, loose);
      LooserPeriodSumsHigher(policy, periods[n], cfg, tight, loose, n);
      TradesOneMore(policy, cfg, periods, tight);
      TradesOneMore(policy, cfg, periods, loose);
      hide PeriodTrades, Ranked, Looser, Trades;
    }
  }

  lemma TradesOneMore(policy: RiskPolicyConfig, cfg: ScoreConfig, periods: seq<seq<MarketSnapshot>>,
                      config: BacktestConfig)
    requires periods != []
    ensures var n := |periods| - 1;
            var earlier, last := Trades(policy, cfg, periods[..n], config),
                    PeriodTrades(policy, Ranked(periods[n], cfg), config, n);
            && |Trades(policy, cfg, periods, config)| == |earlier| + |last|
            && Sum(Map(Trades(policy, cfg, periods, config), PnlOf()))
                == Sum(Map(earlier, PnlOf())) + Sum(Map(last, PnlOf()))
  {
    hide PeriodTrades, Ranked;
    var n := |periods| - 1;
    var earlier, last := Trades(policy, cfg, periods[..n], config),
            PeriodTrades(policy, Ranked(periods[n], cfg), config, n);
    MapAppend(earlier, last, PnlOf());
    SumAppend(Map(earlier, PnlOf()), Map(last, PnlOf()));
  }

  /** Lowering the score limit or raising `top_k` never lowers the estimated total and never
      loses a trade. */
  lemma LooserNeverLowersTotal(policy: RiskPolicyConfig, cfg: ScoreConfig, periods: seq<seq<MarketSnapshot>>,
                               tight: BacktestConfig, loose: BacktestConfig)
    requires Looser(tight, loose) && tight.notionalPerTrade >= 0.0
    ensures var less, more := Totals(Trades(policy, cfg, periods, tight), periods),
            Totals(Trades(policy, cfg, periods, loose), periods);
            less.estimatedTotalPnl <= more.estimatedTotalPnl && less.selectedTrades <= more.selectedTrades
  {
    LooserSumsHigher(policy, cfg, periods, tight, loose);
    Round4Monotone(Sum(Map(Trades(policy, cfg, periods, tight), PnlOf())),
                   Sum(Map(Trades(policy, cfg, periods, loose), PnlOf())));
  }

  // ---- what a trade says ----------------------------------------------------------------------

  /** The trade is of a scored snapshot of its period, meets every limit of the backtest, and
      its estimate is the edge earned on the notional the policy lets through. */
  predicate Meant(t: BacktestTrade, policy: RiskPolicyConfig, cfg: ScoreConfig, periods: seq<seq<MarketSnapshot>>,
                  config: BacktestConfig)
  {
    && t.periodIndex < |periods|
    && (exists s :: s in periods[t.periodIndex] && IsScored(t, ScoreSnapshot(s, cfg), policy))
    && t.score >= config.minScore && t.projectedBps >= config.minNetEdgeBps
    && (t.decision.decision == Allow || (t.decision.decision == Review && config.acceptReviewed))
    && IsEstimate(t, config)
  }

  predicate IsEstimate(t: BacktestTrade, config: BacktestConfig)
  {
    Earns(t.estimatedPnl, config.notionalPerTrade, t.decision.maxPositionFraction, t.projectedBps)
  }

  /** The estimate is so many basis points of a fraction of the notional, to the nearest unit. */
  predicate Earns(estimate: real, notional: real, fraction: real, edgeBps: real)
  {
    -0.00005 <= estimate - notional * fraction * edgeBps / 10000.0 <= 0.00005
  }

  lemma EstimateEarns(notional: real, fraction: real, edgeBps: real)
    ensures Earns(EstimatedPnl(Sized(notional, fraction), edgeBps), notional, fraction, edgeBps)
  {
    Round4Error(notional * fraction * edgeBps / 10000.0);
    hide Round4;
  }

  lemma TradeIsMeant(policy: RiskPolicyConfig, cfg: ScoreConfig, periods: seq<seq<MarketSnapshot>>,
                     config: BacktestConfig, n: nat, s: MarketSnapshot)
    requires n < |periods| && s in periods[n]
    ensures var row := ScoreSnapshot(s, cfg);
            Passes(policy, row, config) ==> Meant(ToTrade(policy, config, n)(row), policy, cfg, periods, config)
  {
    var row := ScoreSnapshot(s, cfg);
    EstimateIsMeant(policy, config, n, row);
    hide Evaluate, ScoreSnapshot, IsEstimate, EstimatedPnl;
    assert IsScored(ToTrade(policy, config, n)(row), ScoreSnapshot(s, cfg), policy);
  }

  lemma EstimateIsMeant(policy: RiskPolicyConfig, config: BacktestConfig, n: nat, row: OpportunityScore)
    ensures IsEstimate(ToTrade(policy, config, n)(row), config)
  {
    EstimateEarns(config.notionalPerTrade, Evaluate(policy, row).maxPositionFraction, EdgeOf(row));
    hide Evaluate, EstimatedPnl, Earns, EdgeOf, Sized;
  }

  predicate IsScored(t: BacktestTrade, row: OpportunityScore, policy: RiskPolicyConfig)
  {
    && t.symbol == row.symbol && t.fundingRate == row.fundingRate && t.score == row.score
    && t.netEdgeBps == row.netEdgeBps && t.riskTag == row.riskTag && t.decision == Evaluate(policy, row)
    && t.projectedBps == if row.projectedBps == 0.0 then row.netEdgeBps else row.projectedBps
  }

  lemma PeriodTradesAreMeant(policy: RiskPolicyConfig, cfg: ScoreConfig, periods: seq<seq<MarketSnapshot>>,
                             config: BacktestConfig, n: nat)
    requires n < |periods|
    ensures forall t :: t in PeriodTrades(policy, Ranked(periods[n], cfg), config, n) ==>
              t.periodIndex == n && Meant(t, policy, cfg, periods, config)
  {
    var rows := Ranked(periods[n], cfg);
    var selected := Selection(policy, rows, config);
    var trades := PeriodTrades(policy, rows, config, n);
    hide Ranked, Selection, ScoreSnapshot, Meant, Passes, ToTrade;
    forall t | t in trades ensures t.periodIndex == n && Meant(t, policy, cfg, periods, config) {
      var i :| 0 <= i < |trades| && trades[i] == t;
      SelectedPass(policy, rows, config, i);
      var s := RowIsScored(periods[n], cfg, selected[i]);
      TradeIsMeant(policy, cfg, periods, config, n, s);
      TradePeriod(policy, config, n, selected[i]);
    }
  }

  lemma TradePeriod(policy: RiskPolicyConfig, config: BacktestConfig, n: nat, row: OpportunityScore)
    ensures ToTrade(policy, config, n)(row).periodIndex == n
  {
  }

  /** Every ranked row is the score of one of the snapshots. */
  lemma RowIsScored(snapshots: seq<MarketSnapshot>, cfg: ScoreConfig, row: OpportunityScore) returns (s: MarketSnapshot)
    requires row in Ranked(snapshots, cfg)
    ensures s in snapshots && ScoreSnapshot(s, cfg) == row
  {
    RankingSorts(snapshots, cfg);
    hide Ranked, ScoreSnapshot;
    assert row in multiset(Map(snapshots, ScoreWith(cfg)));
    var k :| 0 <= k < |snapshots| && ScoreSnapshot(snapshots[k], cfg) == row;
    s := snapshots[k];
  }

  lemma SelectedPass(policy: RiskPolicyConfig, rows: seq<OpportunityScore>, config: BacktestConfig, i: nat)
    requires i < |Selection(policy, rows, config)|
    ensures Selection(policy, rows, config)[i] in rows && Passes(policy, Selection(policy, rows, config)[i], config)
  {
    FilterMembers(rows, Passing(policy, config));
    assert Selection(policy, rows, config)[i] in Filter(rows, Passing(policy, config));
  }

  /** Every trade of a backtest is meant. */
  lemma {:induction false} EveryTradeIsMeant(policy: RiskPolicyConfig, cfg: ScoreConfig,
                                             periods: seq<seq<MarketSnapshot>>, config: BacktestConfig)
    ensures forall t :: t in Trades(policy, cfg, periods, config) ==> Meant(t, policy, cfg, periods, config)
  {
    hide PeriodTrades, ScoreSnapshot, IsScored;
    if periods != [] {
      var n := |periods| - 1;
      EveryTradeIsMeant(policy, cfg, periods[..n], config);
      PeriodTradesAreMeant(policy, cfg, periods, config, n);
    }
  }

  // ---- what the totals say ---------------------------------------------------------------------

  /** The plain sum of one field, from the front. */
  function Total(trades: seq<BacktestTrade>, field: BacktestTrade -> real): real
  {
    if trades == [] then 0.0 else field(trades[0]) + Total(trades[1..], field)
  }

  lemma {:induction false} TotalIsSum(trades: seq<BacktestTrade>, field: BacktestTrade -> real)
    ensures Sum(Map(trades, field)) == Total(trades, field)
  {
    if trades != [] {
      TotalIsSum(trades[1..], field);
      assert trades == [trades[0]] + trades[1..];
      MapAppend([trades[0]], trades[1..], field);
      SumAppend(Map([trades[0]], field), Map(trades[1..], field));
      assert Map([trades[0]], field)[..0] == [];
    }
  }

  /** The figure is the mean of the n values that sum up to the total, to the nearest unit. */
  predicate IsMean(figure: real, total: real, n: nat)
  {
    if n == 0 then figure == 0.0 else -0.00005 <= figure - total / n as real <= 0.00005
  }

  lemma AverageIsMean(trades: seq<BacktestTrade>, field: BacktestTrade -> real)
    ensures IsMean(Average(Map(trades, field)), Total(trades, field), |trades|)
  {
    TotalIsSum(trades, field);
    if trades != [] {
      Round4Error(Total(trades, field) / |trades| as real);
    }
  }

  /** The result of a backtest adds up its own trades: the total estimate and the three means,
      each to the nearest unit, and the number of snapshots seen. */
  lemma TotalsAddUp(trades: seq<BacktestTrade>, periods: seq<seq<MarketSnapshot>>)
    ensures var result := Totals(trades, periods);
            && result.trades == trades && result.selectedTrades == |trades| && result.periodsProcessed == |periods|
            && -0.00005 <= result.estimatedTotalPnl - Total(trades, (t: BacktestTrade) => t.estimatedPnl) <= 0.00005
            && IsMean(result.averageScore, Total(trades, (t: BacktestTrade) => t.score), |trades|)
            && IsMean(result.averageNetEdgeBps, Total(trades, (t: BacktestTrade) => t.netEdgeBps), |trades|)
            && IsMean(result.averageProjectedBps, Total(trades, (t: BacktestTrade) => t.projectedBps), |trades|)
  {
    hide Round4, Average, IsMean;
    TotalIsSum(trades, PnlOf());
    Round4Error(Total(trades, PnlOf()));
    AverageIsMean(trades, ScoreOf());
    AverageIsMean(trades, NetEdgeOf());
    AverageIsMean(trades, ProjectedOf());
    SameTotal(trades, PnlOf(), (t: BacktestTrade) => t.estimatedPnl);
    SameTotal(trades, ScoreOf(), (t: BacktestTrade) => t.score);
    SameTotal(trades, NetEdgeOf(), (t: BacktestTrade) => t.netEdgeBps);
    SameTotal(trades, ProjectedOf(), (t: BacktestTrade) => t.projectedBps);
  }

  lemma {:induction false} SameTotal(trades: seq<BacktestTrade>, f: BacktestTrade -> real, g: BacktestTrade -> real)
    requires forall t :: f(t) == g(t)
    ensures Total(trades, f) == Total(trades, g)
  {
    if trades != [] {
      SameTotal(trades[1..], f, g);
    }
  }

  /** Every snapshot of every period is seen. */
  lemma {:induction false} EverySnapshotIsSeen(periods: seq<seq<MarketSnapshot>>, more: seq<MarketSnapshot>)
    ensures CountSnapshots(periods + [more]) == CountSnapshots(periods) + |more|
    ensures CountSnapshots([]) == 0
  {
    assert (periods + [more])[..|periods|] == periods;
  }
}
