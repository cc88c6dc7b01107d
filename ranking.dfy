/** Ranking backtest reports: highest Sharpe ratio first, then the smallest
    drawdown, then the highest total return; a stable sort. */
module Ranking {
  import opened BacktestReports
  import opened StableSort

  /** The sort key `(-sharpe, max_drawdown, -total_return)` of `a` is at most
      that of `b` in Python's tuple order. */
  predicate RanksFirst(a: BacktestReport, b: BacktestReport)
  {
    || -a.sharpeRatio < -b.sharpeRatio
    || (-a.sharpeRatio == -b.sharpeRatio
        && (|| a.maxDrawdown < b.maxDrawdown
            || (a.maxDrawdown == b.maxDrawdown && -a.totalReturn <= -b.totalReturn)))
  }

  /** `rank_reports`. */
  function RankReports(reports: seq<BacktestReport>): (r: seq<BacktestReport>)
    ensures |r| == |reports|
    ensures multiset(r) == multiset(reports)
  {
    Sort(reports, RanksFirst)
  }

  // ---------------------------------------------------------------------------

  lemma RanksFirstIsPreorder()
    ensures TotalPreorder(RanksFirst)
  {
  }

  /** Along the ranking the Sharpe ratio never increases; among equal Sharpe
      ratios the drawdown never decreases; among equal Sharpe ratios and
      drawdowns the total return never increases. */
  lemma RankedOrder(reports: seq<BacktestReport>, i: int, j: int)
    requires 0 <= i < j < |reports|
    ensures var r := RankReports(reports);
      && r[i].sharpeRatio >= r[j].sharpeRatio
      && (r[i].sharpeRatio == r[j].sharpeRatio ==> r[i].maxDrawdown <= r[j].maxDrawdown)
      && (r[i].sharpeRatio == r[j].sharpeRatio && r[i].maxDrawdown == r[j].maxDrawdown ==>
            r[i].totalReturn >= r[j].totalReturn)
  {
    RanksFirstIsPreorder();
    SortSorted(reports, RanksFirst);
  }

  /** The first report has the highest Sharpe ratio of all, and among those
      the smallest drawdown. */
  lemma BestFirst(reports: seq<BacktestReport>, k: int)
    requires 0 <= k < |reports|
    ensures var r := RankReports(reports);
      && r[0].sharpeRatio >= reports[k].sharpeRatio
      && (r[0].sharpeRatio == reports[k].sharpeRatio ==> r[0].maxDrawdown <= reports[k].maxDrawdown)
  {
    var r := RankReports(reports);
    assert reports[k] in multiset(r);
    var j :| 0 <= j < |r| && r[j] == reports[k];
    if j > 0 {
      RankedOrder(reports, 0, j);
    }
  }

  /** Reports with equal Sharpe ratio, drawdown and total return keep their
      input order. */
  lemma RankIsStable(reports: seq<BacktestReport>, k: BacktestReport)
    ensures ClassOf(RankReports(reports), RanksFirst, k) == ClassOf(reports, RanksFirst, k)
    ensures forall a :: Equiv(RanksFirst, a, k) <==>
      a.sharpeRatio == k.sharpeRatio && a.maxDrawdown == k.maxDrawdown && a.totalReturn == k.totalReturn
  {
    RanksFirstIsPreorder();
    SortPreservesClasses(reports, RanksFirst, k);
  }
}
