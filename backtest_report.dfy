/** The result record of one backtest: a strategy run on one asset. */
module BacktestReports {
  import opened Common

  datatype BacktestReport = BacktestReport(
    asset: string,
    strategyName: string,
    totalReturn: real,
    sharpeRatio: real,
    maxDrawdown: real,
    winRate: real,
    totalTrades: int,
    profitFactor: Option<real>,
    expectancy: Option<real>,
    averageTradeReturn: Option<real>,
    equityCurve: Option<seq<real>>,
    metadata: map<string, string>)

}
