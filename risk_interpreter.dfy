/** The risk interpreter: the ATR regime and the density of indicator columns. */
module RiskInterpreter {
  import opened Common
  import opened Signals

  const TtlDays := 90

  const PriceColumns: set<string> := {"Open", "High", "Low", "Close", "Volume"}

  /** The strategy sets a stop loss or a take profit, or the frame has ATR. */
  predicate UsesRisk(df: Frame, config: Config)
  {
    config.stopLossPct.Some? || config.takeProfitPct.Some? || "ATR_14" in df.columns
  }

  /** `latest.get("Close", 0)`: 0 for a missing column. */
  function RiskPrice(df: Frame): Option<real>
    requires |df.rows| > 0
  {
    if "Close" in df.columns then Last(df, "Close") else Some(0.0)
  }

  /** The number of columns that are not price or volume columns. */
  function IndicatorCount(df: Frame): nat
  {
    |df.columns - PriceColumns|
  }

  /** An ATR above 1.5 times its mean is a high-volatility warning (ALERT);
      below 0.6 times a low-volatility one (HOLD). */
  function VolatilityWarning(df: Frame, config: Config, now: int): Option<Signal>
    requires |df.rows| > 0
  {
    var ratio := AtrRatio(df);
    if ratio.None? then None
    else if ratio.value > 1.5 then
      Some(Emit(config, Risk, Alert, 0.75, Strong, RiskPrice(df),
                map["kind" := Text("volatility_warning"), "condition" := Text("high_volatility"),
                    "atr_ratio" := Number(ratio.value)], now, TtlDays))
    else if ratio.value < 0.6 then
      Some(Emit(config, Risk, Hold, 0.6, Moderate, RiskPrice(df),
                map["kind" := Text("volatility_warning"), "condition" := Text("low_volatility"),
                    "atr_ratio" := Number(ratio.value)], now, TtlDays))
    else None
  }

  /** Fewer than 10 indicator columns is a data-quality warning (ALERT). */
  function DataQualityWarning(df: Frame, config: Config, now: int): Option<Signal>
    requires |df.rows| > 0
  {
    if IndicatorCount(df) < 10 then
      Some(Emit(config, Risk, Alert, 0.4, Weak, RiskPrice(df),
                map["kind" := Text("data_quality"), "issue" := Text("low_indicator_density"),
                    "indicator_count" := Count(IndicatorCount(df))], now, TtlDays))
    else None
  }

  function InterpretSpec(df: Frame, config: Config, now: int): seq<Signal>
  {
    if Empty(df) || !UsesRisk(df, config) then []
    else Opt(VolatilityWarning(df, config, now)) + Opt(DataQualityWarning(df, config, now))
  }

  method Interpret(df: Frame, config: Config, now: int) returns (signals: seq<Signal>)
    ensures signals == InterpretSpec(df, config, now)
  {
    signals := [];
    if Empty(df) {
      return;
    }
    if !UsesRisk(df, config) {
      return;
    }
    var volatility := VolatilityWarning(df, config, now);
    if volatility.Some? {
      signals := signals + [volatility.value];
    }
    var quality := DataQualityWarning(df, config, now);
    if quality.Some? {
      signals := signals + [quality.value];
    }
  }

  // ---------------------------------------------------------------------------

  lemma RulesWellFormed(df: Frame, config: Config, now: int)
    requires |df.rows| > 0
    ensures var r := VolatilityWarning(df, config, now);
      r.Some? ==> (WellFormed([r.value], config, Risk, now, TtlDays) && MetaOf(r.value, "kind") == Some(Text("volatility_warning"))
                   && r.value.price == RiskPrice(df))
    ensures var r := DataQualityWarning(df, config, now);
      r.Some? ==> (WellFormed([r.value], config, Risk, now, TtlDays) && MetaOf(r.value, "kind") == Some(Text("data_quality"))
                   && r.value.price == RiskPrice(df))
  {
  }

  /** An empty frame, or a strategy with no risk settings on a frame without
      ATR, gives nothing; otherwise at most one volatility and one data-quality
      warning, all valid risk signals, none of them BUY or SELL. */
  lemma InterpretProperties(df: Frame, config: Config, now: int)
    ensures var out := InterpretSpec(df, config, now);
      && (Empty(df) || !UsesRisk(df, config) ==> out == [])
      && WellFormed(out, config, Risk, now, TtlDays)
      && |out| <= 2
      && DistinctBy(out, "kind")
      && (forall i :: 0 <= i < |out| ==> out[i].signalType == Alert || out[i].signalType == Hold)
  {
    if !Empty(df) && UsesRisk(df, config) {
      RulesWellFormed(df, config, now);
      CombineTwo(VolatilityWarning(df, config, now), DataQualityWarning(df, config, now), config, Risk, now, TtlDays,
                 "kind", {Some(Text("volatility_warning"))}, {Some(Text("data_quality"))});
    }
  }

  /** High volatility (ratio above 1.5) gives ALERT 0.75 STRONG, low (below
      0.6) HOLD 0.6 MODERATE, anything between nothing. */
  lemma VolatilityRule(df: Frame, config: Config, now: int)
    requires |df.rows| > 0
    ensures var r := VolatilityWarning(df, config, now);
      var ratio := AtrRatio(df);
      && (r.Some? <==> ratio.Some? && (ratio.value > 1.5 || ratio.value < 0.6))
      && (r.Some? && ratio.value > 1.5 ==> r.value.signalType == Alert && r.value.confidence == 0.75 && r.value.strength == Strong)
      && (r.Some? && ratio.value < 0.6 ==> r.value.signalType == Hold && r.value.confidence == 0.6 && r.value.strength == Moderate)
  {
  }

  /** The data-quality warning fires exactly below 10 indicator columns; a
      frame of price and volume columns only always draws it. */
  lemma DataQualityRule(df: Frame, config: Config, now: int)
    requires |df.rows| > 0
    ensures var r := DataQualityWarning(df, config, now);
      && (r.Some? <==> IndicatorCount(df) < 10)
      && (r.Some? ==> r.value.signalType == Alert && r.value.confidence == 0.4 && r.value.strength == Weak
                      && MetaOf(r.value, "indicator_count") == Some(Count(IndicatorCount(df))))
    ensures df.columns <= PriceColumns ==> DataQualityWarning(df, config, now).Some?
  {
    if df.columns <= PriceColumns {
      assert df.columns - PriceColumns == {};
    }
  }
}
