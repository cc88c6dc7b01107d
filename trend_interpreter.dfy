/** The trend interpreter: the EMA 5 / EMA 8 cross, ADX trend strength and a
    custom trend flag, all read from the last one or two rows. */
module TrendInterpreter {
  import opened Common
  import opened Signals

  const TtlDays := 180

  const Indicators: set<string> := {"EMA_5", "EMA_8", "ADX_14", "DMP_14", "DMN_14", "trend_signal"}

  /** The closing price every trend signal carries. */
  function ClosePrice(df: Frame): Option<real>
    requires |df.rows| > 0
  {
    if "Close" in df.columns then Last(df, "Close") else None
  }

  /** EMA 5 crossing above EMA 8 is a golden cross (BUY), below a death cross (SELL). */
  function EmaCrossSignal(df: Frame, config: Config, now: int): Option<Signal>
    requires |df.rows| > 0
  {
    if !("EMA_5" in df.columns && "EMA_8" in df.columns && |df.rows| >= 2) then None
    else
      var fast := Last(df, "EMA_5");
      var slow := Last(df, "EMA_8");
      var fastPrev := Prev(df, "EMA_5");
      var slowPrev := Prev(df, "EMA_8");
      if fast.None? || slow.None? || fastPrev.None? || slowPrev.None? then None
      else if fast.value > slow.value && fastPrev.value <= slowPrev.value then
        Some(Emit(config, Trend, Buy, 0.8, Moderate, ClosePrice(df),
                  map["kind" := Text("ema_cross"), "pair" := Text("5_8"), "direction" := Text("golden")], now, TtlDays))
      else if fast.value < slow.value && fastPrev.value >= slowPrev.value then
        Some(Emit(config, Trend, Sell, 0.8, Moderate, ClosePrice(df),
                  map["kind" := Text("ema_cross"), "pair" := Text("5_8"), "direction" := Text("death")], now, TtlDays))
      else None
  }

  /** `latest.get(col, 0)`: 0 for a missing column, `None` for NaN. */
  function DirectionalValue(df: Frame, col: string): Option<real>
    requires |df.rows| > 0
  {
    if col in df.columns then Last(df, col) else Some(0.0)
  }

  /** The trend is bullish when +DI exceeds -DI; a NaN on either side compares
      false and reads as bearish. */
  predicate Bullish(df: Frame)
    requires |df.rows| > 0
  {
    var dmp := DirectionalValue(df, "DMP_14");
    var dmn := DirectionalValue(df, "DMN_14");
    dmp.Some? && dmn.Some? && dmp.value > dmn.value
  }

  /** ADX above 25 is a trending market (ALERT), STRONG above 40. */
  function AdxSignal(df: Frame, config: Config, now: int): Option<Signal>
    requires |df.rows| > 0
  {
    var adx := Last(df, "ADX_14");
    if adx.None? || !(adx.value > 25.0) then None
    else
      Some(Emit(config, Trend, Alert, if adx.value > 40.0 then 0.7 else 0.6,
                if adx.value > 40.0 then Strong else Moderate, ClosePrice(df),
                map["kind" := Text("trend_strength"), "adx" := Number(adx.value),
                    "direction" := Text(if Bullish(df) then "bullish" else "bearish")], now, TtlDays))
  }

  /** A custom trend flag of 1 confirms an uptrend (BUY), -1 a downtrend (SELL). */
  function CustomTrendSignal(df: Frame, config: Config, now: int): Option<Signal>
    requires |df.rows| > 0
  {
    var t := Last(df, "trend_signal");
    if t.None? then None
    else if t.value == 1.0 then
      Some(Emit(config, Trend, Buy, 0.85, Strong, ClosePrice(df),
                map["kind" := Text("custom_trend"), "direction" := Text("bullish"),
                    "signal" := Text("uptrend_confirmed")], now, TtlDays))
    else if t.value == -1.0 then
      Some(Emit(config, Trend, Sell, 0.85, Strong, ClosePrice(df),
                map["kind" := Text("custom_trend"), "direction" := Text("bearish"),
                    "signal" := Text("downtrend_confirmed")], now, TtlDays))
    else None
  }

  function InterpretSpec(df: Frame, config: Config, now: int): seq<Signal>
  {
    if Empty(df) || !UsesAny(config, Indicators) then []
    else Opt(EmaCrossSignal(df, config, now)) + Opt(AdxSignal(df, config, now)) + Opt(CustomTrendSignal(df, config, now))
  }

  method Interpret(df: Frame, config: Config, now: int) returns (signals: seq<Signal>)
    ensures signals == InterpretSpec(df, config, now)
  {
    signals := [];
    if Empty(df) {
      return;
    }
    if !UsesAny(config, Indicators) {
      return;
    }
    var cross := EmaCrossSignal(df, config, now);
    if cross.Some? {
      signals := signals + [cross.value];
    }
    var adx := AdxSignal(df, config, now);
    if adx.Some? {
      signals := signals + [adx.value];
    }
    var custom := CustomTrendSignal(df, config, now);
    if custom.Some? {
      signals := signals + [custom.value];
    }
  }

  // ---------------------------------------------------------------------------

  /** Each rule emits a valid trend signal carrying the closing price. */
  lemma RulesWellFormed(df: Frame, config: Config, now: int)
    requires |df.rows| > 0
    ensures var r := EmaCrossSignal(df, config, now);
      r.Some? ==> (WellFormed([r.value], config, Trend, now, TtlDays) && MetaOf(r.value, "kind") == Some(Text("ema_cross"))
                   && r.value.price == ClosePrice(df))
    ensures var r := AdxSignal(df, config, now);
      r.Some? ==> (WellFormed([r.value], config, Trend, now, TtlDays) && MetaOf(r.value, "kind") == Some(Text("trend_strength"))
                   && r.value.price == ClosePrice(df))
    ensures var r := CustomTrendSignal(df, config, now);
      r.Some? ==> (WellFormed([r.value], config, Trend, now, TtlDays) && MetaOf(r.value, "kind") == Some(Text("custom_trend"))
                   && r.value.price == ClosePrice(df))
  {
    EmaCrossWellFormed(df, config, now);
    AdxWellFormed(df, config, now);
    CustomTrendWellFormed(df, config, now);
  }

  lemma EmaCrossWellFormed(df: Frame, config: Config, now: int)
    requires |df.rows| > 0
    ensures var r := EmaCrossSignal(df, config, now);
      r.Some? ==> (WellFormed([r.value], config, Trend, now, TtlDays) && MetaOf(r.value, "kind") == Some(Text("ema_cross"))
                   && r.value.price == ClosePrice(df))
  {
  }

  lemma AdxWellFormed(df: Frame, config: Config, now: int)
    requires |df.rows| > 0
    ensures var r := AdxSignal(df, config, now);
      r.Some? ==> (WellFormed([r.value], config, Trend, now, TtlDays) && MetaOf(r.value, "kind") == Some(Text("trend_strength"))
                   && r.value.price == ClosePrice(df))
  {
  }

  lemma CustomTrendWellFormed(df: Frame, config: Config, now: int)
    requires |df.rows| > 0
    ensures var r := CustomTrendSignal(df, config, now);
      r.Some? ==> (WellFormed([r.value], config, Trend, now, TtlDays) && MetaOf(r.value, "kind") == Some(Text("custom_trend"))
                   && r.value.price == ClosePrice(df))
  {
  }

  /** An empty frame or a strategy without a trend rule gives nothing;
      otherwise at most one signal per rule, all valid trend signals. */
  lemma InterpretProperties(df: Frame, config: Config, now: int)
    ensures var out := InterpretSpec(df, config, now);
      && (Empty(df) || !UsesAny(config, Indicators) ==> out == [])
      && WellFormed(out, config, Trend, now, TtlDays)
      && |out| <= 3
      && DistinctBy(out, "kind")
  {
    if !Empty(df) && UsesAny(config, Indicators) {
      RulesWellFormed(df, config, now);
      CombineThree(EmaCrossSignal(df, config, now), AdxSignal(df, config, now), CustomTrendSignal(df, config, now),
                   config, Trend, now, TtlDays, "kind", {Some(Text("ema_cross"))}, {Some(Text("trend_strength"))}, {Some(Text("custom_trend"))});
    }
  }

  /** The EMA rule: a golden cross gives BUY and a death cross SELL, both
      0.8 MODERATE; it needs two rows and four present values. */
  lemma EmaCrossRule(df: Frame, config: Config, now: int)
    requires |df.rows| > 0
    ensures var r := EmaCrossSignal(df, config, now);
      && (r.Some? ==> |df.rows| >= 2 && r.value.confidence == 0.8 && r.value.strength == Moderate)
      && (|df.rows| >= 2 ==>
            var fast := Last(df, "EMA_5");
            var slow := Last(df, "EMA_8");
            var fastPrev := Prev(df, "EMA_5");
            var slowPrev := Prev(df, "EMA_8");
            && (r.Some? ==> fast.Some? && slow.Some? && fastPrev.Some? && slowPrev.Some?)
            && (fast.Some? && slow.Some? && fastPrev.Some? && slowPrev.Some? ==>
                  && (r.Some? && r.value.signalType == Buy <==> fast.value > slow.value && fastPrev.value <= slowPrev.value)
                  && (r.Some? && r.value.signalType == Sell <==> fast.value < slow.value && fastPrev.value >= slowPrev.value)))
  {
  }

  /** The ADX rule fires exactly above 25, at 0.7 STRONG above 40 and 0.6
      MODERATE otherwise, and reports bullish exactly when +DI exceeds -DI. */
  lemma AdxRule(df: Frame, config: Config, now: int)
    requires |df.rows| > 0
    ensures var r := AdxSignal(df, config, now);
      var adx := Last(df, "ADX_14");
      && (r.Some? <==> adx.Some? && adx.value > 25.0)
      && (r.Some? ==> r.value.signalType == Alert
                      && r.value.confidence == (if adx.value > 40.0 then 0.7 else 0.6)
                      && r.value.strength == (if adx.value > 40.0 then Strong else Moderate)
                      && (MetaOf(r.value, "direction") == Some(Text("bullish")) <==> Bullish(df)))
    ensures "DMP_14" !in df.columns && "DMN_14" !in df.columns ==> !Bullish(df)
  {
  }

  /** The custom flag: 1 gives BUY and -1 SELL, at 0.85 STRONG; any other
      value nothing. */
  lemma CustomTrendRule(df: Frame, config: Config, now: int)
    requires |df.rows| > 0
    ensures var r := CustomTrendSignal(df, config, now);
      var t := Last(df, "trend_signal");
      && (r.Some? <==> t.Some? && (t.value == 1.0 || t.value == -1.0))
      && (r.Some? ==> r.value.confidence == 0.85 && r.value.strength == Strong
                      && (r.value.signalType == Buy <==> t.value == 1.0)
                      && (r.value.signalType == Sell <==> t.value == -1.0))
  {
  }
}
