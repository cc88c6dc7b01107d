/** The volatility interpreter: the close against the Bollinger bands and the
    last ATR against its 20-bar mean. */
module VolatilityInterpreter {
  import opened Common
  import opened Signals

  const TtlDays := 90

  const Indicators: set<string> := {"ATR_14", "BBL_20_2.0", "BBU_20_2.0"}

  function ClosePrice(df: Frame): Option<real>
    requires |df.rows| > 0
  {
    if "Close" in df.columns then Last(df, "Close") else None
  }

  /** `a <= b` on possibly NaN floats: false when either side is NaN. */
  predicate AtMost(a: Option<real>, b: Option<real>)
  {
    a.Some? && b.Some? && a.value <= b.value
  }

  /** A close at or below the lower band is oversold (BUY); otherwise a close
      at or above the upper band is overbought (SELL). The bands must be
      truthy (non-zero, NaN included) and the close present and non-zero. */
  function BollingerSignal(df: Frame, config: Config, now: int): Option<Signal>
    requires |df.rows| > 0
  {
    if !("BBL_20_2.0" in df.columns && "BBU_20_2.0" in df.columns && "Close" in df.columns) then None
    else
      var lower := Last(df, "BBL_20_2.0");
      var upper := Last(df, "BBU_20_2.0");
      var close := Last(df, "Close");
      if !(Truthy(lower) && Truthy(upper) && close.Some? && close.value != 0.0) then None
      else if AtMost(close, lower) then
        Some(Emit(config, Volatility, Buy, 0.65, Moderate, ClosePrice(df),
                  map["kind" := Text("bollinger_band"), "position" := Text("lower_band"),
                      "interpretation" := Text("oversold_potential_reversal")], now, TtlDays))
      else if AtMost(upper, close) then
        Some(Emit(config, Volatility, Sell, 0.65, Moderate, ClosePrice(df),
                  map["kind" := Text("bollinger_band"), "position" := Text("upper_band"),
                      "interpretation" := Text("overbought_pullback_likely")], now, TtlDays))
      else None
  }

  /** An ATR above 1.5 times its mean is a spike (ALERT, EXTREME); below 0.7
      times a contraction (ALERT, MODERATE). */
  function AtrSignal(df: Frame, config: Config, now: int): Option<Signal>
    requires |df.rows| > 0
  {
    var ratio := AtrRatio(df);
    if ratio.None? then None
    else if ratio.value > 1.5 then
      Some(Emit(config, Volatility, Alert, 0.7, Extreme, ClosePrice(df),
                map["kind" := Text("atr_spike"), "atr_ratio" := Number(ratio.value),
                    "interpretation" := Text("high_volatility_regime")], now, TtlDays))
    else if ratio.value < 0.7 then
      Some(Emit(config, Volatility, Alert, 0.6, Moderate, ClosePrice(df),
                map["kind" := Text("atr_contraction"), "atr_ratio" := Number(ratio.value),
                    "interpretation" := Text("low_volatility_breakout_warning")], now, TtlDays))
    else None
  }

  function InterpretSpec(df: Frame, config: Config, now: int): seq<Signal>
  {
    if Empty(df) || !UsesAny(config, Indicators) then []
    else Opt(BollingerSignal(df, config, now)) + Opt(AtrSignal(df, config, now))
  }

  method Interpret(df: Frame, config: Config, now: int) returns (signals: seq<Signal>)
    ensures signals == InterpretSpec(df, config, now)
  {
    signals := [];
    if Empty(df) {
      return;
    }
    if !UsesAny(config, Indicators) {
      return;
    }
    var bands := BollingerSignal(df, config, now);
    if bands.Some? {
      signals := signals + [bands.value];
    }
    var atr := AtrSignal(df, config, now);
    if atr.Some? {
      signals := signals + [atr.value];
    }
  }

  // ---------------------------------------------------------------------------

  function SignalKind(s: Signal): Option<MetaValue>
  {
    MetaOf(s, "kind")
  }

  /** Each rule emits a valid volatility signal carrying the closing price;
      band and ATR signals differ in kind. */
  lemma RulesWellFormed(df: Frame, config: Config, now: int)
    requires |df.rows| > 0
    ensures var r := BollingerSignal(df, config, now);
      r.Some? ==> (WellFormed([r.value], config, Volatility, now, TtlDays) && SignalKind(r.value) == Some(Text("bollinger_band"))
                   && r.value.price == ClosePrice(df))
    ensures var r := AtrSignal(df, config, now);
      r.Some? ==> (WellFormed([r.value], config, Volatility, now, TtlDays)
                   && (SignalKind(r.value) == Some(Text("atr_spike")) || SignalKind(r.value) == Some(Text("atr_contraction")))
                   && r.value.price == ClosePrice(df))
  {
    BollingerWellFormed(df, config, now);
    AtrWellFormed(df, config, now);
  }

  lemma BollingerWellFormed(df: Frame, config: Config, now: int)
    requires |df.rows| > 0
    ensures var r := BollingerSignal(df, config, now);
      r.Some? ==> (WellFormed([r.value], config, Volatility, now, TtlDays) && SignalKind(r.value) == Some(Text("bollinger_band"))
                   && r.value.price == ClosePrice(df))
  {
  }

  lemma AtrWellFormed(df: Frame, config: Config, now: int)
    requires |df.rows| > 0
    ensures var r := AtrSignal(df, config, now);
      r.Some? ==> (WellFormed([r.value], config, Volatility, now, TtlDays)
                   && (SignalKind(r.value) == Some(Text("atr_spike")) || SignalKind(r.value) == Some(Text("atr_contraction")))
                   && r.value.price == ClosePrice(df))
  {
  }

  /** An empty frame or a strategy without a volatility rule gives nothing;
      otherwise at most a band signal and an ATR signal, all valid volatility
      signals. */
  lemma InterpretProperties(df: Frame, config: Config, now: int)
    ensures var out := InterpretSpec(df, config, now);
      && (Empty(df) || !UsesAny(config, Indicators) ==> out == [])
      && WellFormed(out, config, Volatility, now, TtlDays)
      && |out| <= 2
      && DistinctBy(out, "kind")
  {
    if !Empty(df) && UsesAny(config, Indicators) {
      RulesWellFormed(df, config, now);
      CombineTwo(BollingerSignal(df, config, now), AtrSignal(df, config, now), config, Volatility, now, TtlDays,
                 "kind", {Some(Text("bollinger_band"))}, {Some(Text("atr_spike")), Some(Text("atr_contraction"))});
    }
  }

  /** The band rule: with truthy bands and a non-zero close, BUY exactly at or
      below the lower band, and SELL exactly at or above the upper band when
      not at or below the lower one. */
  lemma BollingerRule(df: Frame, config: Config, now: int)
    requires |df.rows| > 0
    ensures var r := BollingerSignal(df, config, now);
      var lower := Last(df, "BBL_20_2.0");
      var upper := Last(df, "BBU_20_2.0");
      var close := Last(df, "Close");
      && (r.Some? ==> r.value.confidence == 0.65 && r.value.strength == Moderate
                      && close.Some? && close.value != 0.0 && Truthy(lower) && Truthy(upper))
      && ("BBL_20_2.0" in df.columns && "BBU_20_2.0" in df.columns && "Close" in df.columns
          && Truthy(lower) && Truthy(upper) && close.Some? && close.value != 0.0 ==>
            && (r.Some? && r.value.signalType == Buy <==> lower.Some? && close.value <= lower.value)
            && (r.Some? && r.value.signalType == Sell <==>
                  !(lower.Some? && close.value <= lower.value) && upper.Some? && close.value >= upper.value))
  {
  }

  /** The ATR rule: a spike exactly above 1.5, a contraction exactly below 0.7,
      nothing in between or without a ratio. */
  lemma AtrRule(df: Frame, config: Config, now: int)
    requires |df.rows| > 0
    ensures var r := AtrSignal(df, config, now);
      var ratio := AtrRatio(df);
      && (r.Some? <==> ratio.Some? && (ratio.value > 1.5 || ratio.value < 0.7))
      && (r.Some? ==> r.value.signalType == Alert
                      && (SignalKind(r.value) == Some(Text("atr_spike")) <==> ratio.value > 1.5)
                      && (ratio.value > 1.5 ==> r.value.confidence == 0.7 && r.value.strength == Extreme)
                      && (ratio.value < 0.7 ==> r.value.confidence == 0.6 && r.value.strength == Moderate))
    ensures AtrRatio(df).Some? ==> |df.rows| >= 20 && "ATR_14" in df.columns
  {
  }
}
