/** The momentum interpreter: RSI, MACD, Williams %R and stochastic RSI
    thresholds on the last one or two rows, at most one signal per indicator. */
module MomentumInterpreter {
  import opened Common
  import opened Signals

  const TtlDays := 180

  const Indicators: set<string> := {"RSI_14", "MACD_12_26_9", "MACDs_12_26_9", "WILLR_14", "STOCHRSIk_14_14_3_3"}

  function Meta(indicator: string, tag: string, tagValue: string, values: map<string, MetaValue>): map<string, MetaValue>
  {
    values["kind" := Text("momentum")]["indicator" := Text(indicator)][tag := Text(tagValue)]
  }

  /** RSI below 30 is oversold (BUY), above 70 overbought (SELL). */
  function RsiSignal(df: Frame, config: Config, now: int): Option<Signal>
    requires |df.rows| > 0
  {
    var rsi := Last(df, "RSI_14");
    if rsi.None? then None
    else if rsi.value < 30.0 then
      Some(Emit(config, Momentum, Buy, Min(1.0, (30.0 - rsi.value) / 30.0),
                if rsi.value < 20.0 then Strong else Moderate, Last(df, "Close"),
                Meta("RSI_14", "condition", "oversold", map["value" := Number(rsi.value)]), now, TtlDays))
    else if rsi.value > 70.0 then
      Some(Emit(config, Momentum, Sell, Min(1.0, (rsi.value - 70.0) / 30.0),
                if rsi.value > 80.0 then Strong else Moderate, Last(df, "Close"),
                Meta("RSI_14", "condition", "overbought", map["value" := Number(rsi.value)]), now, TtlDays))
    else None
  }

  /** The MACD line crossing its signal line between the last two rows. */
  function MacdSignal(df: Frame, config: Config, now: int): Option<Signal>
    requires |df.rows| > 0
  {
    if !("MACD_12_26_9" in df.columns && "MACDs_12_26_9" in df.columns && |df.rows| >= 2) then None
    else
      var m := Last(df, "MACD_12_26_9");
      var s := Last(df, "MACDs_12_26_9");
      var mp := Prev(df, "MACD_12_26_9");
      var sp := Prev(df, "MACDs_12_26_9");
      if m.None? || s.None? || mp.None? || sp.None? then None
      else
        var values := map["macd" := Number(m.value), "signal" := Number(s.value)];
        if m.value > s.value && mp.value <= sp.value then
          Some(Emit(config, Momentum, Buy, 0.75, Strong, Last(df, "Close"),
                    Meta("MACD", "event", "bullish_cross", values), now, TtlDays))
        else if m.value < s.value && mp.value >= sp.value then
          Some(Emit(config, Momentum, Sell, 0.75, Strong, Last(df, "Close"),
                    Meta("MACD", "event", "bearish_cross", values), now, TtlDays))
        else None
  }

  /** Williams %R below -80 (BUY) or above -20 (SELL). */
  function WillrSignal(df: Frame, config: Config, now: int): Option<Signal>
    requires |df.rows| > 0
  {
    var w := Last(df, "WILLR_14");
    if w.None? then None
    else if w.value < -80.0 then
      Some(Emit(config, Momentum, Buy, 0.5, Weak, Last(df, "Close"),
                Meta("WILLR_14", "condition", "oversold", map["value" := Number(w.value)]), now, TtlDays))
    else if w.value > -20.0 then
      Some(Emit(config, Momentum, Sell, 0.5, Weak, Last(df, "Close"),
                Meta("WILLR_14", "condition", "overbought", map["value" := Number(w.value)]), now, TtlDays))
    else None
  }

  /** Stochastic RSI %K below 0.2 (BUY) or above 0.8 (SELL). */
  function StochSignal(df: Frame, config: Config, now: int): Option<Signal>
    requires |df.rows| > 0
  {
    var k := Last(df, "STOCHRSIk_14_14_3_3");
    if k.None? then None
    else if k.value < 0.2 then
      Some(Emit(config, Momentum, Buy, 0.55, Weak, Last(df, "Close"),
                Meta("STOCHRSIk_14_14_3_3", "condition", "oversold", map["value" := Number(k.value)]), now, TtlDays))
    else if k.value > 0.8 then
      Some(Emit(config, Momentum, Sell, 0.55, Weak, Last(df, "Close"),
                Meta("STOCHRSIk_14_14_3_3", "condition", "overbought", map["value" := Number(k.value)]), now, TtlDays))
    else None
  }

  function InterpretSpec(df: Frame, config: Config, now: int): seq<Signal>
  {
    if Empty(df) || !UsesAny(config, Indicators) then []
    else Opt(RsiSignal(df, config, now)) + Opt(MacdSignal(df, config, now))
         + Opt(WillrSignal(df, config, now)) + Opt(StochSignal(df, config, now))
  }

  method Interpret(df: Frame, config: Config, now: int) returns (signals: seq<Signal>)
    ensures signals == InterpretSpec(df, config, now)
  {
    signals := [];
    if Empty(df) {
      return;
    }
    if !UsesAny(config, Indicators) {
      return;
    }
    var rsi := RsiSignal(df, config, now);
    if rsi.Some? {
      signals := signals + [rsi.value];
    }
    var macd := MacdSignal(df, config, now);
    if macd.Some? {
      signals := signals + [macd.value];
    }
    var willr := WillrSignal(df, config, now);
    if willr.Some? {
      signals := signals + [willr.value];
    }
    var stoch := StochSignal(df, config, now);
    if stoch.Some? {
      signals := signals + [stoch.value];
    }
  }

  // ---------------------------------------------------------------------------

  /** Each rule emits a valid momentum signal tagged with its indicator. */
  lemma RulesWellFormed(df: Frame, config: Config, now: int)
    requires |df.rows| > 0
    ensures var r := RsiSignal(df, config, now);
      r.Some? ==> WellFormed([r.value], config, Momentum, now, TtlDays) && MetaOf(r.value, "indicator") == Some(Text("RSI_14"))
    ensures var r := MacdSignal(df, config, now);
      r.Some? ==> WellFormed([r.value], config, Momentum, now, TtlDays) && MetaOf(r.value, "indicator") == Some(Text("MACD"))
    ensures var r := WillrSignal(df, config, now);
      r.Some? ==> WellFormed([r.value], config, Momentum, now, TtlDays) && MetaOf(r.value, "indicator") == Some(Text("WILLR_14"))
    ensures var r := StochSignal(df, config, now);
      r.Some? ==> WellFormed([r.value], config, Momentum, now, TtlDays) && MetaOf(r.value, "indicator") == Some(Text("STOCHRSIk_14_14_3_3"))
  {
    RsiWellFormed(df, config, now);
    MacdWellFormed(df, config, now);
    WillrWellFormed(df, config, now);
    StochWellFormed(df, config, now);
  }

  lemma RsiWellFormed(df: Frame, config: Config, now: int)
    requires |df.rows| > 0
    ensures var r := RsiSignal(df, config, now);
      r.Some? ==> WellFormed([r.value], config, Momentum, now, TtlDays) && MetaOf(r.value, "indicator") == Some(Text("RSI_14"))
  {
  }

  lemma MacdWellFormed(df: Frame, config: Config, now: int)
    requires |df.rows| > 0
    ensures var r := MacdSignal(df, config, now);
      r.Some? ==> WellFormed([r.value], config, Momentum, now, TtlDays) && MetaOf(r.value, "indicator") == Some(Text("MACD"))
  {
  }

  lemma WillrWellFormed(df: Frame, config: Config, now: int)
    requires |df.rows| > 0
    ensures var r := WillrSignal(df, config, now);
      r.Some? ==> WellFormed([r.value], config, Momentum, now, TtlDays) && MetaOf(r.value, "indicator") == Some(Text("WILLR_14"))
  {
  }

  lemma StochWellFormed(df: Frame, config: Config, now: int)
    requires |df.rows| > 0
    ensures var r := StochSignal(df, config, now);
      r.Some? ==> WellFormed([r.value], config, Momentum, now, TtlDays) && MetaOf(r.value, "indicator") == Some(Text("STOCHRSIk_14_14_3_3"))
  {
  }

  /** An empty frame, or a strategy without a momentum rule, gives nothing;
      otherwise every signal is valid, from the momentum source, and no two
      signals come from the same indicator. */
  lemma InterpretProperties(df: Frame, config: Config, now: int)
    ensures var out := InterpretSpec(df, config, now);
      && (Empty(df) || !UsesAny(config, Indicators) ==> out == [])
      && WellFormed(out, config, Momentum, now, TtlDays)
      && |out| <= 4
      && DistinctBy(out, "indicator")
  {
    if !Empty(df) && UsesAny(config, Indicators) {
      RulesWellFormed(df, config, now);
      CombineFour(RsiSignal(df, config, now), MacdSignal(df, config, now), WillrSignal(df, config, now),
                  StochSignal(df, config, now), config, Momentum, now, TtlDays, "indicator",
                  {Some(Text("RSI_14"))}, {Some(Text("MACD"))}, {Some(Text("WILLR_14"))}, {Some(Text("STOCHRSIk_14_14_3_3"))});
    }
  }

  /** RSI: oversold below 30 gives BUY with confidence min(1, (30 - RSI)/30),
      STRONG below 20; overbought above 70 gives SELL with confidence
      min(1, (RSI - 70)/30), STRONG above 80; [30, 70] gives nothing. */
  lemma RsiRule(df: Frame, config: Config, now: int)
    requires |df.rows| > 0
    ensures var r := RsiSignal(df, config, now);
      var v := Last(df, "RSI_14");
      && (r.Some? <==> v.Some? && (v.value < 30.0 || v.value > 70.0))
      && (r.Some? && v.value < 30.0 ==>
            r.value.signalType == Buy && r.value.confidence == Min(1.0, (30.0 - v.value) / 30.0)
            && r.value.strength == (if v.value < 20.0 then Strong else Moderate))
      && (r.Some? && v.value > 70.0 ==>
            r.value.signalType == Sell && r.value.confidence == Min(1.0, (v.value - 70.0) / 30.0)
            && r.value.strength == (if v.value > 80.0 then Strong else Moderate))
  {
  }

  /** MACD: a cross above the signal line gives BUY 0.75 STRONG, a cross below
      gives SELL; it needs two rows and four non-NaN values. */
  lemma MacdRule(df: Frame, config: Config, now: int)
    requires |df.rows| > 0
    ensures var r := MacdSignal(df, config, now);
      && (r.Some? ==> |df.rows| >= 2 && r.value.confidence == 0.75 && r.value.strength == Strong)
      && (|df.rows| >= 2 ==>
            var m := Last(df, "MACD_12_26_9");
            var s := Last(df, "MACDs_12_26_9");
            var mp := Prev(df, "MACD_12_26_9");
            var sp := Prev(df, "MACDs_12_26_9");
            && (r.Some? ==> m.Some? && s.Some? && mp.Some? && sp.Some?)
            && (m.Some? && s.Some? && mp.Some? && sp.Some? ==>
                  && (r.Some? && r.value.signalType == Buy <==> m.value > s.value && mp.value <= sp.value)
                  && (r.Some? && r.value.signalType == Sell <==> m.value < s.value && mp.value >= sp.value)))
  {
  }

  /** Williams %R below -80 gives BUY 0.5 WEAK, above -20 SELL 0.5 WEAK;
      stochastic RSI below 0.2 gives BUY 0.55 WEAK, above 0.8 SELL. */
  lemma OscillatorRules(df: Frame, config: Config, now: int)
    requires |df.rows| > 0
    ensures var r := WillrSignal(df, config, now);
      var w := Last(df, "WILLR_14");
      && (r.Some? <==> w.Some? && (w.value < -80.0 || w.value > -20.0))
      && (r.Some? ==> r.value.confidence == 0.5 && r.value.strength == Weak
                      && (r.value.signalType == Buy <==> w.value < -80.0)
                      && (r.value.signalType == Sell <==> w.value > -20.0))
    ensures var r := StochSignal(df, config, now);
      var k := Last(df, "STOCHRSIk_14_14_3_3");
      && (r.Some? <==> k.Some? && (k.value < 0.2 || k.value > 0.8))
      && (r.Some? ==> r.value.confidence == 0.55 && r.value.strength == Weak
                      && (r.value.signalType == Buy <==> k.value < 0.2)
                      && (r.value.signalType == Sell <==> k.value > 0.8))
  {
  }
}
