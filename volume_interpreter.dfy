/** The volume interpreter: a volume spike against the 20-bar average volume
    and an on-balance-volume divergence between the last two rows. */
module VolumeInterpreter {
  import opened Common
  import opened Signals

  const TtlDays := 60

  const Indicators: set<string> := {"Volume", "SMA_20_VOL", "avg_volume", "OBV", "volume_spike"}

  /** The confidence of a spike of `m` times the average volume. */
  function SpikeConfidence(m: real): real
  {
    Max(0.6, Min(0.95, 0.5 + (m - 2.0) * 0.15))
  }

  /** More than twice the average volume on the last row is a spike (ALERT),
      EXTREME from four times the average. */
  function SpikeSignal(df: Frame, config: Config, now: int): Option<Signal>
    requires |df.rows| > 0
  {
    var avg := Last(df, "SMA_20_VOL");
    var current := Last(df, "Volume");
    if avg.None? || !(avg.value > 0.0) || current.None? then None
    else
      var m := current.value / avg.value;
      if m > 2.0 then
        Some(Emit(config, Volume, Alert, SpikeConfidence(m), if m >= 4.0 then Extreme else Strong,
                  Last(df, "Close"),
                  map["kind" := Text("volume_spike"), "multiplier" := Number(m),
                      "interpretation" := Text("unusual_volume_high_interest")], now, TtlDays))
      else None
  }

  /** Price up on falling OBV is weakness (SELL); price not up on rising OBV
      is hidden strength (BUY). */
  function ObvSignal(df: Frame, config: Config, now: int): Option<Signal>
    requires |df.rows| > 0
  {
    if !("OBV" in df.columns && |df.rows| >= 2 && "Close" in df.columns) then None
    else
      var obv := Last(df, "OBV");
      var obvPrev := Prev(df, "OBV");
      var price := Last(df, "Close");
      var pricePrev := Prev(df, "Close");
      if obv.None? || obvPrev.None? || price.None? || pricePrev.None? then None
      else
        var priceUp := price.value > pricePrev.value;
        var obvUp := obv.value > obvPrev.value;
        if priceUp && !obvUp then
          Some(Emit(config, Volume, Sell, 0.65, Moderate, price,
                    map["kind" := Text("obv_divergence"), "price_direction" := Text("up"),
                        "volume_direction" := Text("down"), "interpretation" := Text("up_move_on_weak_volume")],
                    now, TtlDays))
        else if !priceUp && obvUp then
          Some(Emit(config, Volume, Buy, 0.65, Moderate, price,
                    map["kind" := Text("obv_divergence"), "price_direction" := Text("down"),
                        "volume_direction" := Text("up"), "interpretation" := Text("down_move_on_strong_volume")],
                    now, TtlDays))
        else None
  }

  function InterpretSpec(df: Frame, config: Config, now: int): seq<Signal>
  {
    if Empty(df) || "Volume" !in df.columns || !UsesAny(config, Indicators) then []
    else Opt(SpikeSignal(df, config, now)) + Opt(ObvSignal(df, config, now))
  }

  method Interpret(df: Frame, config: Config, now: int) returns (signals: seq<Signal>)
    ensures signals == InterpretSpec(df, config, now)
  {
    signals := [];
    if Empty(df) || "Volume" !in df.columns {
      return;
    }
    if !UsesAny(config, Indicators) {
      return;
    }
    var spike := SpikeSignal(df, config, now);
    if spike.Some? {
      signals := signals + [spike.value];
    }
    var obv := ObvSignal(df, config, now);
    if obv.Some? {
      signals := signals + [obv.value];
    }
  }

  // ---------------------------------------------------------------------------

  /** A spike's confidence is in [0.6, 0.95] and never falls as the spike grows. */
  lemma SpikeConfidenceBounds(m: real, m': real)
    requires 2.0 < m <= m'
    ensures 0.6 <= SpikeConfidence(m) <= 0.95
    ensures SpikeConfidence(m) <= SpikeConfidence(m')
  {
  }

  lemma RulesWellFormed(df: Frame, config: Config, now: int)
    requires |df.rows| > 0
    ensures var r := SpikeSignal(df, config, now);
      r.Some? ==> WellFormed([r.value], config, Volume, now, TtlDays) && MetaOf(r.value, "kind") == Some(Text("volume_spike"))
    ensures var r := ObvSignal(df, config, now);
      r.Some? ==> WellFormed([r.value], config, Volume, now, TtlDays) && MetaOf(r.value, "kind") == Some(Text("obv_divergence"))
  {
    var r := SpikeSignal(df, config, now);
    if r.Some? {
      var m := Last(df, "Volume").value / Last(df, "SMA_20_VOL").value;
      SpikeConfidenceBounds(m, m);
    }
  }

  /** An empty frame, a frame without volume, or a strategy without a volume
      rule gives nothing; otherwise at most a spike and a divergence, all
      valid volume signals. */
  lemma InterpretProperties(df: Frame, config: Config, now: int)
    ensures var out := InterpretSpec(df, config, now);
      && (Empty(df) || "Volume" !in df.columns || !UsesAny(config, Indicators) ==> out == [])
      && WellFormed(out, config, Volume, now, TtlDays)
      && |out| <= 2
      && DistinctBy(out, "kind")
  {
    if !Empty(df) && "Volume" in df.columns && UsesAny(config, Indicators) {
      RulesWellFormed(df, config, now);
      CombineTwo(SpikeSignal(df, config, now), ObvSignal(df, config, now), config, Volume, now, TtlDays,
                 "kind", {Some(Text("volume_spike"))}, {Some(Text("obv_divergence"))});
    }
  }

  /** The spike rule fires exactly when the last volume exceeds twice a
      positive average, and is EXTREME exactly from four times. */
  lemma SpikeRule(df: Frame, config: Config, now: int)
    requires |df.rows| > 0
    ensures var r := SpikeSignal(df, config, now);
      var avg := Last(df, "SMA_20_VOL");
      var current := Last(df, "Volume");
      && (r.Some? <==> avg.Some? && avg.value > 0.0 && current.Some? && current.value > 2.0 * avg.value)
      && (r.Some? ==> r.value.signalType == Alert
                      && (r.value.strength == Extreme <==> current.value >= 4.0 * avg.value)
                      && (r.value.strength != Extreme ==> r.value.strength == Strong))
  {
    var avg := Last(df, "SMA_20_VOL");
    var current := Last(df, "Volume");
    if avg.Some? && avg.value > 0.0 && current.Some? {
      RatioThresholds(current.value, avg.value, 2.0);
      RatioThresholds(current.value, avg.value, 4.0);
    }
  }

  /** The divergence rule needs two rows and four present values; the price
      rising while OBV does not gives SELL, the price not rising while OBV
      rises gives BUY, any other pair nothing. */
  lemma ObvRule(df: Frame, config: Config, now: int)
    requires |df.rows| > 0
    ensures var r := ObvSignal(df, config, now);
      && (r.Some? ==> |df.rows| >= 2 && r.value.confidence == 0.65 && r.value.strength == Moderate)
      && (|df.rows| >= 2 ==>
            var obv := Last(df, "OBV");
            var obvPrev := Prev(df, "OBV");
            var price := Last(df, "Close");
            var pricePrev := Prev(df, "Close");
            && (r.Some? ==> obv.Some? && obvPrev.Some? && price.Some? && pricePrev.Some?)
            && (obv.Some? && obvPrev.Some? && price.Some? && pricePrev.Some? ==>
                  && (r.Some? && r.value.signalType == Sell <==> price.value > pricePrev.value && obv.value <= obvPrev.value)
                  && (r.Some? && r.value.signalType == Buy <==> price.value <= pricePrev.value && obv.value > obvPrev.value)))
  {
  }
}
