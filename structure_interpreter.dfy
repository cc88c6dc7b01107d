/** The structure interpreter: fair value gaps on the last row, and breakouts
    through or approaches to the main resistance and support levels. */
module StructureInterpreter {
  import opened Common
  import opened Signals

  const TtlDays := 180

  const ZoneIndicators: set<string> := {
    "main_support", "main_resistance",
    "zone_support_1", "zone_support_2", "zone_support_3",
    "zone_resistance_1", "zone_resistance_2", "zone_resistance_3"}

  /** Some entry or exit rule names an indicator starting with `fvg_`. */
  predicate HasFvgRule(config: Config)
  {
    exists i :: 0 <= i < |config.indicators| && StartsWith(config.indicators[i], "fvg_")
  }

  function Num(v: Option<real>): MetaValue
  {
    if v.Some? then Number(v.value) else Null
  }

  /** A bullish gap (`fvg_type` 1) gives BUY, a bearish one (-1) SELL. */
  function FvgSignal(df: Frame, config: Config, now: int): Option<Signal>
    requires |df.rows| > 0
  {
    var t := Last(df, "fvg_type");
    if !(HasFvgRule(config) && "fvg_type" in df.columns) || t.None? then None
    else
      var values := map["kind" := Text("fair_value_gap"), "gap_size" := Num(Last(df, "fvg_size")),
                        "gap_start" := Num(Last(df, "fvg_start")), "gap_end" := Num(Last(df, "fvg_end"))];
      if t.value == 1.0 then
        Some(Emit(config, Structure, Buy, 0.7, Strong, Last(df, "Close"),
                  values["direction" := Text("bullish")], now, TtlDays))
      else if t.value == -1.0 then
        Some(Emit(config, Structure, Sell, 0.7, Strong, Last(df, "Close"),
                  values["direction" := Text("bearish")], now, TtlDays))
      else None
  }

  /** `abs(close - level) / level`; a level of 0 gives an infinite or NaN
      distance, which no threshold accepts (`None`). */
  function Distance(close: real, level: real): Option<real>
  {
    if level == 0.0 then None else Some(Abs(close - level) / level)
  }

  function ZoneMeta(kind: string, direction: string, zone: string, level: real): map<string, MetaValue>
  {
    map["kind" := Text(kind), "direction" := Text(direction), "zone_type" := Text(zone), "zone_value" := Number(level)]
  }

  /** A close more than 0.2% above the main resistance is an upward breakout
      (BUY); otherwise a close within 0.5% of it is an approach (ALERT). */
  function ResistanceSignal(df: Frame, config: Config, now: int): Option<Signal>
    requires |df.rows| > 0
  {
    var close := Last(df, "Close");
    var level := Last(df, "main_resistance");
    if !(UsesAny(config, ZoneIndicators) && "Close" in df.columns) || level.None? || close.None? then None
    else if close.value > level.value * 1.002 then
      Some(Emit(config, Structure, Buy, 0.8, Strong, close,
                ZoneMeta("breakout", "up", "main_resistance", level.value), now, TtlDays))
    else
      var dist := Distance(close.value, level.value);
      if dist.Some? && dist.value <= 0.005 then
        Some(Emit(config, Structure, Alert, 0.5, Moderate, close,
                  ZoneMeta("zone_proximity", "resistance_approach", "main_resistance", level.value)
                    ["distance_pct" := Number(dist.value * 100.0)], now, TtlDays))
      else None
  }

  /** A close more than 0.2% below the main support is a downward breakout
      (SELL); otherwise a close within 0.5% of it is an approach (ALERT). */
  function SupportSignal(df: Frame, config: Config, now: int): Option<Signal>
    requires |df.rows| > 0
  {
    var close := Last(df, "Close");
    var level := Last(df, "main_support");
    if !(UsesAny(config, ZoneIndicators) && "Close" in df.columns) || level.None? || close.None? then None
    else if close.value < level.value * 0.998 then
      Some(Emit(config, Structure, Sell, 0.8, Strong, close,
                ZoneMeta("breakout", "down", "main_support", level.value), now, TtlDays))
    else
      var dist := Distance(close.value, level.value);
      if dist.Some? && dist.value <= 0.005 then
        Some(Emit(config, Structure, Alert, 0.5, Moderate, close,
                  ZoneMeta("zone_proximity", "support_approach", "main_support", level.value)
                    ["distance_pct" := Number(dist.value * 100.0)], now, TtlDays))
      else None
  }

  function InterpretSpec(df: Frame, config: Config, now: int): seq<Signal>
  {
    if Empty(df) || !(HasFvgRule(config) || UsesAny(config, ZoneIndicators)) then []
    else Opt(FvgSignal(df, config, now)) + Opt(ResistanceSignal(df, config, now)) + Opt(SupportSignal(df, config, now))
  }

  method Interpret(df: Frame, config: Config, now: int) returns (signals: seq<Signal>)
    ensures signals == InterpretSpec(df, config, now)
  {
    signals := [];
    if Empty(df) {
      return;
    }
    if !HasFvgRule(config) && !UsesAny(config, ZoneIndicators) {
      return;
    }
    var fvg := FvgSignal(df, config, now);
    if fvg.Some? {
      signals := signals + [fvg.value];
    }
    var resistance := ResistanceSignal(df, config, now);
    if resistance.Some? {
      signals := signals + [resistance.value];
    }
    var support := SupportSignal(df, config, now);
    if support.Some? {
      signals := signals + [support.value];
    }
  }

  // ---------------------------------------------------------------------------

  /** Each rule emits a valid structure signal tagged with its zone (the gap
      rule carries no zone). */
  lemma RulesWellFormed(df: Frame, config: Config, now: int)
    requires |df.rows| > 0
    ensures var r := FvgSignal(df, config, now);
      r.Some? ==> WellFormed([r.value], config, Structure, now, TtlDays) && MetaOf(r.value, "zone_type") == None
    ensures var r := ResistanceSignal(df, config, now);
      r.Some? ==> WellFormed([r.value], config, Structure, now, TtlDays) && MetaOf(r.value, "zone_type") == Some(Text("main_resistance"))
    ensures var r := SupportSignal(df, config, now);
      r.Some? ==> WellFormed([r.value], config, Structure, now, TtlDays) && MetaOf(r.value, "zone_type") == Some(Text("main_support"))
  {
    FvgWellFormed(df, config, now);
    ResistanceWellFormed(df, config, now);
    SupportWellFormed(df, config, now);
  }

  lemma FvgWellFormed(df: Frame, config: Config, now: int)
    requires |df.rows| > 0
    ensures var r := FvgSignal(df, config, now);
      r.Some? ==> WellFormed([r.value], config, Structure, now, TtlDays) && MetaOf(r.value, "zone_type") == None
  {
  }

  lemma ResistanceWellFormed(df: Frame, config: Config, now: int)
    requires |df.rows| > 0
    ensures var r := ResistanceSignal(df, config, now);
      r.Some? ==> WellFormed([r.value], config, Structure, now, TtlDays) && MetaOf(r.value, "zone_type") == Some(Text("main_resistance"))
  {
  }

  lemma SupportWellFormed(df: Frame, config: Config, now: int)
    requires |df.rows| > 0
    ensures var r := SupportSignal(df, config, now);
      r.Some? ==> WellFormed([r.value], config, Structure, now, TtlDays) && MetaOf(r.value, "zone_type") == Some(Text("main_support"))
  {
  }

  /** An empty frame, or a strategy with neither gap nor zone rules, gives
      nothing; otherwise at most one signal per rule, all valid structure
      signals, at most one per zone. */
  lemma InterpretProperties(df: Frame, config: Config, now: int)
    ensures var out := InterpretSpec(df, config, now);
      && (Empty(df) || !(HasFvgRule(config) || UsesAny(config, ZoneIndicators)) ==> out == [])
      && WellFormed(out, config, Structure, now, TtlDays)
      && |out| <= 3
      && DistinctBy(out, "zone_type")
  {
    if !Empty(df) && (HasFvgRule(config) || UsesAny(config, ZoneIndicators)) {
      RulesWellFormed(df, config, now);
      CombineThree(FvgSignal(df, config, now), ResistanceSignal(df, config, now), SupportSignal(df, config, now),
                   config, Structure, now, TtlDays, "zone_type", {None}, {Some(Text("main_resistance"))}, {Some(Text("main_support"))});
    }
  }

  /** The gap rule fires exactly on a gap type of 1 or -1 (with a gap rule and
      the column present), BUY for 1 and SELL for -1, at confidence 0.7. */
  lemma FvgRule(df: Frame, config: Config, now: int)
    requires |df.rows| > 0
    ensures var r := FvgSignal(df, config, now);
      var t := Last(df, "fvg_type");
      && (r.Some? <==> HasFvgRule(config) && t.Some? && (t.value == 1.0 || t.value == -1.0))
      && (r.Some? ==> r.value.confidence == 0.7 && r.value.strength == Strong
                      && r.value.price == Last(df, "Close")
                      && (r.value.signalType == Buy <==> t.value == 1.0)
                      && (r.value.signalType == Sell <==> t.value == -1.0))
  {
  }

  /** Resistance: BUY exactly above 1.002 times the level; ALERT exactly when
      not above that but within 0.5% of a non-zero level. */
  lemma ResistanceRule(df: Frame, config: Config, now: int)
    requires |df.rows| > 0
    ensures var r := ResistanceSignal(df, config, now);
      var close := Last(df, "Close");
      var level := Last(df, "main_resistance");
      && (r.Some? ==> UsesAny(config, ZoneIndicators) && close.Some? && level.Some? && r.value.price == close)
      && (UsesAny(config, ZoneIndicators) && close.Some? && level.Some? ==>
            && (r.Some? && r.value.signalType == Buy <==> close.value > level.value * 1.002)
            && (r.Some? && r.value.signalType == Alert <==>
                  close.value <= level.value * 1.002 && level.value != 0.0
                  && Abs(close.value - level.value) / level.value <= 0.005))
      && (r.Some? && r.value.signalType == Buy ==> r.value.confidence == 0.8 && r.value.strength == Strong)
      && (r.Some? && r.value.signalType == Alert ==> r.value.confidence == 0.5 && r.value.strength == Moderate)
  {
  }

  /** Support: SELL exactly below 0.998 times the level; ALERT exactly when
      not below that but within 0.5% of a non-zero level. */
  lemma SupportRule(df: Frame, config: Config, now: int)
    requires |df.rows| > 0
    ensures var r := SupportSignal(df, config, now);
      var close := Last(df, "Close");
      var level := Last(df, "main_support");
      && (r.Some? ==> UsesAny(config, ZoneIndicators) && close.Some? && level.Some? && r.value.price == close)
      && (UsesAny(config, ZoneIndicators) && close.Some? && level.Some? ==>
            && (r.Some? && r.value.signalType == Sell <==> close.value < level.value * 0.998)
            && (r.Some? && r.value.signalType == Alert <==>
                  close.value >= level.value * 0.998 && level.value != 0.0
                  && Abs(close.value - level.value) / level.value <= 0.005))
      && (r.Some? && r.value.signalType == Sell ==> r.value.confidence == 0.8 && r.value.strength == Strong)
      && (r.Some? && r.value.signalType == Alert ==> r.value.confidence == 0.5 && r.value.strength == Moderate)
  {
  }

  /** An approach to a positive level lies within 0.5% of it on either side. */
  lemma ApproachIsNearLevel(close: real, level: real)
    requires level > 0.0
    requires Distance(close, level).Some? && Distance(close, level).value <= 0.005
    ensures level * 0.995 <= close <= level * 1.005
  {
    var d := Abs(close - level);
    assert d / level <= 0.005;
    assert d <= 0.005 * level by {
      assert d == (d / level) * level;
    }
  }
}
