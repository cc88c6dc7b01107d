/** Entities and adaptive configuration of the support/resistance engine
    (`BreakoutAnalyzer` in src/domain/etl/analyzers/breakout_analyzer.py). */
module BreakoutConfig {
  import opened Common

  /** One candle of the analysed series (the High / Low / Close columns). */
  datatype Bar = Bar(high: real, low: real, close: real)

  /** A zone's role; the source encodes it as the integer `type`. */
  datatype Side = Support | Resistance
  {
    function TypeCode(): (r: int)
      ensures r == -1 <==> this == Support
      ensures r == 1 <==> this == Resistance
    {
      match this
      case Support => -1
      case Resistance => 1
    }

    function Opposite(): (r: Side)
      ensures r != this
    {
      match this
      case Support => Resistance
      case Resistance => Support
    }
  }

  /** A support/resistance zone: active on candles x0..x1 (inclusive), built from
      `count` pivots; `isReversal` marks a role-reversal ("polarity") zone. */
  datatype Zone = Zone(side: Side, value: real, x0: int, x1: int, count: nat, isReversal: bool)

  /** The recognised timeframes; anything else is analysed as "unknown". */
  datatype Timeframe = S1 | M1 | M5 | M15 | H1 | H4 | D1 | W1 | MN1 | Unknown

  /** Band construction for the breakout scan. */
  datatype BandMode = Atr | Pct | OtherMode

  /** Constructor arguments as the caller passes them. */
  datatype RawParams = RawParams(
    timeframe: string,
    pivotWindow: nat,
    maxZones: nat,
    useCloseOnly: bool,
    confirmationCandles: int,
    bandMode: string,
    bandPct: real,
    bandAtrMult: real,
    mergeBreaksMinSep: int,
    minBandAbs: real,
    levelTolPct: real,
    hysteresisRatio: real,
    enablePolarity: bool,
    polarityCooldown: int,
    eternalPolarity: bool)

  /** The analyser's settings after the constructor's clamping. */
  datatype Params = Params(
    timeframe: Timeframe,
    pivotWindow: nat,
    maxZones: nat,
    useCloseOnly: bool,
    confirmationCandles: nat,
    bandMode: BandMode,
    bandPct: real,
    bandAtrMult: real,
    mergeBreaksMinSep: nat,
    minBandAbs: real,
    levelTolPct: real,
    hysteresisRatio: real,
    enablePolarity: bool,
    polarityCooldown: nat,
    eternalPolarity: bool)

  /** Python's `str.isspace` on ASCII: space, the controls 9-13 and the
      separators 28-31. */
  predicate IsSpace(c: char)
  {
    c == ' ' || 9 <= c as int <= 13 || 28 <= c as int <= 31
  }

  /** Python's `str.lower` on ASCII letters; other characters are kept. */
  function LowerChar(c: char): (r: char)
    ensures IsSpace(r) <==> IsSpace(c)
    ensures 'A' <= c <= 'Z' ==> r as int == c as int + 32
    ensures !('A' <= c <= 'Z') ==> r == c
  {
    if 'A' <= c <= 'Z' then (c as int + 32) as char else c
  }

  function Lower(s: string): (r: string)
    ensures |r| == |s|
    ensures forall i :: 0 <= i < |s| ==> r[i] == LowerChar(s[i])
  {
    seq(|s|, i requires 0 <= i < |s| => LowerChar(s[i]))
  }

  /** `str.lstrip()`: drops the leading whitespace. */
  function TrimLeft(s: string): (r: string)
    ensures r == [] || !IsSpace(r[0])
  {
    if |s| > 0 && IsSpace(s[0]) then TrimLeft(s[1..]) else s
  }

  /** `str.rstrip()`: drops the trailing whitespace. */
  function TrimRight(s: string): (r: string)
    ensures r == [] || !IsSpace(r[|r| - 1])
  {
    if |s| > 0 && IsSpace(s[|s| - 1]) then TrimRight(s[..|s| - 1]) else s
  }

  /** `str.strip()`. */
  function Strip(s: string): string
  {
    TrimRight(TrimLeft(s))
  }

  predicate AllSpace(s: string)
  {
    forall i :: 0 <= i < |s| ==> IsSpace(s[i])
  }

  const AllowedTimeframes: set<string> := {"1s", "1m", "5m", "15m", "1h", "4h", "1d", "1w", "1mn"}

  /** The name the analyser stores as `analysis_timeframe`. */
  function TimeframeName(tf: Timeframe): string
  {
    match tf
    case S1 => "1s"
    case M1 => "1m"
    case M5 => "5m"
    case M15 => "15m"
    case H1 => "1h"
    case H4 => "4h"
    case D1 => "1d"
    case W1 => "1w"
    case MN1 => "1mn"
    case Unknown => "unknown"
  }

  /** The timeframe argument stripped and lower-cased: one of the allowed names,
      otherwise "unknown". */
  function ParseTimeframe(s: string): (r: Timeframe)
    ensures r == Unknown <==> Lower(Strip(s)) !in AllowedTimeframes
    ensures TimeframeName(r) ==
      (if Lower(Strip(s)) in AllowedTimeframes then Lower(Strip(s)) else "unknown")
  {
    TimeframeNamed(Lower(Strip(s)))
  }

  function TimeframeNamed(t: string): (r: Timeframe)
    ensures r == Unknown <==> t !in AllowedTimeframes
    ensures TimeframeName(r) == (if t in AllowedTimeframes then t else "unknown")
  {
    if t == "1s" then S1
    else if t == "1m" then M1
    else if t == "5m" then M5
    else if t == "15m" then M15
    else if t == "1h" then H1
    else if t == "4h" then H4
    else if t == "1d" then D1
    else if t == "1w" then W1
    else if t == "1mn" then MN1
    else Unknown
  }

  /** An empty mode string falls back to "pct" before it is lower-cased and
      stripped; unrecognised modes are kept as a third mode that the scan treats
      like "pct". */
  function ParseBandMode(s: string): (r: BandMode)
    ensures r == Atr <==> (s != "" && Strip(Lower(s)) == "atr")
    ensures r == Pct <==> (s == "" || Strip(Lower(s)) == "pct")
  {
    BandModeNamed(Strip(Lower(if s == "" then "pct" else s)))
  }

  function BandModeNamed(m: string): (r: BandMode)
  {
    if m == "atr" then Atr
    else if m == "pct" then Pct
    else OtherMode
  }

  lemma TrimLeftPadded(p: string, s: string)
    requires AllSpace(p)
    ensures TrimLeft(p + s) == TrimLeft(s)
    decreases |p|
  {
    if p == [] {
      assert p + s == s;
    } else {
      assert (p + s)[0] == p[0];
      assert (p + s)[1..] == p[1..] + s;
      TrimLeftPadded(p[1..], s);
    }
  }

  lemma TrimRightPadded(s: string, p: string)
    requires AllSpace(p)
    ensures TrimRight(s + p) == TrimRight(s)
    decreases |p|
  {
    if p == [] {
      assert s + p == s;
    } else {
      assert (s + p)[|s + p| - 1] == p[|p| - 1];
      assert (s + p)[..|s + p| - 1] == s + p[..|p| - 1];
      TrimRightPadded(s, p[..|p| - 1]);
    }
  }

  lemma StripPadded(p1: string, s: string, p2: string)
    requires AllSpace(p1) && AllSpace(p2)
    requires s != [] && !IsSpace(s[0]) && !IsSpace(s[|s| - 1])
    ensures Strip(p1 + s + p2) == s
  {
    assert p1 + s + p2 == p1 + (s + p2);
    TrimLeftPadded(p1, s + p2);
    assert (s + p2)[0] == s[0];
    assert TrimLeft(s + p2) == s + p2;
    TrimRightPadded(s, p2);
  }

  lemma LowerConcat3(a: string, b: string, c: string)
    ensures Lower(a + b + c) == Lower(a) + Lower(b) + Lower(c)
  {
  }

  /** Surrounding whitespace never changes the parsed timeframe or band mode of
      a name that starts and ends with a non-space character. */
  lemma {:induction false} ParsePadded(p1: string, s: string, p2: string)
    requires AllSpace(p1) && AllSpace(p2)
    requires s != [] && !IsSpace(s[0]) && !IsSpace(s[|s| - 1])
    ensures ParseTimeframe(p1 + s + p2) == ParseTimeframe(s)
    ensures ParseBandMode(p1 + s + p2) == ParseBandMode(s)
  {
    StripPadded(p1, s, p2);
    StripPadded([], s, []);
    assert [] + s + [] == s;
    assert Lower(Strip(p1 + s + p2)) == Lower(Strip(s));
    var l1, ls, l2 := Lower(p1), Lower(s), Lower(p2);
    LowerConcat3(p1, s, p2);
    assert AllSpace(l1) && AllSpace(l2);
    StripPadded(l1, ls, l2);
    StripPadded([], ls, []);
    assert [] + ls + [] == ls;
    assert |p1 + s + p2| > 0;
    assert Strip(Lower(p1 + s + p2)) == Strip(Lower(s));
  }

  /** Names are matched after lower-casing: "1H" is the hourly timeframe,
      " 5m " the five-minute one, and "ATR " and "PCT" the two band modes,
      while a blank (not empty) mode is neither. */
  lemma NormalizedNames()
    ensures ParseTimeframe("1H") == H1
    ensures ParseTimeframe(" 5m ") == M5
    ensures ParseTimeframe("1MN\n") == MN1
    ensures ParseTimeframe("2h") == Unknown
    ensures ParseBandMode("ATR ") == Atr
    ensures ParseBandMode("PCT") == Pct
    ensures ParseBandMode("") == Pct
    ensures ParseBandMode("  ") == OtherMode
  {
    assert Lower("1H") == "1h";
    assert Lower(" 5m ") == " 5m ";
    assert Strip(" 5m ") == "5m";
    assert Strip("1MN\n") == "1MN";
    assert Lower("1MN") == "1mn";
    assert Lower("ATR ") == "atr ";
    assert Strip("atr ") == "atr";
    assert Lower("PCT") == "pct";
    assert Lower("  ") == "  ";
    assert Strip("  ") == "";
  }

  /** The constructor's normalisation of its arguments. */
  function NormalizeParams(raw: RawParams): (p: Params)
    ensures p.confirmationCandles >= 1
    ensures p.confirmationCandles == MaxInt(1, raw.confirmationCandles)
    ensures p.mergeBreaksMinSep == MaxInt(0, raw.mergeBreaksMinSep)
    ensures p.polarityCooldown == MaxInt(0, raw.polarityCooldown)
    ensures p.levelTolPct >= 0.0 && p.hysteresisRatio >= 0.0
    ensures raw.levelTolPct >= 0.0 ==> p.levelTolPct == raw.levelTolPct
    ensures raw.hysteresisRatio >= 0.0 ==> p.hysteresisRatio == raw.hysteresisRatio
    ensures p.timeframe == ParseTimeframe(raw.timeframe)
    ensures p.bandMode == ParseBandMode(raw.bandMode)
  {
    Params(
      ParseTimeframe(raw.timeframe),
      raw.pivotWindow,
      raw.maxZones,
      raw.useCloseOnly,
      MaxInt(1, raw.confirmationCandles),
      ParseBandMode(raw.bandMode),
      raw.bandPct,
      raw.bandAtrMult,
      MaxInt(0, raw.mergeBreaksMinSep),
      raw.minBandAbs,
      Max(0.0, raw.levelTolPct),
      Max(0.0, raw.hysteresisRatio),
      raw.enablePolarity,
      MaxInt(0, raw.polarityCooldown),
      raw.eternalPolarity)
  }

  /** Price-range profile: cluster width and break band in percent, and the
      minimum number of pivots a cluster needs to become a zone. */
  datatype TokenProfile = TokenProfile(clusterZonePct: real, breakZonePct: real, minPivots: nat)

  function TokenConfig(priceLevel: real): (r: TokenProfile)
    ensures priceLevel < 0.001 ==> r == TokenProfile(3.0, 2.0, 2)
    ensures 0.001 <= priceLevel < 1.0 ==> r == TokenProfile(2.0, 1.0, 2)
    ensures 1.0 <= priceLevel < 100.0 ==> r == TokenProfile(1.5, 1.0, 3)
    ensures 100.0 <= priceLevel ==> r == TokenProfile(1.0, 0.8, 3)
    ensures r.minPivots == (if priceLevel < 1.0 then 2 else 3)
  {
    if priceLevel < 0.001 then TokenProfile(3.0, 2.0, 2)
    else if priceLevel < 1.0 then TokenProfile(2.0, 1.0, 2)
    else if priceLevel < 100.0 then TokenProfile(1.5, 1.0, 3)
    else TokenProfile(1.0, 0.8, 3)
  }

  /** Timeframe adjustment of the confirmation count and the two band widths. */
  datatype TfProfile = TfProfile(confirm: nat, bandPct: real, bandAtrMult: real)

  /** The floors each timeframe group imposes, or None for an unknown timeframe. */
  function TfFloors(tf: Timeframe): Option<TfProfile>
  {
    match tf
    case S1 => Some(TfProfile(3, 0.25, 1.2))
    case M1 => Some(TfProfile(3, 0.25, 1.2))
    case M5 => Some(TfProfile(3, 0.25, 1.2))
    case M15 => Some(TfProfile(2, 0.20, 1.0))
    case H1 => Some(TfProfile(2, 0.20, 1.0))
    case H4 => Some(TfProfile(2, 0.15, 0.9))
    case D1 => Some(TfProfile(2, 0.15, 0.9))
    case W1 => Some(TfProfile(1, 0.10, 0.8))
    case MN1 => Some(TfProfile(1, 0.10, 0.8))
    case Unknown => None
  }

  function TfTuning(p: Params): (r: TfProfile)
    ensures r.confirm >= p.confirmationCandles
    ensures r.bandPct >= p.bandPct
    ensures r.bandAtrMult >= p.bandAtrMult
    ensures p.timeframe == Unknown ==>
      r == TfProfile(p.confirmationCandles, p.bandPct, p.bandAtrMult)
    ensures TfFloors(p.timeframe).Some? ==>
      var f := TfFloors(p.timeframe).value;
      r.confirm >= f.confirm && r.bandPct >= f.bandPct && r.bandAtrMult >= f.bandAtrMult
  {
    match TfFloors(p.timeframe)
    case None => TfProfile(p.confirmationCandles, p.bandPct, p.bandAtrMult)
    case Some(f) =>
      TfProfile(MaxInt(p.confirmationCandles, f.confirm) as nat,
                Max(p.bandPct, f.bandPct),
                Max(p.bandAtrMult, f.bandAtrMult))
  }

  /** Every zone covers a non-empty candle interval inside the series. */
  ghost predicate ValidZones(zones: seq<Zone>, n: int)
  {
    forall k :: 0 <= k < |zones| ==> 0 <= zones[k].x0 <= zones[k].x1 <= n - 1
  }
}
