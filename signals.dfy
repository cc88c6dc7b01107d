/** Trading signals, the indicator frame the interpreters read, and the parts
    of a strategy configuration they consult. */
module Signals {
  import opened Common

  datatype SignalType = Buy | Sell | Exit | Hold | Alert
  datatype Strength = Weak | Moderate | Strong | Extreme
  datatype Source = Momentum | Volatility | Volume | Risk | Structure | Trend

  function TypeValue(t: SignalType): string
  {
    match t
    case Buy => "buy"
    case Sell => "sell"
    case Exit => "exit"
    case Hold => "hold"
    case Alert => "alert"
  }

  function SourceValue(s: Source): string
  {
    match s
    case Momentum => "momentum"
    case Volatility => "volatility"
    case Volume => "volume"
    case Risk => "risk"
    case Structure => "structure"
    case Trend => "trend"
  }

  /** A value of a signal's `meta` dictionary. */
  datatype MetaValue = Text(string) | Number(real) | Flag(bool) | Count(int) | Null

  /** A signal. Times (`expiresAt`) are seconds on the caller's clock; the
      optional id and the creation time are not modelled. */
  datatype Signal = Signal(
    symbol: string,
    source: Source,
    signalType: SignalType,
    confidence: real,
    strength: Strength,
    price: Option<real>,
    targetPrice: Option<real>,
    stopLoss: Option<real>,
    meta: Option<map<string, MetaValue>>,
    expiresAt: Option<int>)

  /** The field constraint on signals: a confidence in [0, 1]. */
  predicate ValidSignal(s: Signal)
  {
    0.0 <= s.confidence <= 1.0
  }

  const Day := 86400

  /** An indicator frame: its column names and one row per candle; a cell
      absent from a row is NaN. */
  datatype Frame = Frame(columns: set<string>, rows: seq<map<string, real>>)

  /** `df.empty`: no rows or no columns. */
  predicate Empty(df: Frame)
  {
    |df.rows| == 0 || df.columns == {}
  }

  /** The cell of column `col` in row `i`: `None` for a missing column or NaN. */
  function Cell(df: Frame, i: nat, col: string): Option<real>
    requires i < |df.rows|
  {
    if col in df.columns && col in df.rows[i] then Some(df.rows[i][col]) else None
  }

  /** `df.iloc[-1].get(col)`. */
  function Last(df: Frame, col: string): Option<real>
    requires |df.rows| > 0
  {
    Cell(df, |df.rows| - 1, col)
  }

  /** `df.iloc[-2].get(col)`. */
  function Prev(df: Frame, col: string): Option<real>
    requires |df.rows| > 1
  {
    Cell(df, |df.rows| - 2, col)
  }

  /** The non-NaN values of `col` in rows [from, n). */
  function PresentFrom(df: Frame, col: string, from: nat): (r: seq<real>)
    requires from <= |df.rows|
    ensures |r| <= |df.rows| - from
    decreases |df.rows| - from
  {
    if from == |df.rows| then []
    else (if Cell(df, from, col).Some? then [Cell(df, from, col).value] else []) + PresentFrom(df, col, from + 1)
  }

  /** `df[col].tail(k).mean()`: the mean of the non-NaN values among the
      last `k` rows, NaN (`None`) when there is none. */
  function TailMean(df: Frame, col: string, k: nat): Option<real>
  {
    var from := if |df.rows| >= k then |df.rows| - k else 0;
    var vs := PresentFrom(df, col, from);
    if vs == [] then None else Some(Mean(vs))
  }

  /** Python truthiness of a float cell: NaN is true, 0.0 is false. */
  predicate Truthy(v: Option<real>)
  {
    v.None? || v.value != 0.0
  }

  /** The last ATR over the mean of the last 20 ATR values, when the frame has
      the column and at least 20 rows and both values are present and
      non-zero (Python truthiness). */
  function AtrRatio(df: Frame): Option<real>
    requires |df.rows| > 0
  {
    if !("ATR_14" in df.columns && |df.rows| >= 20) then None
    else
      var current := Last(df, "ATR_14");
      var avg := TailMean(df, "ATR_14", 20);
      if current.Some? && current.value != 0.0 && avg.Some? && avg.value != 0.0 then Some(current.value / avg.value)
      else None
  }

  /** What the interpreters read from a strategy configuration: the symbol,
      the strategy name, the indicators named by its entry and exit rules, and
      its stop-loss and take-profit settings. */
  datatype Config = Config(
    symbol: string,
    strategyName: string,
    indicators: seq<string>,
    stopLossPct: Option<real>,
    takeProfitPct: Option<real>)

  /** Some entry or exit rule names an indicator in `names`. */
  predicate UsesAny(config: Config, names: set<string>)
  {
    exists i :: 0 <= i < |config.indicators| && config.indicators[i] in names
  }

  /** A signal as the interpreters build it: no target or stop, expiring
      `ttlDays` after `now`, with the strategy name in its meta. */
  function Emit(config: Config, source: Source, t: SignalType, confidence: real, strength: Strength,
                price: Option<real>, meta: map<string, MetaValue>, now: int, ttlDays: int): Signal
  {
    Signal(config.symbol, source, t, confidence, strength, price, None, None,
           Some(meta["strategy_name" := Text(config.strategyName)]), Some(now + ttlDays * Day))
  }

  function Opt(o: Option<Signal>): seq<Signal>
  {
    if o.Some? then [o.value] else []
  }

  /** What every interpreter promises about its output: valid signals from
      its own source, for the configured symbol, expiring `ttlDays` after
      `now`. */
  ghost predicate WellFormed(signals: seq<Signal>, config: Config, source: Source, now: int, ttlDays: int)
  {
    forall i :: 0 <= i < |signals| ==>
      && ValidSignal(signals[i]) && signals[i].source == source && signals[i].symbol == config.symbol
      && signals[i].expiresAt == Some(now + ttlDays * Day)
  }

  /** The entry `key` of a signal's meta. */
  function MetaOf(s: Signal, key: string): Option<MetaValue>
  {
    if s.meta.Some? && key in s.meta.value then Some(s.meta.value[key]) else None
  }

  /** No two signals carry the same `key` entry. */
  ghost predicate DistinctBy(out: seq<Signal>, key: string)
  {
    forall i, j :: 0 <= i < j < |out| ==> MetaOf(out[i], key) != MetaOf(out[j], key)
  }

  lemma AppendWellFormed(out: seq<Signal>, o: Option<Signal>, config: Config, source: Source, now: int, ttlDays: int)
    requires WellFormed(out, config, source, now, ttlDays)
    requires o.Some? ==> WellFormed([o.value], config, source, now, ttlDays)
    ensures WellFormed(out + Opt(o), config, source, now, ttlDays)
  {
    if o.Some? {
      assert (out + Opt(o))[|out|] == o.value;
    }
  }

  lemma AppendDistinct(out: seq<Signal>, o: Option<Signal>, key: string)
    requires DistinctBy(out, key)
    requires o.Some? ==> forall s :: s in out ==> MetaOf(s, key) != MetaOf(o.value, key)
    ensures DistinctBy(out + Opt(o), key)
  {
    if o.Some? {
      var r := out + Opt(o);
      forall i, j | 0 <= i < j < |r|
        ensures MetaOf(r[i], key) != MetaOf(r[j], key)
      {
        if j == |out| {
          assert r[i] == out[i];
          assert out[i] in out;
        }
      }
    }
  }

  /** A rule result that, when present, is well formed and tagged under `key`
      with one of `tags`. */
  ghost predicate TaggedRule(o: Option<Signal>, config: Config, source: Source, now: int, ttlDays: int,
                             key: string, tags: set<Option<MetaValue>>)
  {
    o.Some? ==> WellFormed([o.value], config, source, now, ttlDays) && MetaOf(o.value, key) in tags
  }

  /** Rule results with disjoint tag sets collect into a well-formed output
      with one signal per rule at most. */
  lemma CombineTwo(a: Option<Signal>, b: Option<Signal>, config: Config, source: Source, now: int, ttlDays: int,
                   key: string, ta: set<Option<MetaValue>>, tb: set<Option<MetaValue>>)
    requires ta !! tb
    requires TaggedRule(a, config, source, now, ttlDays, key, ta)
    requires TaggedRule(b, config, source, now, ttlDays, key, tb)
    ensures var out := Opt(a) + Opt(b);
      WellFormed(out, config, source, now, ttlDays) && |out| <= 2 && DistinctBy(out, key)
  {
    AppendWellFormed([], a, config, source, now, ttlDays);
    AppendWellFormed(Opt(a), b, config, source, now, ttlDays);
    AppendDistinct([], a, key);
    AppendDistinct(Opt(a), b, key);
    assert [] + Opt(a) == Opt(a);
  }

  lemma CombineThree(a: Option<Signal>, b: Option<Signal>, c: Option<Signal>, config: Config, source: Source,
                     now: int, ttlDays: int, key: string,
                     ta: set<Option<MetaValue>>, tb: set<Option<MetaValue>>, tc: set<Option<MetaValue>>)
    requires ta !! tb && ta !! tc && tb !! tc
    requires TaggedRule(a, config, source, now, ttlDays, key, ta)
    requires TaggedRule(b, config, source, now, ttlDays, key, tb)
    requires TaggedRule(c, config, source, now, ttlDays, key, tc)
    ensures var out := Opt(a) + Opt(b) + Opt(c);
      WellFormed(out, config, source, now, ttlDays) && |out| <= 3 && DistinctBy(out, key)
  {
    CombineTwo(a, b, config, source, now, ttlDays, key, ta, tb);
    AppendWellFormed(Opt(a) + Opt(b), c, config, source, now, ttlDays);
    AppendDistinct(Opt(a) + Opt(b), c, key);
  }

  lemma CombineFour(a: Option<Signal>, b: Option<Signal>, c: Option<Signal>, d: Option<Signal>, config: Config,
                    source: Source, now: int, ttlDays: int, key: string,
                    ta: set<Option<MetaValue>>, tb: set<Option<MetaValue>>, tc: set<Option<MetaValue>>,
                    td: set<Option<MetaValue>>)
    requires ta !! tb && ta !! tc && ta !! td && tb !! tc && tb !! td && tc !! td
    requires TaggedRule(a, config, source, now, ttlDays, key, ta)
    requires TaggedRule(b, config, source, now, ttlDays, key, tb)
    requires TaggedRule(c, config, source, now, ttlDays, key, tc)
    requires TaggedRule(d, config, source, now, ttlDays, key, td)
    ensures var out := Opt(a) + Opt(b) + Opt(c) + Opt(d);
      WellFormed(out, config, source, now, ttlDays) && |out| <= 4 && DistinctBy(out, key)
  {
    CombineThree(a, b, c, config, source, now, ttlDays, key, ta, tb, tc);
    AppendWellFormed(Opt(a) + Opt(b) + Opt(c), d, config, source, now, ttlDays);
    AppendDistinct(Opt(a) + Opt(b) + Opt(c), d, key);
  }
}
