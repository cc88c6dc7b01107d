/** The forward breakout scan (`_find_break_index`): from a start candle, count
    consecutive candles whose price crosses the level by more than the band, and
    report where the zone stops being active. */
module BreakoutScan {
  import opened Common
  import opened BreakoutConfig

  /** The analysed series: candles and the caller-supplied ATR(14) column (None
      where the indicator is NaN). A row beyond the ATR column reads as NaN. */
  datatype Series = Series(bars: seq<Bar>, atr: seq<Option<real>>)
  {
    function Len(): nat { |bars| }

    function AtrAt(i: int): Option<real>
    {
      if 0 <= i < |atr| then atr[i] else None
    }
  }

  /** "up" looks for a break above a resistance, "down" below a support. */
  datatype Direction = Up | Down

  /** One call of the scan: the level, the direction, the first candle looked at,
      the percentage band (as a fraction) and the confirmation count. */
  datatype ScanQuery = ScanQuery(level: real, dir: Direction, start: nat, edgePct: real, confirm: nat)

  /** The band before NaN filling: ATR times the multiplier in "atr" mode, else
      a constant share of the level. */
  function RawBand(p: Params, s: Series, q: ScanQuery, i: int): Option<real>
  {
    if p.bandMode == Atr then
      (match s.AtrAt(i) case None => None case Some(a) => Some(a * p.bandAtrMult))
    else Some(q.level * q.edgePct)
  }

  /** `fillna(min_band_abs).clip(lower=min_band_abs)`. */
  function BandAt(p: Params, s: Series, q: ScanQuery, i: int): (r: real)
    ensures r >= p.minBandAbs
    ensures RawBand(p, s, q, i).None? ==> r == p.minBandAbs
    ensures RawBand(p, s, q, i).Some? ==> r == Max(RawBand(p, s, q, i).value, p.minBandAbs)
  {
    match RawBand(p, s, q, i)
    case None => p.minBandAbs
    case Some(b) => if b < p.minBandAbs then p.minBandAbs else b
  }

  /** The price a scan compares against the band. */
  function PriceAt(p: Params, s: Series, q: ScanQuery, i: int): real
    requires 0 <= i < s.Len()
  {
    if p.useCloseOnly then s.bars[i].close
    else if q.dir == Up then s.bars[i].high
    else s.bars[i].low
  }

  predicate Broken(p: Params, s: Series, q: ScanQuery, i: int)
    requires 0 <= i < s.Len()
  {
    match q.dir
    case Up => PriceAt(p, s, q, i) > q.level + BandAt(p, s, q, i)
    case Down => PriceAt(p, s, q, i) < q.level - BandAt(p, s, q, i)
  }

  /** Value of the consecutive-break counter after candle i. */
  function Run(p: Params, s: Series, q: ScanQuery, i: int): nat
    requires q.start <= i < s.Len()
    decreases i - q.start
  {
    if !Broken(p, s, q, i) then 0
    else if i == q.start then 1
    else Run(p, s, q, i - 1) + 1
  }

  /** The counter reaches K at candle i. */
  predicate Confirmed(p: Params, s: Series, q: ScanQuery, i: int)
    requires q.start <= i < s.Len()
  {
    Broken(p, s, q, i) && Run(p, s, q, i) >= q.confirm
  }

  /** The first confirmed candle at or after `from`. */
  function FirstConfirmed(p: Params, s: Series, q: ScanQuery, from: int): (r: Option<int>)
    requires q.start <= from
    ensures r.Some? ==> from <= r.value < s.Len() && Confirmed(p, s, q, r.value)
    ensures r.Some? ==> forall j :: from <= j < r.value ==> !Confirmed(p, s, q, j)
    ensures r.None? ==> forall j :: from <= j < s.Len() ==> !Confirmed(p, s, q, j)
    decreases s.Len() - from
  {
    if from >= s.Len() then None
    else if Confirmed(p, s, q, from) then Some(from)
    else FirstConfirmed(p, s, q, from + 1)
  }

  /** The last candle on which the zone is still active. */
  function BreakIndex(p: Params, s: Series, q: ScanQuery): (r: int)
    ensures q.start >= s.Len() ==> r == s.Len() - 1
    ensures q.start < s.Len() ==> q.start <= r <= s.Len() - 1
  {
    if q.start >= s.Len() then s.Len() - 1
    else match FirstConfirmed(p, s, q, q.start)
      case None => s.Len() - 1
      case Some(i) => MaxInt(q.start, i - q.confirm)
  }

  /** The counter is at least k exactly when the k candles ending at i (not
      reaching back before the start) all break: any non-breaking candle resets it. */
  lemma {:induction false} RunMeansConsecutiveBreaks(p: Params, s: Series, q: ScanQuery, i: int, k: nat)
    requires q.start <= i < s.Len()
    requires k >= 1
    ensures Run(p, s, q, i) >= k <==>
      (q.start <= i - k + 1 && forall j :: i - k + 1 <= j <= i ==> Broken(p, s, q, j))
    decreases i - q.start
  {
    if Broken(p, s, q, i) && i > q.start && k > 1 {
      RunMeansConsecutiveBreaks(p, s, q, i - 1, k - 1);
    }
  }

  /** At the first confirmed candle i the scan answers max(start, i - K). */
  lemma BreakIndexAtFirstConfirmation(p: Params, s: Series, q: ScanQuery, i: int)
    requires q.start <= i < s.Len()
    requires Confirmed(p, s, q, i)
    requires forall j :: q.start <= j < i ==> !Confirmed(p, s, q, j)
    ensures BreakIndex(p, s, q) == MaxInt(q.start, i - q.confirm)
  {
    var f := FirstConfirmed(p, s, q, q.start);
    assert f.Some? && f.value == i;
  }

  /** With no confirmed candle from the start on, the scan answers n - 1: the
      zone stays active to the end of the series. */
  lemma BreakIndexWithoutConfirmation(p: Params, s: Series, q: ScanQuery)
    requires forall j :: q.start <= j < s.Len() ==> !Confirmed(p, s, q, j)
    ensures BreakIndex(p, s, q) == s.Len() - 1
  {
    if q.start < s.Len() {
      var f := FirstConfirmed(p, s, q, q.start);
      assert f.None?;
    }
  }

  /** `_find_break_index`. */
  method FindBreakIndex(p: Params, s: Series, q: ScanQuery) returns (r: int)
    ensures r == BreakIndex(p, s, q)
  {
    var n: int := s.Len();
    if q.start >= n {
      return n - 1;
    }
    var count: nat := 0;
    for i := q.start to n
      invariant count == (if i == q.start then 0 else Run(p, s, q, i - 1))
      invariant FirstConfirmed(p, s, q, q.start) == FirstConfirmed(p, s, q, i)
    {
      var band := BandAt(p, s, q, i);
      var price := PriceAt(p, s, q, i);
      var broken := if q.dir == Up then price > q.level + band else price < q.level - band;
      if broken {
        count := count + 1;
        if count >= q.confirm {
          return MaxInt(q.start, i - q.confirm);
        }
      } else {
        count := 0;
      }
    }
    return n - 1;
  }
}
