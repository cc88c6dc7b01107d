/** The fair-value-gap detector: a three-candle pattern whose outer candles
    leave a price gap, with a middle candle whose body is large against the
    recent average body. */
module FairValueGap {
  import opened Common

  /** One OHLC candle. */
  datatype Bar = Bar(open: real, high: real, low: real, close: real)

  /** The four result columns of a row: `fvg_type` (1 bullish, -1 bearish,
      0 none) and the gap's start, end and size (NaN when there is none). */
  datatype FvgCell = FvgCell(fvgType: int, fvgStart: Option<real>, fvgEnd: Option<real>, fvgSize: Option<real>)

  const Blank := FvgCell(0, None, None, None)

  /** The average body used when the recent bodies give none (or zero). */
  const MinAvgBody := 0.001

  function Body(b: Bar): real
  {
    Abs(b.close - b.open)
  }

  function Bodies(bars: seq<Bar>): (r: seq<real>)
    ensures |r| == |bars|
  {
    if bars == [] then [] else Bodies(bars[..|bars| - 1]) + [Body(bars[|bars| - 1])]
  }

  /** The mean body of rows [max(0, i - 1 - lookback), i - 1); 0.001 when
      that slice is empty or its mean is not positive. */
  function AvgBody(bars: seq<Bar>, i: int, lookback: int): real
    requires 1 <= i <= |bars|
  {
    var start := MaxInt(0, i - 1 - lookback);
    if start >= i - 1 then MinAvgBody
    else
      var m := Mean(Bodies(bars[start..i - 1]));
      if m > 0.0 then m else MinAvgBody
  }

  /** The gap completed at row `i` by candles i-2, i-1 and i, if any; the
      bullish pattern is tested first. */
  function GapAt(bars: seq<Bar>, i: int, lookback: int, multiplier: real): Option<FvgCell>
    requires 2 <= i < |bars|
  {
    var first := bars[i - 2];
    var third := bars[i];
    var large := Body(bars[i - 1]) >= AvgBody(bars, i, lookback) * multiplier;
    if third.low > first.high && large then
      Some(FvgCell(1, Some(first.high), Some(third.low), Some(third.low - first.high)))
    else if third.high < first.low && large then
      Some(FvgCell(-1, Some(first.low), Some(third.high), Some(first.low - third.high)))
    else None
  }

  /** What row `k` holds after a detection pass over `cells`. */
  function AfterDetection(bars: seq<Bar>, cells: seq<FvgCell>, k: int, lookback: int, multiplier: real): FvgCell
    requires 0 <= k < |bars| == |cells|
  {
    if 2 <= k && GapAt(bars, k, lookback, multiplier).Some? then GapAt(bars, k, lookback, multiplier).value
    else cells[k]
  }

  /** The result columns of a freshly built analyzer after one pass. */
  function Detected(bars: seq<Bar>, lookback: int, multiplier: real): (r: seq<FvgCell>)
    ensures |r| == |bars|
  {
    seq(|bars|, k requires 0 <= k < |bars| =>
      if 2 <= k && GapAt(bars, k, lookback, multiplier).Some? then GapAt(bars, k, lookback, multiplier).value else Blank)
  }

  /** `get_fvg_summary`; an average is `None` where pandas gives NaN (the
      mean of no sizes). */
  datatype FvgSummary = FvgSummary(
    totalFvgs: int, bullishFvgs: int, bearishFvgs: int,
    avgBullishSize: Option<real>, avgBearishSize: Option<real>)

  function CountType(cells: seq<FvgCell>, t: int): (r: nat)
    ensures r <= |cells|
  {
    if cells == [] then 0
    else CountType(cells[..|cells| - 1], t) + (if cells[|cells| - 1].fvgType == t then 1 else 0)
  }

  /** The non-NaN sizes of the rows of type `t`. */
  function SizesOf(cells: seq<FvgCell>, t: int): seq<real>
  {
    if cells == [] then []
    else
      var c := cells[|cells| - 1];
      SizesOf(cells[..|cells| - 1], t) + (if c.fvgType == t && c.fvgSize.Some? then [c.fvgSize.value] else [])
  }

  function MeanOrNaN(s: seq<real>): Option<real>
  {
    if s == [] then None else Some(Mean(s))
  }

  function SummaryOf(cells: seq<FvgCell>): (r: FvgSummary)
    ensures r.totalFvgs == r.bullishFvgs + r.bearishFvgs
    ensures r.totalFvgs == 0 ==> r.avgBullishSize == Some(0.0) && r.avgBearishSize == Some(0.0)
  {
    var bullish := CountType(cells, 1);
    var bearish := CountType(cells, -1);
    if bullish + bearish > 0 then
      FvgSummary(bullish + bearish, bullish, bearish, MeanOrNaN(SizesOf(cells, 1)), MeanOrNaN(SizesOf(cells, -1)))
    else
      FvgSummary(0, bullish, bearish, Some(0.0), Some(0.0))
  }

  /** The enriched frame `analyze` returns: the original index, the input
      candles and the result columns. */
  datatype Enriched = Enriched(index: seq<int>, bars: seq<Bar>, cells: seq<FvgCell>)

  class FairValueGapAnalyzer {
    const originalIndex: seq<int>
    const bars: seq<Bar>
    const lookbackPeriod: int
    const bodyMultiplier: real
    /** The result columns, one cell per row. */
    const cells: array<FvgCell>

    ghost predicate Valid()
      reads this
    {
      cells.Length == |bars| == |originalIndex|
    }

    /** Copies the frame and sets every result column to "no gap". */
    constructor(index: seq<int>, bars: seq<Bar>, lookbackPeriod: int, bodyMultiplier: real)
      requires |index| == |bars|
      ensures Valid()
      ensures this.originalIndex == index && this.bars == bars
      ensures this.lookbackPeriod == lookbackPeriod && this.bodyMultiplier == bodyMultiplier
      ensures fresh(cells)
      ensures forall k :: 0 <= k < cells.Length ==> cells[k] == Blank
    {
      this.originalIndex := index;
      this.bars := bars;
      this.lookbackPeriod := lookbackPeriod;
      this.bodyMultiplier := bodyMultiplier;
      cells := new FvgCell[|bars|](_ => Blank);
    }

    /** `detect_fvg`: writes the gap of every row from 2 on that completes
        one and leaves every other row as it was. */
    method DetectFvg()
      requires Valid()
      modifies cells
      ensures forall k :: 0 <= k < cells.Length ==>
        cells[k] == AfterDetection(bars, old(cells[..]), k, lookbackPeriod, bodyMultiplier)
    {
      var i := 2;
      while i < cells.Length
        invariant 2 <= i
        invariant forall k :: 0 <= k < i && k < cells.Length ==>
          cells[k] == AfterDetection(bars, old(cells[..]), k, lookbackPeriod, bodyMultiplier)
        invariant forall k :: i <= k < cells.Length ==> cells[k] == old(cells[k])
      {
        var firstHigh := bars[i - 2].high;
        var firstLow := bars[i - 2].low;
        var middleOpen := bars[i - 1].open;
        var middleClose := bars[i - 1].close;
        var thirdLow := bars[i].low;
        var thirdHigh := bars[i].high;
        var avgBodySize := AvgBody(bars, i, lookbackPeriod);
        var middleCandleBody := Abs(middleClose - middleOpen);
        if thirdLow > firstHigh && middleCandleBody >= avgBodySize * bodyMultiplier {
          cells[i] := FvgCell(1, Some(firstHigh), Some(thirdLow), Some(thirdLow - firstHigh));
        } else if thirdHigh < firstLow && middleCandleBody >= avgBodySize * bodyMultiplier {
          cells[i] := FvgCell(-1, Some(firstLow), Some(thirdHigh), Some(firstLow - thirdHigh));
        }
        i := i + 1;
      }
    }

    method GetFvgSummary() returns (summary: FvgSummary)
      ensures summary == SummaryOf(cells[..])
    {
      var bullishCount := CountType(cells[..], 1);
      var bearishCount := CountType(cells[..], -1);
      var totalCount := bullishCount + bearishCount;
      if totalCount > 0 {
        summary := FvgSummary(totalCount, bullishCount, bearishCount,
                              MeanOrNaN(SizesOf(cells[..], 1)), MeanOrNaN(SizesOf(cells[..], -1)));
      } else {
        summary := FvgSummary(0, bullishCount, bearishCount, Some(0.0), Some(0.0));
      }
    }

    /** `analyze`: one detection pass, then the frame with the original index
        restored and one result row per input row. */
    method Analyze() returns (result: Enriched)
      requires Valid()
      modifies cells
      ensures result.index == originalIndex && result.bars == bars
      ensures |result.cells| == |bars| && result.cells == cells[..]
      ensures forall k :: 0 <= k < |bars| ==>
        result.cells[k] == AfterDetection(bars, old(cells[..]), k, lookbackPeriod, bodyMultiplier)
    {
      DetectFvg();
      result := Enriched(originalIndex, bars, cells[..]);
    }
  }

  // ---------------------------------------------------------------------------

  /** The average body is always positive, so a flat middle candle never
      qualifies when the multiplier is positive. */
  lemma AvgBodyPositive(bars: seq<Bar>, i: int, lookback: int)
    requires 1 <= i <= |bars|
    ensures AvgBody(bars, i, lookback) > 0.0
    ensures var start := MaxInt(0, i - 1 - lookback);
      start < i - 1 && Mean(Bodies(bars[start..i - 1])) > 0.0 ==>
        AvgBody(bars, i, lookback) == Mean(Bodies(bars[start..i - 1]))
  {
  }

  /** Bullish: the third low above the first high and a large middle body
      give type 1 from the first high to the third low, of positive size.
      Bearish: the third high below the first low (and no bullish gap) give
      type -1 from the first low to the third high, of positive size. */
  lemma GapRules(bars: seq<Bar>, i: int, lookback: int, multiplier: real)
    requires 2 <= i < |bars|
    ensures var g := GapAt(bars, i, lookback, multiplier);
      var first := bars[i - 2];
      var third := bars[i];
      var large := Body(bars[i - 1]) >= AvgBody(bars, i, lookback) * multiplier;
      && (g.Some? <==> large && (third.low > first.high || third.high < first.low))
      && (g.Some? && g.value.fvgType == 1 <==> large && third.low > first.high)
      && (g.Some? && g.value.fvgType == -1 <==> large && third.high < first.low && !(third.low > first.high))
      && (g.Some? ==> g.value.fvgType in {-1, 1} && g.value.fvgSize.Some? && g.value.fvgSize.value > 0.0)
      && (g.Some? && g.value.fvgType == 1 ==>
            g.value.fvgStart == Some(first.high) && g.value.fvgEnd == Some(third.low)
            && g.value.fvgSize == Some(third.low - first.high))
      && (g.Some? && g.value.fvgType == -1 ==>
            g.value.fvgStart == Some(first.low) && g.value.fvgEnd == Some(third.high)
            && g.value.fvgSize == Some(first.low - third.high))
  {
  }

  /** A pass over a fresh analyzer gives `Detected`, and a second pass
      changes nothing. */
  lemma DetectionFromBlank(bars: seq<Bar>, lookback: int, multiplier: real)
    ensures var blank := seq(|bars|, _ => Blank);
      forall k :: 0 <= k < |bars| ==>
        AfterDetection(bars, blank, k, lookback, multiplier) == Detected(bars, lookback, multiplier)[k]
    ensures var d := Detected(bars, lookback, multiplier);
      forall k :: 0 <= k < |bars| ==> AfterDetection(bars, d, k, lookback, multiplier) == d[k]
  {
  }

  /** After detection every `fvg_type` is -1, 0 or 1, rows 0 and 1 are never
      flagged, and a row has a gap size exactly when it is flagged. */
  lemma DetectedCells(bars: seq<Bar>, lookback: int, multiplier: real, k: int)
    requires 0 <= k < |bars|
    ensures var c := Detected(bars, lookback, multiplier)[k];
      && c.fvgType in {-1, 0, 1}
      && (k < 2 ==> c == Blank)
      && (c.fvgType == 0 <==> c == Blank)
      && (c.fvgType != 0 ==> c.fvgSize.Some? && c.fvgSize.value > 0.0)
  {
    if k >= 2 {
      GapRules(bars, k, lookback, multiplier);
    }
  }

  lemma {:induction false} SizesPositive(cells: seq<FvgCell>, t: int)
    requires SizedWhenFlagged(cells)
    requires t != 0
    ensures |SizesOf(cells, t)| == CountType(cells, t)
    ensures forall j :: 0 <= j < |SizesOf(cells, t)| ==> SizesOf(cells, t)[j] > 0.0
  {
    if cells != [] {
      var init := cells[..|cells| - 1];
      assert forall k :: 0 <= k < |init| ==> init[k] == cells[k];
      SizesPositive(init, t);
    }
  }

  /** Flagged rows carry a positive size. */
  ghost predicate SizedWhenFlagged(cells: seq<FvgCell>)
  {
    forall k :: 0 <= k < |cells| && cells[k].fvgType != 0 ==> cells[k].fvgSize.Some? && cells[k].fvgSize.value > 0.0
  }

  lemma DetectedIsSized(bars: seq<Bar>, lookback: int, multiplier: real)
    ensures SizedWhenFlagged(Detected(bars, lookback, multiplier))
  {
    var d := Detected(bars, lookback, multiplier);
    forall k | 0 <= k < |d| && d[k].fvgType != 0
      ensures d[k].fvgSize.Some? && d[k].fvgSize.value > 0.0
    {
      DetectedCells(bars, lookback, multiplier, k);
    }
  }

  /** In the summary of rows that carry their sizes, both averages are
      positive, and an average is NaN exactly when there are gaps but none of
      that direction. */
  lemma SummaryAverages(cells: seq<FvgCell>)
    requires SizedWhenFlagged(cells)
    ensures var s := SummaryOf(cells);
      && s.totalFvgs <= |cells|
      && (s.totalFvgs > 0 ==>
            && (s.avgBullishSize.None? <==> s.bullishFvgs == 0)
            && (s.avgBearishSize.None? <==> s.bearishFvgs == 0)
            && (s.avgBullishSize.Some? ==> s.avgBullishSize.value > 0.0)
            && (s.avgBearishSize.Some? ==> s.avgBearishSize.value > 0.0))
  {
    SizesPositive(cells, 1);
    SizesPositive(cells, -1);
    CountsBound(cells);
    var bull := SizesOf(cells, 1);
    var bear := SizesOf(cells, -1);
    if bull != [] {
      SumPositive(bull);
    }
    if bear != [] {
      SumPositive(bear);
    }
  }

  /** The summary of a detection pass over a fresh analyzer. */
  lemma DetectedSummary(bars: seq<Bar>, lookback: int, multiplier: real)
    ensures var s := SummaryOf(Detected(bars, lookback, multiplier));
      && s.totalFvgs <= |bars|
      && (s.totalFvgs > 0 ==>
            && (s.avgBullishSize.None? <==> s.bullishFvgs == 0)
            && (s.avgBearishSize.None? <==> s.bearishFvgs == 0)
            && (s.avgBullishSize.Some? ==> s.avgBullishSize.value > 0.0)
            && (s.avgBearishSize.Some? ==> s.avgBearishSize.value > 0.0))
  {
    DetectedIsSized(bars, lookback, multiplier);
    SummaryAverages(Detected(bars, lookback, multiplier));
  }

  lemma {:induction false} CountsBound(cells: seq<FvgCell>)
    ensures CountType(cells, 1) + CountType(cells, -1) <= |cells|
  {
    if cells != [] {
      CountsBound(cells[..|cells| - 1]);
    }
  }

  lemma {:induction false} SumPositive(s: seq<real>)
    requires s != []
    requires forall j :: 0 <= j < |s| ==> s[j] > 0.0
    ensures Sum(s) > 0.0
  {
    var init := s[..|s| - 1];
    if init != [] {
      SumPositive(init);
    }
  }
}
