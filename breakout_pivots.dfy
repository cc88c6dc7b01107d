/** Pivot labelling (`_detect_pivots`): a bar is a pivot high when its high equals
    the centred rolling maximum of highs over 2w+1 bars, a pivot low when its low
    equals the centred rolling minimum of lows; pandas leaves the rolling value NaN
    where the window does not fit, and NaN equals nothing. */
module BreakoutPivots {
  import opened Common
  import opened BreakoutConfig

  function MaxOf(s: seq<real>): (r: real)
    requires |s| > 0
    ensures forall k :: 0 <= k < |s| ==> s[k] <= r
    ensures exists k :: 0 <= k < |s| && s[k] == r
  {
    if |s| == 1 then s[0]
    else
      var m := MaxOf(s[1..]);
      assert forall k :: 1 <= k < |s| ==> s[k] == s[1..][k - 1];
      if s[0] >= m then s[0] else m
  }

  function MinOf(s: seq<real>): (r: real)
    requires |s| > 0
    ensures forall k :: 0 <= k < |s| ==> r <= s[k]
    ensures exists k :: 0 <= k < |s| && s[k] == r
  {
    if |s| == 1 then s[0]
    else
      var m := MinOf(s[1..]);
      assert forall k :: 1 <= k < |s| ==> s[k] == s[1..][k - 1];
      if s[0] <= m then s[0] else m
  }

  function Highs(bars: seq<Bar>): (r: seq<real>)
    ensures |r| == |bars| && forall k :: 0 <= k < |bars| ==> r[k] == bars[k].high
  {
    if bars == [] then [] else [bars[0].high] + Highs(bars[1..])
  }

  function Lows(bars: seq<Bar>): (r: seq<real>)
    ensures |r| == |bars| && forall k :: 0 <= k < |bars| ==> r[k] == bars[k].low
  {
    if bars == [] then [] else [bars[0].low] + Lows(bars[1..])
  }

  /** The centred window of 2w+1 bars around i fits inside the series. */
  predicate WindowFits(n: int, w: nat, i: int)
  {
    w <= i && i + w <= n - 1
  }

  /** `high.rolling(2w+1, center=True).max()` at row i; None where pandas yields NaN. */
  function RollingMaxHigh(bars: seq<Bar>, w: nat, i: int): Option<real>
  {
    if WindowFits(|bars|, w, i) then Some(MaxOf(Highs(bars)[i - w .. i + w + 1])) else None
  }

  function RollingMinLow(bars: seq<Bar>, w: nat, i: int): Option<real>
  {
    if WindowFits(|bars|, w, i) then Some(MinOf(Lows(bars)[i - w .. i + w + 1])) else None
  }

  predicate PivotHigh(bars: seq<Bar>, w: nat, i: int)
    requires 0 <= i < |bars|
  {
    RollingMaxHigh(bars, w, i) == Some(bars[i].high)
  }

  predicate PivotLow(bars: seq<Bar>, w: nat, i: int)
    requires 0 <= i < |bars|
  {
    RollingMinLow(bars, w, i) == Some(bars[i].low)
  }

  /** The ternary label: +1 pivot high, -1 pivot low, 0 for neither or both. */
  function PivotLabel(bars: seq<Bar>, w: nat, i: int): (r: int)
    requires 0 <= i < |bars|
    ensures r in {-1, 0, 1}
    ensures r == 1 <==> PivotHigh(bars, w, i) && !PivotLow(bars, w, i)
    ensures r == -1 <==> PivotLow(bars, w, i) && !PivotHigh(bars, w, i)
  {
    var hi := PivotHigh(bars, w, i);
    var lo := PivotLow(bars, w, i);
    if hi && lo then 0 else if lo then -1 else if hi then 1 else 0
  }

  /** The `isPivot` column. */
  function Pivots(bars: seq<Bar>, w: nat): (r: seq<int>)
    ensures |r| == |bars|
    ensures forall i :: 0 <= i < |bars| ==> r[i] == PivotLabel(bars, w, i)
  {
    seq(|bars|, i requires 0 <= i < |bars| => PivotLabel(bars, w, i))
  }

  /** The maximum of a window is its element `m` exactly when no element exceeds it. */
  lemma MaxAt(win: seq<real>, m: nat)
    requires m < |win|
    ensures MaxOf(win) == win[m] <==> forall k :: 0 <= k < |win| ==> win[k] <= win[m]
  {
  }

  lemma MinAt(win: seq<real>, m: nat)
    requires m < |win|
    ensures MinOf(win) == win[m] <==> forall k :: 0 <= k < |win| ==> win[m] <= win[k]
  {
  }

  /** A pivot high is a bar whose high is no lower than every high within w bars
      on both sides, with the whole window inside the series. */
  lemma PivotHighIsWindowMax(bars: seq<Bar>, w: nat, i: int)
    requires 0 <= i < |bars|
    ensures PivotHigh(bars, w, i) <==>
      WindowFits(|bars|, w, i) && forall j :: i - w <= j <= i + w ==> bars[j].high <= bars[i].high
  {
    if WindowFits(|bars|, w, i) {
      var win := Highs(bars)[i - w .. i + w + 1];
      assert win[w] == bars[i].high;
      assert forall j :: i - w <= j <= i + w ==> win[j - (i - w)] == bars[j].high;
      assert forall k :: 0 <= k < |win| ==> win[k] == bars[k + i - w].high;
      MaxAt(win, w);
    }
  }

  lemma PivotLowIsWindowMin(bars: seq<Bar>, w: nat, i: int)
    requires 0 <= i < |bars|
    ensures PivotLow(bars, w, i) <==>
      WindowFits(|bars|, w, i) && forall j :: i - w <= j <= i + w ==> bars[i].low <= bars[j].low
  {
    if WindowFits(|bars|, w, i) {
      var win := Lows(bars)[i - w .. i + w + 1];
      assert win[w] == bars[i].low;
      assert forall j :: i - w <= j <= i + w ==> win[j - (i - w)] == bars[j].low;
      assert forall k :: 0 <= k < |win| ==> win[k] == bars[k + i - w].low;
      MinAt(win, w);
    }
  }

  /** Bars within w of either end of the series are never pivots. */
  lemma EdgesAreNeutral(bars: seq<Bar>, w: nat, i: int)
    requires 0 <= i < |bars|
    requires i < w || i > |bars| - 1 - w
    ensures Pivots(bars, w)[i] == 0
  {
  }

  /** With a window of one bar every bar is both extremes, hence neutral. */
  lemma ZeroWindowIsNeutral(bars: seq<Bar>, i: int)
    requires 0 <= i < |bars|
    ensures Pivots(bars, 0)[i] == 0
  {
    PivotHighIsWindowMax(bars, 0, i);
    PivotLowIsWindowMin(bars, 0, i);
  }
}
