/** Zone construction (`_build_zones`): cluster the pivot lows and highs, turn every
    strong enough cluster into a zone active from the first candle until its
    breakout, add the role-reversed zone after each breakout, and merge
    near-duplicate breaks. */
module BreakoutZones {
  import opened Common
  import opened BreakoutConfig
  import opened BreakoutPivots
  import opened BreakoutCluster
  import opened BreakoutScan
  import opened BreakoutMerge

  function Closes(bars: seq<Bar>): (r: seq<real>)
    ensures |r| == |bars| && forall k :: 0 <= k < |bars| ==> r[k] == bars[k].close
  {
    if bars == [] then [] else [bars[0].close] + Closes(bars[1..])
  }

  /** pandas `median`: the middle value of the sorted column, or the mean of the
      two middle values for an even count. */
  function Median(s: seq<real>): (r: real)
    requires |s| > 0
  {
    var t := SortReals(s);
    if |t| % 2 == 1 then t[|t| / 2] else (t[|t| / 2 - 1] + t[|t| / 2]) / 2.0
  }

  /** The median lies between the smallest and the largest value. */
  lemma MedianWithinRange(s: seq<real>)
    requires |s| > 0
    ensures exists i, j :: 0 <= i < |s| && 0 <= j < |s| && s[i] <= Median(s) <= s[j]
  {
    var t := SortReals(s);
    SortRealsAscending(s);
    var lo, hi := if |t| % 2 == 1 then |t| / 2 else |t| / 2 - 1, |t| / 2;
    assert t[lo] <= Median(s) <= t[hi];
    assert t[lo] in multiset(s) && t[hi] in multiset(s);
    var i :| 0 <= i < |s| && s[i] == t[lo];
    var j :| 0 <= j < |s| && s[j] == t[hi];
  }

  /** The pivot values of one side, in candle order: pivot lows for supports,
      pivot highs for resistances. */
  function PivotValues(bars: seq<Bar>, labels: seq<int>, side: Side): (r: seq<real>)
    requires |labels| == |bars|
    decreases |bars|
  {
    if bars == [] then []
    else
      var k := |bars| - 1;
      PivotValues(bars[..k], labels[..k], side)
      + (if labels[k] == side.TypeCode() then [if side == Support then bars[k].low else bars[k].high] else [])
  }

  /** The number of pivots of one side. */
  function CountLabel(labels: seq<int>, code: int): nat
  {
    if labels == [] then 0
    else CountLabel(labels[..|labels| - 1], code) + (if labels[|labels| - 1] == code then 1 else 0)
  }

  lemma {:induction false} PivotValuesCount(bars: seq<Bar>, labels: seq<int>, side: Side)
    requires |labels| == |bars|
    ensures |PivotValues(bars, labels, side)| == CountLabel(labels, side.TypeCode())
    decreases |bars|
  {
    if bars != [] {
      PivotValuesCount(bars[..|bars| - 1], labels[..|bars| - 1], side);
    }
  }

  /** Clusters with at least `minPivots` pivots. */
  function Strong(cs: seq<Cluster>, minPivots: nat): (r: seq<Cluster>)
    ensures |r| <= |cs|
    ensures forall k :: 0 <= k < |r| ==> r[k].count >= minPivots && r[k] in cs
    ensures forall c :: c in cs && c.count >= minPivots ==> c in r
  {
    if cs == [] then []
    else
      var k := |cs| - 1;
      Strong(cs[..k], minPivots) + (if cs[k].count >= minPivots then [cs[k]] else [])
  }

  function DirectionFor(side: Side): Direction
  {
    if side == Support then Down else Up
  }

  /** The settings both scans of a zone build use. */
  datatype ZoneSettings = ZoneSettings(clusterPct: real, edgePct: real, minPivots: nat, confirm: nat)

  function Settings(p: Params, s: Series): ZoneSettings
    requires s.Len() > 0
  {
    var cfg := TokenConfig(Median(Closes(s.bars)));
    var tf := TfTuning(p);
    var edge := (if p.bandMode == Pct then tf.bandPct else cfg.breakZonePct) / 100.0;
    ZoneSettings(cfg.clusterZonePct, edge, cfg.minPivots, tf.confirm)
  }

  /** A zone active from the first candle until its breakout. */
  function BaseZone(p: Params, s: Series, side: Side, c: Cluster, z: ZoneSettings): Zone
  {
    Zone(side, c.center, 0,
      BreakIndex(p, s, ScanQuery(c.center, DirectionFor(side), 0, z.edgePct, z.confirm)),
      c.count, false)
  }

  function BaseZones(p: Params, s: Series, side: Side, cs: seq<Cluster>, z: ZoneSettings): (r: seq<Zone>)
    ensures |r| == |cs|
    ensures forall k :: 0 <= k < |cs| ==> r[k] == BaseZone(p, s, side, cs[k], z)
  {
    if cs == [] then []
    else BaseZones(p, s, side, cs[..|cs| - 1], z) + [BaseZone(p, s, side, cs[|cs| - 1], z)]
  }

  /** The role-reversed zone after the breakout of `z`, if the series goes on
      long enough after the cooldown. */
  function Reversal(p: Params, s: Series, z: Zone, settings: ZoneSettings): Option<Zone>
  {
    var startRev := z.x1 + 1 + p.polarityCooldown;
    if startRev < 0 || startRev >= s.Len() then None
    else
      var y1 := if p.eternalPolarity then s.Len() - 1
        else BreakIndex(p, s, ScanQuery(z.value, DirectionFor(z.side.Opposite()), startRev, settings.edgePct, 1));
      Some(Zone(z.side.Opposite(), z.value, startRev, y1, z.count, true))
  }

  function Reversals(p: Params, s: Series, zs: seq<Zone>, settings: ZoneSettings): seq<Zone>
  {
    if zs == [] then []
    else
      var k := |zs| - 1;
      Reversals(p, s, zs[..k], settings)
      + (match Reversal(p, s, zs[k], settings) case None => [] case Some(r) => [r])
  }

  /** No candle is a pivot. */
  predicate NoPivots(labels: seq<int>)
  {
    forall k :: 0 <= k < |labels| ==> labels[k] == 0
  }

  /** The clusters of one side that are strong enough to become zones. */
  function SideClusters(s: Series, labels: seq<int>, side: Side, z: ZoneSettings): seq<Cluster>
    requires |labels| == s.Len()
  {
    Strong(Summaries(Groups(SortReals(PivotValues(s.bars, labels, side)), z.clusterPct / 100.0)), z.minPivots)
  }

  /** Supports first, then resistances. */
  function BaseAll(p: Params, s: Series, labels: seq<int>, z: ZoneSettings): seq<Zone>
    requires |labels| == s.Len()
  {
    BaseZones(p, s, Support, SideClusters(s, labels, Support, z), z)
    + BaseZones(p, s, Resistance, SideClusters(s, labels, Resistance, z), z)
  }

  /** The base zones followed, when polarity is enabled, by their reversals. */
  function WithPolarity(p: Params, s: Series, base: seq<Zone>, z: ZoneSettings): seq<Zone>
  {
    base + (if p.enablePolarity then Reversals(p, s, base, z) else [])
  }

  /** The zones before merging. */
  function UnmergedZones(p: Params, s: Series): seq<Zone>
  {
    var labels := Pivots(s.bars, p.pivotWindow);
    if NoPivots(labels) then []
    else WithPolarity(p, s, BaseAll(p, s, labels, Settings(p, s)), Settings(p, s))
  }

  function ZonesSpec(p: Params, s: Series): seq<Zone>
  {
    MergeSpec(UnmergedZones(p, s), p.mergeBreaksMinSep)
  }

  // ---------------------------------------------------------------------------
  // Properties

  /** A base zone starts at candle 0 and ends at its breakout index. */
  lemma BaseZoneShape(p: Params, s: Series, side: Side, c: Cluster, z: ZoneSettings)
    requires s.Len() > 0
    ensures var b := BaseZone(p, s, side, c, z);
      && b.x0 == 0 && 0 <= b.x1 <= s.Len() - 1
      && b.side == side && b.value == c.center && b.count == c.count && !b.isReversal
  {
  }

  /** A reversal exists exactly when x1 + 1 + cooldown < n; it has the opposite
      type, the same level and strength, and it reaches the last candle when
      polarity is eternal. */
  lemma ReversalShape(p: Params, s: Series, z: Zone, settings: ZoneSettings)
    requires 0 <= z.x1
    ensures Reversal(p, s, z, settings).Some? <==> z.x1 + 1 + p.polarityCooldown < s.Len()
    ensures match Reversal(p, s, z, settings)
      case None => true
      case Some(r) =>
        && r.side == z.side.Opposite() && r.value == z.value && r.count == z.count && r.isReversal
        && r.x0 == z.x1 + 1 + p.polarityCooldown
        && r.x0 <= r.x1 <= s.Len() - 1
        && (p.eternalPolarity ==> r.x1 == s.Len() - 1)
  {
  }

  lemma {:induction false} BaseZonesValid(p: Params, s: Series, side: Side, cs: seq<Cluster>, z: ZoneSettings)
    requires s.Len() > 0
    ensures ValidZones(BaseZones(p, s, side, cs, z), s.Len())
  {
    forall k | 0 <= k < |cs|
      ensures 0 <= BaseZones(p, s, side, cs, z)[k].x0 <= BaseZones(p, s, side, cs, z)[k].x1 <= s.Len() - 1
    {
      BaseZoneShape(p, s, side, cs[k], z);
    }
  }

  lemma {:induction false} ReversalsValid(p: Params, s: Series, zs: seq<Zone>, settings: ZoneSettings)
    requires ValidZones(zs, s.Len())
    ensures ValidZones(Reversals(p, s, zs, settings), s.Len())
  {
    if zs != [] {
      var k := |zs| - 1;
      assert ValidZones(zs[..k], s.Len());
      ReversalsValid(p, s, zs[..k], settings);
      ReversalShape(p, s, zs[k], settings);
    }
  }

  lemma ValidAppend(a: seq<Zone>, b: seq<Zone>, n: int)
    requires ValidZones(a, n) && ValidZones(b, n)
    ensures ValidZones(a + b, n)
  {
    forall k | 0 <= k < |a + b|
      ensures 0 <= (a + b)[k].x0 <= (a + b)[k].x1 <= n - 1
    {
      if k >= |a| {
        assert (a + b)[k] == b[k - |a|];
      }
    }
  }

  lemma BaseAllValid(p: Params, s: Series, labels: seq<int>, z: ZoneSettings)
    requires |labels| == s.Len() > 0
    ensures ValidZones(BaseAll(p, s, labels, z), s.Len())
  {
    BaseZonesValid(p, s, Support, SideClusters(s, labels, Support, z), z);
    BaseZonesValid(p, s, Resistance, SideClusters(s, labels, Resistance, z), z);
    ValidAppend(BaseZones(p, s, Support, SideClusters(s, labels, Support, z), z),
      BaseZones(p, s, Resistance, SideClusters(s, labels, Resistance, z), z), s.Len());
  }

  lemma WithPolarityValid(p: Params, s: Series, base: seq<Zone>, z: ZoneSettings)
    requires ValidZones(base, s.Len())
    ensures ValidZones(WithPolarity(p, s, base, z), s.Len())
  {
    if p.enablePolarity {
      ReversalsValid(p, s, base, z);
      ValidAppend(base, Reversals(p, s, base, z), s.Len());
    } else {
      assert WithPolarity(p, s, base, z) == base;
    }
  }

  /** Every zone the builder returns covers a non-empty interval inside the series,
      and no pivots means no zones. */
  lemma ZonesValid(p: Params, s: Series)
    ensures ValidZones(ZonesSpec(p, s), s.Len())
    ensures NoPivots(Pivots(s.bars, p.pivotWindow)) ==> ZonesSpec(p, s) == []
  {
    var labels := Pivots(s.bars, p.pivotWindow);
    if !NoPivots(labels) {
      var z := Settings(p, s);
      BaseAllValid(p, s, labels, z);
      WithPolarityValid(p, s, BaseAll(p, s, labels, z), z);
      MergePreservesValidity(UnmergedZones(p, s), p.mergeBreaksMinSep, s.Len());
    }
  }

  ghost predicate AllStrong(zs: seq<Zone>, minPivots: nat)
  {
    forall k :: 0 <= k < |zs| ==> zs[k].count >= minPivots
  }

  lemma {:induction false} ReversalsStrong(p: Params, s: Series, zs: seq<Zone>, z: ZoneSettings, minPivots: nat)
    requires AllStrong(zs, minPivots)
    ensures AllStrong(Reversals(p, s, zs, z), minPivots)
  {
    if zs != [] {
      var k := |zs| - 1;
      assert AllStrong(zs[..k], minPivots);
      ReversalsStrong(p, s, zs[..k], z, minPivots);
    }
  }

  lemma StrongAppend(a: seq<Zone>, b: seq<Zone>, minPivots: nat)
    requires AllStrong(a, minPivots) && AllStrong(b, minPivots)
    ensures AllStrong(a + b, minPivots)
  {
    forall k | 0 <= k < |a + b|
      ensures (a + b)[k].count >= minPivots
    {
      if k >= |a| {
        assert (a + b)[k] == b[k - |a|];
      }
    }
  }

  lemma SideStrong(p: Params, s: Series, labels: seq<int>, side: Side, z: ZoneSettings)
    requires |labels| == s.Len()
    ensures AllStrong(BaseZones(p, s, side, SideClusters(s, labels, side, z), z), z.minPivots)
  {
    var cs := SideClusters(s, labels, side, z);
    assert forall k :: 0 <= k < |cs| ==> cs[k].count >= z.minPivots;
  }

  lemma BaseAllStrong(p: Params, s: Series, labels: seq<int>, z: ZoneSettings)
    requires |labels| == s.Len()
    ensures AllStrong(BaseAll(p, s, labels, z), z.minPivots)
  {
    SideStrong(p, s, labels, Support, z);
    SideStrong(p, s, labels, Resistance, z);
    StrongAppend(BaseZones(p, s, Support, SideClusters(s, labels, Support, z), z),
      BaseZones(p, s, Resistance, SideClusters(s, labels, Resistance, z), z), z.minPivots);
  }

  lemma WithPolarityStrong(p: Params, s: Series, base: seq<Zone>, z: ZoneSettings, minPivots: nat)
    requires AllStrong(base, minPivots)
    ensures AllStrong(WithPolarity(p, s, base, z), minPivots)
  {
    var all := WithPolarity(p, s, base, z);
    if p.enablePolarity {
      var rv := Reversals(p, s, base, z);
      ReversalsStrong(p, s, base, z, minPivots);
      forall k | 0 <= k < |all|
        ensures all[k].count >= minPivots
      {
        if k >= |base| {
          assert all[k] == rv[k - |base|];
        }
      }
    } else {
      assert all == base;
    }
  }

  lemma MergeKeepsStrong(zs: seq<Zone>, sep: nat, n: int, minPivots: nat)
    requires ValidZones(zs, n) && AllStrong(zs, minPivots)
    ensures forall o :: o in MergeSpec(zs, sep) ==> o.count >= minPivots
  {
    MergePreservesValidity(zs, sep, n);
    forall o | o in MergeSpec(zs, sep)
      ensures o.count >= minPivots
    {
      var w :| w in zs && o == w.(x1 := o.x1) && w.x1 <= o.x1;
    }
  }

  /** Every zone the builder returns, reversals and merged survivors included, was
      built from at least `min_pivots` pivots. */
  lemma ZonesAreStrong(p: Params, s: Series)
    requires !NoPivots(Pivots(s.bars, p.pivotWindow))
    ensures forall o :: o in ZonesSpec(p, s) ==> o.count >= Settings(p, s).minPivots
  {
    var labels := Pivots(s.bars, p.pivotWindow);
    var z := Settings(p, s);
    var base := BaseAll(p, s, labels, z);
    BaseAllStrong(p, s, labels, z);
    WithPolarityStrong(p, s, base, z, z.minPivots);
    BaseAllValid(p, s, labels, z);
    WithPolarityValid(p, s, base, z);
    MergeKeepsStrong(WithPolarity(p, s, base, z), p.mergeBreaksMinSep, s.Len(), z.minPivots);
  }

  // ---------------------------------------------------------------------------
  // The builder

  method PivotValuesOf(bars: seq<Bar>, labels: seq<int>, side: Side) returns (r: seq<real>)
    requires |labels| == |bars|
    ensures r == PivotValues(bars, labels, side)
  {
    r := [];
    for k := 0 to |bars|
      invariant r == PivotValues(bars[..k], labels[..k], side)
    {
      assert bars[..k + 1][..k] == bars[..k] && labels[..k + 1][..k] == labels[..k];
      if labels[k] == side.TypeCode() {
        r := r + [if side == Support then bars[k].low else bars[k].high];
      }
    }
    assert bars[..|bars|] == bars && labels[..|bars|] == labels;
  }

  /** The scan loop over one side's clusters. */
  method BaseZonesOf(p: Params, s: Series, side: Side, cs: seq<Cluster>, st: ZoneSettings) returns (zs: seq<Zone>)
    ensures zs == BaseZones(p, s, side, cs, st)
  {
    zs := [];
    for k := 0 to |cs|
      invariant zs == BaseZones(p, s, side, cs[..k], st)
    {
      assert cs[..k + 1][..k] == cs[..k];
      var c := cs[k];
      var x1 := FindBreakIndex(p, s, ScanQuery(c.center, DirectionFor(side), 0, st.edgePct, st.confirm));
      zs := zs + [Zone(side, c.center, 0, x1, c.count, false)];
    }
    assert cs[..|cs|] == cs;
  }

  /** The polarity loop: one reversed zone per base zone broken early enough. */
  method ReversalsOf(p: Params, s: Series, zones: seq<Zone>, st: ZoneSettings) returns (extra: seq<Zone>)
    ensures extra == Reversals(p, s, zones, st)
  {
    extra := [];
    for k := 0 to |zones|
      invariant extra == Reversals(p, s, zones[..k], st)
    {
      assert zones[..k + 1][..k] == zones[..k];
      var z := zones[k];
      var startRev := z.x1 + 1 + p.polarityCooldown;
      if 0 <= startRev < s.Len() {
        var y1: int;
        if p.eternalPolarity {
          y1 := s.Len() - 1;
        } else {
          y1 := FindBreakIndex(p, s, ScanQuery(z.value, DirectionFor(z.side.Opposite()), startRev, st.edgePct, 1));
          // The scan never answers -1 here; the source's fallback is kept.
          if y1 == -1 {
            y1 := s.Len() - 1;
          }
        }
        extra := extra + [Zone(z.side.Opposite(), z.value, startRev, y1, z.count, true)];
      }
    }
    assert zones[..|zones|] == zones;
  }

  /** `_build_zones`. */
  method BuildZones(p: Params, s: Series) returns (zones: seq<Zone>)
    ensures zones == ZonesSpec(p, s)
    ensures ValidZones(zones, s.Len())
  {
    ZonesValid(p, s);
    var labels := Pivots(s.bars, p.pivotWindow);
    if NoPivots(labels) {
      return [];
    }
    var st := Settings(p, s);
    var supportVals := PivotValuesOf(s.bars, labels, Support);
    var resistVals := PivotValuesOf(s.bars, labels, Resistance);
    var supClusters := ClusterPivots(supportVals, st.clusterPct);
    var resClusters := ClusterPivots(resistVals, st.clusterPct);
    supClusters := Strong(supClusters, st.minPivots);
    resClusters := Strong(resClusters, st.minPivots);
    assert supClusters == SideClusters(s, labels, Support, st);
    assert resClusters == SideClusters(s, labels, Resistance, st);

    var supports := BaseZonesOf(p, s, Support, supClusters, st);
    var resistances := BaseZonesOf(p, s, Resistance, resClusters, st);
    var all := supports + resistances;
    if p.enablePolarity {
      var extra := ReversalsOf(p, s, all, st);
      all := all + extra;
    }
    assert all == UnmergedZones(p, s);
    zones := MergeCloseBreaks(all, p.mergeBreaksMinSep);
  }
}
