/** The public pipeline of the support/resistance engine (`analyze`): pivots,
    zones with polarity and merging, and the sticky slot assignment when there is
    at least one zone. */
module BreakoutAnalyzer {
  import opened Common
  import opened BreakoutConfig
  import opened BreakoutScan
  import opened BreakoutPivots
  import opened BreakoutSticky
  import opened BreakoutZones
  import opened BreakoutSweep

  /** The columns the analyser adds to the frame: `isPivot`, the slots
      zone_support_1..N / zone_resistance_1..N (one row per candle) and the two
      main levels. */
  datatype Frame = Frame(isPivot: seq<int>, table: StickyTable)

  /** The columns as the constructor initialises them: every slot and main level
      NaN. */
  function BlankTable(p: Params, n: nat): (t: StickyTable)
    ensures |t.support| == n && |t.resistance| == n && |t.mainSupport| == n && |t.mainResistance| == n
  {
    StickyTable(seq(n, _ => Nones(p.maxZones)), seq(n, _ => Nones(p.maxZones)),
                seq(n, _ => None), seq(n, _ => None))
  }

  function AnalyzeSpec(p: Params, s: Series): Frame
  {
    var zones := ZonesSpec(p, s);
    Frame(Pivots(s.bars, p.pivotWindow),
          if zones == [] then BlankTable(p, s.Len()) else StickySpec(p, s, zones))
  }

  /** The constructor followed by `analyze`. */
  method Analyze(raw: RawParams, s: Series) returns (f: Frame)
    ensures f == AnalyzeSpec(NormalizeParams(raw), s)
  {
    var p := NormalizeParams(raw);
    var isPivot := Pivots(s.bars, p.pivotWindow);
    var table := BlankTable(p, s.Len());
    var zones := BuildZones(p, s);
    if zones != [] {
      table := AssignSticky(p, s, zones);
    }
    f := Frame(isPivot, table);
  }

  // ---------------------------------------------------------------------------
  // Properties of the output

  /** Every column has one entry per candle, and every candle has exactly
      `max_zones` support and resistance slots. */
  lemma FrameShape(p: Params, s: Series)
    ensures var f := AnalyzeSpec(p, s);
      && |f.isPivot| == s.Len()
      && |f.table.support| == s.Len() && |f.table.resistance| == s.Len()
      && |f.table.mainSupport| == s.Len() && |f.table.mainResistance| == s.Len()
      && (forall i :: 0 <= i < s.Len() ==> |f.table.support[i]| == p.maxZones && |f.table.resistance[i]| == p.maxZones)
  {
  }

  /** Without zones (in particular without pivots) nothing is assigned: every
      slot and both main levels stay NaN. */
  lemma NoZonesLeavesNaN(p: Params, s: Series, i: nat)
    requires ZonesSpec(p, s) == [] && i < s.Len()
    ensures var t := AnalyzeSpec(p, s).table;
      && (forall k :: 0 <= k < p.maxZones ==> t.support[i][k].None? && t.resistance[i][k].None?)
      && t.mainSupport[i].None? && t.mainResistance[i].None?
  {
    var t := AnalyzeSpec(p, s).table;
    assert t.support[i] == Nones(p.maxZones) && t.resistance[i] == Nones(p.maxZones);
  }

  /** The main level of a candle is NaN exactly when all its slots are, and
      otherwise the slot value closest to the close (the first of equally close
      ones). */
  lemma MainLevelIsNearestSlot(p: Params, s: Series, side: Side, i: nat)
    requires i < s.Len()
    ensures var t := AnalyzeSpec(p, s).table;
      var row := if side == Support then t.support[i] else t.resistance[i];
      var main := if side == Support then t.mainSupport[i] else t.mainResistance[i];
      IsNearestSlot(row, s.bars[i].close, main)
  {
    var t := AnalyzeSpec(p, s).table;
    var row := if side == Support then t.support[i] else t.resistance[i];
    if ZonesSpec(p, s) == [] {
      assert row == Nones(p.maxZones);
    } else {
      NearestLevelSpec(row, s.bars[i].close);
    }
  }

  /** Every filled slot of `row` holds the level of a zone of `side` with at
      least `minPivots` pivots that is active at candle `i`, and no two slots
      hold the same level. */
  ghost predicate SlotsFromZones(row: seq<Option<real>>, zones: seq<Zone>, side: Side, i: nat, minPivots: nat, tol: real)
  {
    && (forall k :: 0 <= k < |row| && row[k].Some? ==>
         exists z :: z in zones && z.side == side && z.x0 <= i <= z.x1 && z.value == row[k].value && z.count >= minPivots)
    && (forall k, j :: 0 <= k < j < |row| ==> !SameLevel(row[k], row[j], tol))
  }

  /** Every filled slot holds the level of a zone of that side, built from at
      least `min_pivots` pivots and active at that candle; no two slots of a
      candle are the same level. */
  lemma SlotsComeFromZones(p: Params, s: Series, side: Side, i: nat)
    requires i < s.Len()
    ensures var t := AnalyzeSpec(p, s).table;
      var row := if side == Support then t.support[i] else t.resistance[i];
      SlotsFromZones(row, ZonesSpec(p, s), side, i, Settings(p, s).minPivots, p.levelTolPct)
  {
    var zones := ZonesSpec(p, s);
    var t := AnalyzeSpec(p, s).table;
    var row := if side == Support then t.support[i] else t.resistance[i];
    if zones == [] {
      assert row == Nones(p.maxZones);
      NoSlotsFilled(p.maxZones, zones, side, i, Settings(p, s).minPivots, p.levelTolPct);
    } else {
      assert !NoPivots(Pivots(s.bars, p.pivotWindow));
      ZonesAreStrong(p, s);
      SlotTableProperties(p, s, zones, side, i);
      assert row == SlotRows(p, s, zones, side)[i];
      SlotsOfStrongZones(row, zones, side, i, Settings(p, s).minPivots, p.levelTolPct);
    }
  }

  lemma NoSlotsFilled(m: nat, zones: seq<Zone>, side: Side, i: nat, minPivots: nat, tol: real)
    ensures SlotsFromZones(Nones(m), zones, side, i, minPivots, tol)
  {
  }

  lemma SlotsOfStrongZones(row: seq<Option<real>>, zones: seq<Zone>, side: Side, i: nat, minPivots: nat, tol: real)
    requires forall o :: o in zones ==> o.count >= minPivots
    requires forall k :: 0 <= k < |row| && row[k].Some? ==>
      exists z :: z in zones && z.side == side && z.x0 <= i <= z.x1 && z.value == row[k].value
    requires forall k, j :: 0 <= k < j < |row| ==> !SameLevel(row[k], row[j], tol)
    ensures SlotsFromZones(row, zones, side, i, minPivots, tol)
  {
    forall k | 0 <= k < |row| && row[k].Some?
      ensures exists z :: z in zones && z.side == side && z.x0 <= i <= z.x1 && z.value == row[k].value && z.count >= minPivots
    {
      var z :| z in zones && z.side == side && z.x0 <= i <= z.x1 && z.value == row[k].value;
      assert z.count >= minPivots;
    }
  }
}
