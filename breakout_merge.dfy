/** Merging of near-duplicate breaks (`_merge_close_breaks`). The zones are sorted
    by (x1, type, value); each zone that has the same type as its predecessor in
    that order, breaks at most `sep` candles after it and lies within 1% of it is
    dropped, and the zone it is merged into has its x1 extended. */
module BreakoutMerge {
  import opened Common
  import opened StableSort
  import opened BreakoutConfig

  /** The sort key (x1, type, value), compared lexicographically. */
  function ZoneLe(a: Zone, b: Zone): bool
  {
    a.x1 < b.x1
    || (a.x1 == b.x1 && (a.side.TypeCode() < b.side.TypeCode()
      || (a.side.TypeCode() == b.side.TypeCode() && a.value <= b.value)))
  }

  lemma ZoneLeIsTotalPreorder()
    ensures TotalPreorder(ZoneLe)
  {
  }

  /** `sort_values(["x1", "type", "value"])`, which keeps ties in input order. */
  function SortZones(zs: seq<Zone>): (r: seq<Zone>)
    ensures |r| == |zs| && multiset(r) == multiset(zs)
  {
    Sort(zs, ZoneLe)
  }

  /** The two levels differ by less than 1% of the later one (floored at 1e-9).
      The source divides by that floor; since it is positive, the comparison is
      written here multiplied out, which `CloseLevelsIsRelativeDistance` justifies. */
  predicate CloseLevels(prev: Zone, curr: Zone)
  {
    Abs(curr.value - prev.value) < 0.01 * Max(curr.value, 0.000000001)
  }

  lemma CloseLevelsIsRelativeDistance(prev: Zone, curr: Zone)
    ensures CloseLevels(prev, curr) <==> Abs(curr.value - prev.value) / Max(curr.value, 0.000000001) < 0.01
  {
    RatioBelow(Abs(curr.value - prev.value), Max(curr.value, 0.000000001), 0.01);
  }

  lemma RatioBelow(d: real, m: real, c: real)
    requires m > 0.0
    ensures d / m < c <==> d < c * m
  {
    var q := d / m;
    assert q * m == d;
    if q < c {
      assert (c - q) * m > 0.0;
    } else {
      assert (q - c) * m >= 0.0;
    }
  }

  /** `curr` is merged into the zone before it, `prev`. */
  predicate Merges(prev: Zone, curr: Zone, sep: nat)
  {
    && curr.side == prev.side
    && curr.x1 - prev.x1 <= sep
    && CloseLevels(prev, curr)
  }

  /** The keep mask: the first zone, and every zone not merged into its predecessor. */
  function KeepMask(s: seq<Zone>, sep: nat): (r: seq<bool>)
    ensures |r| == |s|
    ensures forall j :: 0 <= j < |s| ==> r[j] == Kept(s, sep, j)
  {
    seq(|s|, j requires 0 <= j < |s| => Kept(s, sep, j))
  }

  predicate Kept(s: seq<Zone>, sep: nat, j: int)
    requires 0 <= j < |s|
  {
    j == 0 || !Merges(s[j - 1], s[j], sep)
  }

  /** `zdf[keep]`: the rows whose flag is set, in order. */
  function Select(rows: seq<Zone>, keep: seq<bool>): (r: seq<Zone>)
    requires |rows| == |keep|
    ensures |r| <= |rows|
  {
    if rows == [] then []
    else (if keep[0] then [rows[0]] else []) + Select(rows[1..], keep[1..])
  }

  lemma {:induction false} SelectAppend(a: seq<Zone>, ka: seq<bool>, b: seq<Zone>, kb: seq<bool>)
    requires |a| == |ka| && |b| == |kb|
    ensures Select(a + b, ka + kb) == Select(a, ka) + Select(b, kb)
  {
    if a == [] {
      assert a + b == b && ka + kb == kb;
    } else {
      var h := if ka[0] then [a[0]] else [];
      assert (a + b)[0] == a[0] && (ka + kb)[0] == ka[0];
      assert (a + b)[1..] == a[1..] + b && (ka + kb)[1..] == ka[1..] + kb;
      assert Select(a + b, ka + kb) == h + Select(a[1..] + b, ka[1..] + kb);
      SelectAppend(a[1..], ka[1..], b, kb);
      assert h + (Select(a[1..], ka[1..]) + Select(b, kb)) == (h + Select(a[1..], ka[1..])) + Select(b, kb);
    }
  }

  lemma SelectNone(a: seq<Zone>, ka: seq<bool>)
    requires |a| == |ka|
    requires forall k :: 0 <= k < |ka| ==> !ka[k]
    ensures Select(a, ka) == []
  {
  }

  // ---------------------------------------------------------------------------
  // As written: the write `zdf.at[i - 1, "x1"]` goes to the row just before the
  // merged one, even when that row was itself merged away.

  /** The rows after the loop: row j is extended exactly when row j + 1 merges into it. */
  function AsWrittenRows(s: seq<Zone>, sep: nat): (r: seq<Zone>)
    ensures |r| == |s|
    ensures forall j :: 0 <= j < |s| ==> r[j] == AsWrittenRow(s, sep, j)
  {
    seq(|s|, j requires 0 <= j < |s| => AsWrittenRow(s, sep, j))
  }

  function AsWrittenRow(s: seq<Zone>, sep: nat, j: int): Zone
    requires 0 <= j < |s|
  {
    if j + 1 < |s| && Merges(s[j], s[j + 1], sep)
    then s[j].(x1 := MaxInt(s[j].x1, s[j + 1].x1))
    else s[j]
  }

  function MergeAsWrittenSpec(zs: seq<Zone>, sep: nat): seq<Zone>
  {
    if zs == [] || sep == 0 then zs
    else Select(AsWrittenRows(SortZones(zs), sep), KeepMask(SortZones(zs), sep))
  }

  /** `_merge_close_breaks` as the source writes it. */
  method MergeCloseBreaksAsWritten(zs: seq<Zone>, sep: nat) returns (r: seq<Zone>)
    ensures r == MergeAsWrittenSpec(zs, sep)
  {
    if |zs| == 0 || sep <= 0 {
      return zs;
    }
    var rows := SortZones(zs);
    ghost var s := rows;
    ghost var mask := KeepMask(s, sep);
    ghost var written := AsWrittenRows(s, sep);
    var keep: seq<bool> := [true];
    for i := 1 to |rows|
      invariant |rows| == |s| && |keep| == i
      invariant keep == mask[..i]
      invariant forall j :: i - 1 <= j < |s| ==> rows[j] == s[j]
      invariant forall j :: 0 <= j < i - 1 ==> rows[j] == written[j]
    {
      var curr, prev := rows[i], rows[i - 1];
      assert mask[..i + 1] == mask[..i] + [mask[i]];
      assert mask[i] == Kept(s, sep, i);
      assert written[i - 1] == AsWrittenRow(s, sep, i - 1);
      if curr.side == prev.side && curr.x1 - prev.x1 <= sep {
        var sameLevel := CloseLevels(prev, curr);
        if sameLevel {
          rows := rows[i - 1 := prev.(x1 := MaxInt(prev.x1, curr.x1))];
          keep := keep + [false];
        } else {
          keep := keep + [true];
        }
      } else {
        keep := keep + [true];
      }
    }
    assert written[|s| - 1] == s[|s| - 1];
    assert rows == written;
    assert keep == mask;
    r := Select(rows, keep);
  }

  // ---------------------------------------------------------------------------
  // Corrected: the merged zone's x1 extends the zone that survives, so a chain of
  // merges extends the first zone of the chain to the chain's last break.

  /** The merge rule as a value, so that the lemmas about runs hold for any rule
      and never look inside its arithmetic. */
  function MergeRule(sep: nat): (Zone, Zone) -> bool
  {
    (prev: Zone, curr: Zone) => Merges(prev, curr, sep)
  }

  /** The runs of consecutive zones that merge into one another, starting from the
      current run `cur`. */
  function RunsFrom(cur: seq<Zone>, rest: seq<Zone>, merges: (Zone, Zone) -> bool): (r: seq<seq<Zone>>)
    requires |cur| > 0
    ensures |r| > 0 && NonEmptyRuns(r)
    decreases |rest|
  {
    if rest == [] then [cur]
    else if merges(cur[|cur| - 1], rest[0]) then RunsFrom(cur + [rest[0]], rest[1..], merges)
    else [cur] + RunsFrom([rest[0]], rest[1..], merges)
  }

  function Runs(s: seq<Zone>, sep: nat): (r: seq<seq<Zone>>)
    ensures NonEmptyRuns(r)
  {
    if s == [] then [] else RunsFrom([s[0]], s[1..], MergeRule(sep))
  }

  ghost predicate NonEmptyRuns(rs: seq<seq<Zone>>)
  {
    forall j :: 0 <= j < |rs| ==> |rs[j]| > 0
  }

  function Flatten(gs: seq<seq<Zone>>): seq<Zone>
  {
    if gs == [] then [] else gs[0] + Flatten(gs[1..])
  }

  /** The latest break of a run. */
  function MaxX1(run: seq<Zone>): int
    requires |run| > 0
  {
    if |run| == 1 then run[0].x1 else MaxInt(MaxX1(run[..|run| - 1]), run[|run| - 1].x1)
  }

  lemma {:induction false} MaxX1Bounds(run: seq<Zone>)
    requires |run| > 0
    ensures forall k :: 0 <= k < |run| ==> run[k].x1 <= MaxX1(run)
    ensures exists k :: 0 <= k < |run| && run[k].x1 == MaxX1(run)
  {
    if |run| > 1 {
      var init := run[..|run| - 1];
      MaxX1Bounds(init);
      assert forall k :: 0 <= k < |init| ==> run[k] == init[k];
      var k :| 0 <= k < |init| && init[k].x1 == MaxX1(init);
      if run[|run| - 1].x1 <= MaxX1(init) {
        assert run[k].x1 == MaxX1(run);
      } else {
        assert run[|run| - 1].x1 == MaxX1(run);
      }
    } else {
      assert run[0].x1 == MaxX1(run);
    }
  }

  /** The zone a run collapses into: its first zone, active until the run's last break. */
  function Survivor(run: seq<Zone>): Zone
    requires |run| > 0
  {
    run[0].(x1 := MaxX1(run))
  }

  /** The survivor is the run's first zone, with the latest x1 of the run. */
  lemma SurvivorShape(run: seq<Zone>)
    requires |run| > 0
    ensures Survivor(run) == run[0].(x1 := Survivor(run).x1)
    ensures forall k :: 0 <= k < |run| ==> run[k].x1 <= Survivor(run).x1
    ensures exists k :: 0 <= k < |run| && run[k].x1 == Survivor(run).x1
  {
    MaxX1Bounds(run);
  }

  function Survivors(runs: seq<seq<Zone>>): (r: seq<Zone>)
    requires NonEmptyRuns(runs)
    ensures |r| == |runs|
  {
    if runs == [] then [] else [Survivor(runs[0])] + Survivors(runs[1..])
  }

  lemma {:induction false} SurvivorsAt(runs: seq<seq<Zone>>, j: int)
    requires NonEmptyRuns(runs)
    requires 0 <= j < |runs|
    ensures Survivors(runs)[j] == Survivor(runs[j])
  {
    if j > 0 {
      SurvivorsAt(runs[1..], j - 1);
    }
  }

  function MergeSpec(zs: seq<Zone>, sep: nat): seq<Zone>
  {
    if zs == [] || sep == 0 then zs else Survivors(Runs(SortZones(zs), sep))
  }

  /** Inside a run every zone merges into its predecessor. */
  ghost predicate Chained(run: seq<Zone>, merges: (Zone, Zone) -> bool)
  {
    forall k :: 0 < k < |run| ==> merges(run[k - 1], run[k])
  }

  ghost predicate AllChained(rs: seq<seq<Zone>>, merges: (Zone, Zone) -> bool)
  {
    forall j :: 0 <= j < |rs| ==> Chained(rs[j], merges)
  }

  /** No run's first zone merges into the last zone of the run before it. */
  ghost predicate Separated(rs: seq<seq<Zone>>, merges: (Zone, Zone) -> bool)
    requires NonEmptyRuns(rs)
  {
    forall j :: 0 <= j < |rs| - 1 ==> !merges(rs[j][|rs[j]| - 1], rs[j + 1][0])
  }

  lemma {:induction false} RunsFromShape(cur: seq<Zone>, rest: seq<Zone>, merges: (Zone, Zone) -> bool)
    requires |cur| > 0
    requires Chained(cur, merges)
    ensures var rs := RunsFrom(cur, rest, merges);
      && Flatten(rs) == cur + rest
      && rs[0][0] == cur[0]
      && AllChained(rs, merges)
      && Separated(rs, merges)
    decreases |rest|
  {
    var rs := RunsFrom(cur, rest, merges);
    if rest == [] {
      assert rs == [cur];
      assert Flatten(rs) == cur + Flatten([]);
    } else if merges(cur[|cur| - 1], rest[0]) {
      var cur' := cur + [rest[0]];
      assert Chained(cur', merges) by {
        forall k | 0 < k < |cur'|
          ensures merges(cur'[k - 1], cur'[k])
        {
          if k < |cur| {
            assert cur'[k - 1] == cur[k - 1] && cur'[k] == cur[k];
          }
        }
      }
      RunsFromShape(cur', rest[1..], merges);
      assert cur' + rest[1..] == cur + rest;
    } else {
      var tail := RunsFrom([rest[0]], rest[1..], merges);
      RunsFromShape([rest[0]], rest[1..], merges);
      assert rs == [cur] + tail;
      assert rs[1..] == tail;
      assert Flatten(rs) == cur + Flatten(tail);
      assert [rest[0]] + rest[1..] == rest;
      assert Separated(rs, merges) by {
        forall j | 0 <= j < |rs| - 1
          ensures !merges(rs[j][|rs[j]| - 1], rs[j + 1][0])
        {
          if j > 0 {
            assert rs[j] == tail[j - 1] && rs[j + 1] == tail[j];
          }
        }
      }
      assert AllChained(rs, merges) by {
        forall j | 0 <= j < |rs|
          ensures Chained(rs[j], merges)
        {
          if j > 0 {
            assert rs[j] == tail[j - 1];
          }
        }
      }
    }
  }

  /** The runs split the sorted zones into contiguous pieces; inside a run every
      zone merges into its predecessor, and no run's first zone merges into the
      last zone of the run before it. */
  lemma RunsPartition(s: seq<Zone>, sep: nat)
    ensures Flatten(Runs(s, sep)) == s
    ensures AllChained(Runs(s, sep), MergeRule(sep))
    ensures Separated(Runs(s, sep), MergeRule(sep))
  {
    if s != [] {
      RunsFromShape([s[0]], s[1..], MergeRule(sep));
      assert [s[0]] + s[1..] == s;
    }
  }

  lemma {:induction false} FlattenLength(gs: seq<seq<Zone>>)
    requires NonEmptyRuns(gs)
    ensures |gs| <= |Flatten(gs)|
  {
    if gs != [] {
      FlattenLength(gs[1..]);
    }
  }

  /** Merging never outputs more zones than it receives, and it is the identity
      on an empty input or when the separation is zero. */
  lemma MergeNeverGrows(zs: seq<Zone>, sep: nat)
    ensures |MergeSpec(zs, sep)| <= |zs|
    ensures zs == [] || sep == 0 ==> MergeSpec(zs, sep) == zs
  {
    if zs != [] && sep > 0 {
      RunsPartition(SortZones(zs), sep);
      FlattenLength(Runs(SortZones(zs), sep));
    }
  }

  lemma {:induction false} InFlatten(gs: seq<seq<Zone>>, z: Zone)
    requires z in Flatten(gs)
    ensures exists j, k :: 0 <= j < |gs| && 0 <= k < |gs[j]| && gs[j][k] == z
  {
    if z in gs[0] {
      var k :| 0 <= k < |gs[0]| && gs[0][k] == z;
    } else {
      assert z in Flatten(gs[1..]);
      InFlatten(gs[1..], z);
      var j, k :| 0 <= j < |gs[1..]| && 0 <= k < |gs[1..][j]| && gs[1..][j][k] == z;
      assert gs[j + 1][k] == z;
    }
  }

  /** Coverage: every input zone is absorbed by an output zone of the same type
      that stays active at least as long as it did. */
  lemma MergeCovers(zs: seq<Zone>, sep: nat, z: Zone)
    requires z in zs
    ensures exists o :: o in MergeSpec(zs, sep) && o.side == z.side && o.x1 >= z.x1
  {
    if sep > 0 {
      var s := SortZones(zs);
      assert z in multiset(s);
      RunsPartition(s, sep);
      var rs := Runs(s, sep);
      InFlatten(rs, z);
      var j, k :| 0 <= j < |rs| && 0 <= k < |rs[j]| && rs[j][k] == z;
      assert Chained(rs[j], MergeRule(sep));
      SameSideInRun(rs[j], sep, k);
      SurvivorsAt(rs, j);
      SurvivorShape(rs[j]);
    }
  }

  lemma {:induction false} SameSideInRun(run: seq<Zone>, sep: nat, k: int)
    requires Chained(run, MergeRule(sep))
    requires 0 <= k < |run|
    ensures run[k].side == run[0].side
  {
    if k > 0 {
      SameSideInRun(run, sep, k - 1);
      assert MergeRule(sep)(run[k - 1], run[k]);
    }
  }

  /** Output zones are input zones of the same type, level, start and strength,
      with x1 possibly extended; valid intervals stay valid. */
  lemma MergePreservesValidity(zs: seq<Zone>, sep: nat, n: int)
    requires ValidZones(zs, n)
    ensures ValidZones(MergeSpec(zs, sep), n)
    ensures forall o :: o in MergeSpec(zs, sep) ==> exists z :: z in zs && o == z.(x1 := o.x1) && z.x1 <= o.x1
  {
    if zs != [] && sep > 0 {
      var s := SortZones(zs);
      RunsPartition(s, sep);
      var rs := Runs(s, sep);
      var out := Survivors(rs);
      forall j | 0 <= j < |rs|
        ensures 0 <= out[j].x0 <= out[j].x1 <= n - 1
        ensures exists z :: z in zs && out[j] == z.(x1 := out[j].x1) && z.x1 <= out[j].x1
      {
        var run := rs[j];
        SurvivorsAt(rs, j);
        SurvivorShape(run);
        forall k | 0 <= k < |run|
          ensures run[k] in zs
        {
          assert run[k] in Flatten(rs) by { FlattenMember(rs, j, k); }
          assert run[k] in multiset(s);
        }
        var m :| 0 <= m < |run| && run[m].x1 == out[j].x1;
        assert run[0] in zs && run[m] in zs;
      }
    }
  }

  lemma {:induction false} FlattenMember(gs: seq<seq<Zone>>, j: int, k: int)
    requires 0 <= j < |gs| && 0 <= k < |gs[j]|
    ensures gs[j][k] in Flatten(gs)
  {
    if j > 0 {
      FlattenMember(gs[1..], j - 1, k);
    }
  }

  /** `_merge_close_breaks` with the extension written to the surviving zone. */
  method MergeCloseBreaks(zs: seq<Zone>, sep: nat) returns (r: seq<Zone>)
    ensures r == MergeSpec(zs, sep)
  {
    if |zs| == 0 || sep <= 0 {
      return zs;
    }
    r := MergeSortedZones(SortZones(zs), sep);
  }

  /** The state of the keep/extend loop before index i: `last` is the row of the
      current run's first zone, which carries the run's survivor; `done` holds the
      runs already closed, whose survivors are the kept rows before `last`. */
  ghost predicate MergeInv(s: seq<Zone>, sep: nat, done: seq<seq<Zone>>, last: int, i: int,
                           rows: seq<Zone>, keep: seq<bool>)
  {
    && 0 <= last < i <= |s| && |rows| == |s| && |keep| == i
    && rows[last + 1..] == s[last + 1..]
    && keep[last] && (forall j :: last < j < i ==> !keep[j])
    && NonEmptyRuns(done)
    && done + RunsFrom(s[last..i], s[i..], MergeRule(sep)) == Runs(s, sep)
    && Select(rows[..last], keep[..last]) == Survivors(done)
    && rows[last] == Survivor(s[last..i])
  }

  lemma MergeInvInit(s: seq<Zone>, sep: nat)
    requires |s| > 0
    ensures MergeInv(s, sep, [], 0, 1, s, [true])
  {
    assert s[0..1] == [s[0]];
    assert MaxX1([s[0]]) == s[0].x1;
  }

  /** The zone at index i merges into the current run: the run's survivor is extended. */
  lemma MergeExtendStep(s: seq<Zone>, sep: nat, done: seq<seq<Zone>>, last: int, i: int,
                        rows: seq<Zone>, keep: seq<bool>)
    requires MergeInv(s, sep, done, last, i, rows, keep) && i < |s|
    requires Merges(s[i - 1], s[i], sep)
    ensures MergeInv(s, sep, done, last, i + 1, rows[last := rows[last].(x1 := MaxInt(rows[last].x1, s[i].x1))], keep + [false])
  {
    ExtendRun(s, sep, last, i);
    var rows' := rows[last := rows[last].(x1 := MaxInt(rows[last].x1, s[i].x1))];
    assert rows'[..last] == rows[..last] && (keep + [false])[..last] == keep[..last];
    assert rows'[last + 1..] == rows[last + 1..];
  }

  /** The zone at index i opens a new run: the current run is closed. */
  lemma MergeNewRunStep(s: seq<Zone>, sep: nat, done: seq<seq<Zone>>, last: int, i: int,
                        rows: seq<Zone>, keep: seq<bool>)
    requires MergeInv(s, sep, done, last, i, rows, keep) && i < |s|
    requires !Merges(s[i - 1], s[i], sep)
    ensures MergeInv(s, sep, done + [s[last..i]], i, i + 1, rows, keep + [true])
  {
    assert s[last..i][i - 1 - last] == s[i - 1];
    ProceedToNewRun(s, sep, done, last, i, rows, keep);
    assert (keep + [true])[..i] == keep;
    assert rows[i] == rows[last + 1..][i - last - 1] == s[i];
    assert s[i..i + 1] == [s[i]];
    assert MaxX1([s[i]]) == s[i].x1;
    assert rows[i + 1..] == rows[last + 1..][i - last..] == s[last + 1..][i - last..] == s[i + 1..];
    assert (keep + [true])[i];
    assert keep[..i] == keep;
    assert NonEmptyRuns(done + [s[last..i]]) by {
      forall j | 0 <= j < |done + [s[last..i]]|
        ensures |(done + [s[last..i]])[j]| > 0
      {
        if j < |done| {
          assert (done + [s[last..i]])[j] == done[j];
        }
      }
    }
    assert rows[i] == Survivor(s[i..i + 1]);
  }

  /** The keep/extend loop over the sorted zones. */
  method MergeSortedZones(s: seq<Zone>, sep: nat) returns (r: seq<Zone>)
    requires |s| > 0
    ensures r == Survivors(Runs(s, sep))
  {
    var rows := s;
    var keep: seq<bool> := [true];
    var last := 0;
    ghost var done: seq<seq<Zone>> := [];
    MergeInvInit(s, sep);
    for i := 1 to |rows|
      invariant |rows| == |s|
      invariant MergeInv(s, sep, done, last, i, rows, keep)
    {
      assert rows[i] == rows[last + 1..][i - last - 1] == s[i];
      assert rows[i - 1] == s[i - 1] by {
        if last < i - 1 {
          assert rows[i - 1] == rows[last + 1..][i - 1 - last - 1];
        } else {
          assert s[last..i] == [s[last]];
          assert MaxX1([s[last]]) == s[last].x1;
        }
      }
      var curr, prev := rows[i], rows[i - 1];
      // The source tests type and separation first and the level only then.
      if curr.side == prev.side && curr.x1 - prev.x1 <= sep && CloseLevels(prev, curr) {
        MergeExtendStep(s, sep, done, last, i, rows, keep);
        rows := rows[last := rows[last].(x1 := MaxInt(rows[last].x1, curr.x1))];
        keep := keep + [false];
      } else {
        MergeNewRunStep(s, sep, done, last, i, rows, keep);
        done := done + [s[last..i]];
        keep := keep + [true];
        last := i;
      }
    }
    FinishRuns(s, sep, done, last, rows, keep);
    r := Select(rows, keep);
  }

  /** After the last zone the current run is closed too. */
  lemma FinishRuns(s: seq<Zone>, sep: nat, done: seq<seq<Zone>>, last: int,
                   rows: seq<Zone>, keep: seq<bool>)
    requires MergeInv(s, sep, done, last, |s|, rows, keep)
    ensures Select(rows, keep) == Survivors(Runs(s, sep))
  {
    assert s[|s|..] == [];
    assert RunsFrom(s[last..|s|], [], MergeRule(sep)) == [s[last..|s|]];
    SelectUpToLastKept(rows, keep, last, |s|);
    assert rows[..|s|] == rows && keep[..|s|] == keep;
    SurvivorsAppend(done, s[last..|s|]);
  }

  lemma {:induction false} SurvivorsAppend(done: seq<seq<Zone>>, run: seq<Zone>)
    requires NonEmptyRuns(done)
    requires |run| > 0
    ensures Survivors(done + [run]) == Survivors(done) + [Survivor(run)]
  {
    if done == [] {
      assert done + [run] == [run];
    } else {
      assert (done + [run])[1..] == done[1..] + [run];
      SurvivorsAppend(done[1..], run);
    }
  }

  /** The step that extends the current run with the zone at index i. */
  lemma ExtendRun(s: seq<Zone>, sep: nat, last: int, i: int)
    requires 0 <= last < i < |s|
    requires Merges(s[i - 1], s[i], sep)
    ensures RunsFrom(s[last..i], s[i..], MergeRule(sep)) == RunsFrom(s[last..i + 1], s[i + 1..], MergeRule(sep))
    ensures Survivor(s[last..i + 1]) == Survivor(s[last..i]).(x1 := MaxInt(Survivor(s[last..i]).x1, s[i].x1))
  {
    var rest := s[i..];
    assert rest[0] == s[i] && rest[1..] == s[i + 1..];
    assert s[last..i][i - 1 - last] == s[i - 1];
    assert MergeRule(sep)(s[i - 1], s[i]);
    assert s[last..i] + [s[i]] == s[last..i + 1];
    assert s[last..i + 1][..i - last] == s[last..i];
  }

  /** Selecting up to i, when the last kept row of the prefix is `last`. */
  lemma SelectUpToLastKept(rows: seq<Zone>, keep: seq<bool>, last: int, i: int)
    requires 0 <= last < i <= |rows| && i <= |keep|
    requires keep[last] && forall j :: last < j < i ==> !keep[j]
    ensures Select(rows[..i], keep[..i]) == Select(rows[..last], keep[..last]) + [rows[last]]
  {
    assert rows[..i] == rows[..last] + ([rows[last]] + rows[last + 1..i]);
    assert keep[..i] == keep[..last] + ([true] + keep[last + 1..i]);
    SelectAppend(rows[..last], keep[..last], [rows[last]] + rows[last + 1..i], [true] + keep[last + 1..i]);
    SelectAppend([rows[last]], [true], rows[last + 1..i], keep[last + 1..i]);
    SelectNone(rows[last + 1..i], keep[last + 1..i]);
    assert Select([rows[last]], [true]) == [rows[last]] + Select([], []);
  }

  /** The runs and the kept rows when the run before index i is closed. */
  lemma ProceedToNewRun(s: seq<Zone>, sep: nat, done: seq<seq<Zone>>, last: int, i: int,
                        rows: seq<Zone>, keep: seq<bool>)
    requires 0 <= last < i < |s| && |rows| == |s| && |keep| == i
    requires NonEmptyRuns(done)
    requires done + RunsFrom(s[last..i], s[i..], MergeRule(sep)) == Runs(s, sep)
    requires !Merges(s[i - 1], s[i], sep)
    requires s[last..i][i - 1 - last] == s[i - 1]
    requires Select(rows[..last], keep[..last]) == Survivors(done)
    requires rows[last] == Survivor(s[last..i]) && keep[last]
    requires forall j :: last < j < i ==> !keep[j]
    ensures (done + [s[last..i]]) + RunsFrom(s[i..i + 1], s[i + 1..], MergeRule(sep)) == Runs(s, sep)
    ensures Select(rows[..i], keep[..i]) == Survivors(done + [s[last..i]])
  {
    var rest := s[i..];
    assert rest[0] == s[i] && rest[1..] == s[i + 1..];
    assert s[i..i + 1] == [s[i]];
    assert !MergeRule(sep)(s[i - 1], s[i]);
    assert RunsFrom(s[last..i], rest, MergeRule(sep)) == [s[last..i]] + RunsFrom([s[i]], s[i + 1..], MergeRule(sep));
    SelectUpToLastKept(rows, keep, last, i);
    SurvivorsAppend(done, s[last..i]);
  }
}

module BreakoutMergeExample {
  import opened StableSort
  import opened BreakoutConfig
  import opened BreakoutMerge

  /** Three supports at level 100 that break at candles 10, 12 and 14. */
  function Chain(): seq<Zone>
  {
    var a := Zone(Support, 100.0, 0, 10, 3, false);
    [a, a.(x1 := 12), a.(x1 := 14)]
  }

  lemma ChainIsSortedAndChained()
    ensures SortZones(Chain()) == Chain()
    ensures Merges(Chain()[0], Chain()[1], 5) && Merges(Chain()[1], Chain()[2], 5)
  {
    var zs := Chain();
    var a, b, c := zs[0], zs[1], zs[2];
    assert Sort([c], ZoneLe) == [c];
    assert [b, c][1..] == [c];
    assert Sort([b, c], ZoneLe) == Insert(b, [c], ZoneLe) == [b, c];
    assert zs[1..] == [b, c];
    assert SortZones(zs) == Insert(a, [b, c], ZoneLe) == zs;
  }

  /** With a separation of 5, as written the merged zone ends at candle 12,
      although the chain's last zone stays active until candle 14. */
  lemma MergeChainCounterexample()
    ensures MergeAsWrittenSpec(Chain(), 5) == [Chain()[0].(x1 := 12)]
  {
    var zs := Chain();
    var a, b, c := zs[0], zs[1], zs[2];
    ChainIsSortedAndChained();
    assert KeepMask(zs, 5) == [true, false, false];
    assert AsWrittenRows(zs, 5) == [a.(x1 := 12), b.(x1 := 14), c];
    assert Select([c], [false]) == [];
    assert Select([b.(x1 := 14), c], [false, false]) == [];
  }

  /** The corrected merge extends the chain's first zone to candle 14. */
  lemma MergeChainCorrected()
    ensures MergeSpec(Chain(), 5) == [Chain()[0].(x1 := 14)]
  {
    var zs := Chain();
    var a, b, c := zs[0], zs[1], zs[2];
    ChainIsSortedAndChained();
    assert [a] + [b] == [a, b] && [a, b] + [c] == [a, b, c];
    assert [b, c][1..] == [c] && [c][1..] == [];
    assert RunsFrom([a, b, c], [], MergeRule(5)) == [zs];
    assert RunsFrom([a, b], [c], MergeRule(5)) == RunsFrom([a, b, c], [], MergeRule(5));
    assert RunsFrom([a], [b, c], MergeRule(5)) == RunsFrom([a, b], [c], MergeRule(5));
    assert zs[1..] == [b, c];
    assert Runs(zs, 5) == [zs];
    assert MaxX1([a]) == 10;
    assert [a, b][..1] == [a];
    assert MaxX1([a, b]) == 12;
    assert zs[..2] == [a, b];
    assert MaxX1(zs) == 14;
  }
}
