/** Per-candle slot filling of the sticky assignment (`_assign_sticky`): ranking of
    the active zones, the hysteresis choice of `choose_sticky`, the S1..SN / R1..RN
    slot loop with its "used" marks, and the main level nearest to the close. */
module BreakoutSticky {
  import opened Common
  import opened StableSort

  /** `_same_level`: both present and within `tolPct` percent of the larger one. */
  predicate SameLevel(a: Option<real>, b: Option<real>, tolPct: real)
  {
    a.Some? && b.Some? && Abs(a.value - b.value) <= Max(a.value, b.value) * (tolPct / 100.0)
  }

  lemma SameLevelSymmetric(a: Option<real>, b: Option<real>, tolPct: real)
    ensures SameLevel(a, b, tolPct) <==> SameLevel(b, a, tolPct)
    ensures a.None? || b.None? ==> !SameLevel(a, b, tolPct)
  {
  }

  /** A non-negative level is the same level as itself. */
  lemma SameLevelReflexive(v: real, tolPct: real)
    requires v >= 0.0 && tolPct >= 0.0
    ensures SameLevel(Some(v), Some(v), tolPct)
  {
  }

  /** A ranked candidate: a zone's level, strength and distance to the close. */
  datatype Cand = Cand(value: real, count: nat, distance: real)

  /** The sort key (-count, distance, value). */
  function CandLe(a: Cand, b: Cand): bool
  {
    a.count > b.count
    || (a.count == b.count && (a.distance < b.distance || (a.distance == b.distance && a.value <= b.value)))
  }

  /** The key is the whole candidate, so the ranking is a total order. */
  lemma CandLeIsTotalOrder()
    ensures TotalOrder(CandLe)
  {
  }

  /** `rank_candidates`' sort. */
  function Rank(cs: seq<Cand>): (r: seq<Cand>)
    ensures |r| == |cs| && multiset(r) == multiset(cs)
  {
    Sort(cs, CandLe)
  }

  /** Stronger zones first, then nearer ones, then lower levels. */
  lemma RankOrder(cs: seq<Cand>)
    ensures forall i, j :: 0 <= i < j < |cs| ==>
      var a, b := Rank(cs)[i], Rank(cs)[j];
      a.count > b.count || (a.count == b.count && (a.distance < b.distance || (a.distance == b.distance && a.value <= b.value)))
  {
    CandLeIsTotalOrder();
    SortSorted(cs, CandLe);
  }

  /** The value of the first candidate that is the same level as `v`. */
  function FirstSameLevel(v: Option<real>, cands: seq<Cand>, tolPct: real): Option<real>
  {
    if cands == [] then None
    else if SameLevel(v, Some(cands[0].value), tolPct) then Some(cands[0].value)
    else FirstSameLevel(v, cands[1..], tolPct)
  }

  /** The search answers None exactly when no candidate is the same level as `v`,
      and otherwise the first one that is. */
  lemma {:induction false} FirstSameLevelSpec(v: Option<real>, cands: seq<Cand>, tolPct: real)
    ensures var r := FirstSameLevel(v, cands, tolPct);
      r.None? <==> forall k :: 0 <= k < |cands| ==> !SameLevel(v, Some(cands[k].value), tolPct)
    ensures var r := FirstSameLevel(v, cands, tolPct);
      r.Some? ==> exists k :: (0 <= k < |cands| && cands[k].value == r.value
      && SameLevel(v, r, tolPct)
      && forall j :: 0 <= j < k ==> !SameLevel(v, Some(cands[j].value), tolPct))
  {
    if cands != [] && !SameLevel(v, Some(cands[0].value), tolPct) {
      var tail := cands[1..];
      FirstSameLevelSpec(v, tail, tolPct);
      var r := FirstSameLevel(v, tail, tolPct);
      assert FirstSameLevel(v, cands, tolPct) == r;
      if r.Some? {
        var k :| 0 <= k < |tail| && tail[k].value == r.value
          && SameLevel(v, r, tolPct)
          && forall j :: 0 <= j < k ==> !SameLevel(v, Some(tail[j].value), tolPct);
        forall j | 0 <= j < k + 1
          ensures !SameLevel(v, Some(cands[j].value), tolPct)
        {
          if j > 0 {
            assert cands[j] == tail[j - 1];
          }
        }
        assert cands[k + 1] == tail[k];
      } else {
        forall k | 0 <= k < |cands|
          ensures !SameLevel(v, Some(cands[k].value), tolPct)
        {
          if k > 0 {
            assert cands[k] == tail[k - 1];
          }
        }
      }
    }
  }

  /** What the slot loop knows at one candle: the close, `level_tol_pct` and
      `hysteresis_ratio`. */
  datatype StickyCtx = StickyCtx(price: real, tolPct: real, hysteresis: real)

  /** `choose_sticky`: keep a level that is still a candidate, otherwise take the
      best-ranked one. The hysteresis test repeats the same search, so the answer
      is the first same-level candidate whenever there is one, and the top
      candidate otherwise. */
  function ChooseSticky(prev: Option<real>, cands: seq<Cand>, ctx: StickyCtx): (r: Option<real>)
    ensures r.None? <==> cands == []
    ensures r.Some? && FirstSameLevel(prev, cands, ctx.tolPct).Some? ==> r == FirstSameLevel(prev, cands, ctx.tolPct)
    ensures r.Some? && FirstSameLevel(prev, cands, ctx.tolPct).None? ==> r == Some(cands[0].value)
  {
    if cands == [] then None
    else match FirstSameLevel(prev, cands, ctx.tolPct)
      case Some(v) => Some(v)
      case None =>
        if prev.Some? && cands[0].distance >= (1.0 - ctx.hysteresis) * Abs(prev.value - ctx.price) then
          match FirstSameLevel(prev, cands, ctx.tolPct)
          case Some(v) => Some(v)
          case None => Some(cands[0].value)
        else Some(cands[0].value)
  }

  /** The candidates that are not the same level as any used value, in rank order. */
  function Remaining(cands: seq<Cand>, used: seq<real>, tolPct: real): (r: seq<Cand>)
    ensures |r| <= |cands|
  {
    if cands == [] then []
    else
      var rest := Remaining(cands[1..], used, tolPct);
      if exists u :: u in used && SameLevel(Some(cands[0].value), Some(u), tolPct) then rest
      else [cands[0]] + rest
  }

  /** The filter keeps exactly the candidates that are not the same level as any
      used value. */
  lemma {:induction false} RemainingSpec(cands: seq<Cand>, used: seq<real>, tolPct: real)
    ensures forall c :: c in Remaining(cands, used, tolPct) ==> c in cands
    ensures forall c :: c in Remaining(cands, used, tolPct) ==>
      forall u :: u in used ==> !SameLevel(Some(c.value), Some(u), tolPct)
    ensures forall c :: c in cands && (forall u :: u in used ==> !SameLevel(Some(c.value), Some(u), tolPct)) ==>
      c in Remaining(cands, used, tolPct)
  {
    if cands != [] {
      RemainingSpec(cands[1..], used, tolPct);
      forall c | c in cands
        ensures c == cands[0] || c in cands[1..]
      {
        var k :| 0 <= k < |cands| && cands[k] == c;
        if k > 0 {
          assert cands[1..][k - 1] == c;
        }
      }
    }
  }

  /** The value a slot takes when candidates remain. */
  function SlotValue(prev: Option<real>, cands: seq<Cand>, ctx: StickyCtx): real
    requires cands != []
  {
    if prev.Some? then ChooseSticky(prev, cands, ctx).value else cands[0].value
  }

  /** A slot always takes the level of one of the candidates. */
  lemma SlotValueIsCandidate(prev: Option<real>, cands: seq<Cand>, ctx: StickyCtx)
    requires cands != []
    ensures exists k :: 0 <= k < |cands| && cands[k].value == SlotValue(prev, cands, ctx)
  {
    FirstSameLevelSpec(prev, cands, ctx.tolPct);
    if prev.Some? && FirstSameLevel(prev, cands, ctx.tolPct).Some? {
      var k :| 0 <= k < |cands| && cands[k].value == FirstSameLevel(prev, cands, ctx.tolPct).value;
      assert cands[k].value == SlotValue(prev, cands, ctx);
    } else {
      assert cands[0].value == SlotValue(prev, cands, ctx);
    }
  }

  /** The slot loop with the duplicate guard as intended: the chosen value itself
      is marked as used. */
  function Fill(prev: seq<Option<real>>, cands: seq<Cand>, used: seq<real>, ctx: StickyCtx): (r: seq<Option<real>>)
    ensures |r| == |prev|
  {
    if prev == [] then []
    else if cands == [] then [None] + Fill(prev[1..], cands, used, ctx)
    else
      var v := SlotValue(prev[0], cands, ctx);
      [Some(v)] + Fill(prev[1..], Remaining(cands, used + [v], ctx.tolPct), used + [v], ctx)
  }

  /** The source's mark: the first candidate at the same level as the chosen value. */
  function MarkAsWritten(v: real, cands: seq<Cand>, tolPct: real): (r: seq<real>)
    ensures |r| <= 1
  {
    match FirstSameLevel(Some(v), cands, tolPct)
    case None => []
    case Some(u) => [u]
  }

  /** The slot loop as written. */
  function FillAsWritten(prev: seq<Option<real>>, cands: seq<Cand>, used: seq<real>, ctx: StickyCtx): (r: seq<Option<real>>)
    ensures |r| == |prev|
  {
    if prev == [] then []
    else if cands == [] then [None] + FillAsWritten(prev[1..], cands, used, ctx)
    else
      var v := SlotValue(prev[0], cands, ctx);
      var used' := used + MarkAsWritten(v, cands, ctx.tolPct);
      [Some(v)] + FillAsWritten(prev[1..], Remaining(cands, used', ctx.tolPct), used', ctx)
  }

  /** The values held by the non-empty slots, in slot order. */
  function SlotValues(slots: seq<Option<real>>): (r: seq<real>)
    ensures |r| <= |slots|
  {
    if slots == [] then []
    else (if slots[0].Some? then [slots[0].value] else []) + SlotValues(slots[1..])
  }

  // ---------------------------------------------------------------------------
  // Properties of the slot loop

  /** The levels of the candidates, in rank order. */
  function Levels(cs: seq<Cand>): (r: seq<real>)
    ensures |r| == |cs| && forall k :: 0 <= k < |cs| ==> r[k] == cs[k].value
  {
    if cs == [] then [] else [cs[0].value] + Levels(cs[1..])
  }

  lemma LevelOf(c: Cand, cs: seq<Cand>)
    requires c in cs
    ensures c.value in Levels(cs)
  {
    var k :| 0 <= k < |cs| && cs[k] == c;
    assert Levels(cs)[k] == c.value;
  }

  /** With no candidates every slot stays empty. */
  lemma {:induction false} FillWithoutCandidates(prev: seq<Option<real>>, used: seq<real>, ctx: StickyCtx)
    ensures forall k :: 0 <= k < |prev| ==> Fill(prev, [], used, ctx)[k].None?
    decreases |prev|
  {
    if prev != [] {
      FillWithoutCandidates(prev[1..], used, ctx);
      assert Fill(prev, [], used, ctx) == [None] + Fill(prev[1..], [], used, ctx);
    }
  }

  /** Every filled slot holds the level of one of the candidates. */
  lemma {:induction false} FillFromCandidates(prev: seq<Option<real>>, cands: seq<Cand>, used: seq<real>, ctx: StickyCtx)
    ensures forall k :: 0 <= k < |prev| && Fill(prev, cands, used, ctx)[k].Some? ==>
      Fill(prev, cands, used, ctx)[k].value in Levels(cands)
    decreases |prev|
  {
    if prev != [] {
      if cands == [] {
        FillWithoutCandidates(prev, used, ctx);
      } else {
        var v := SlotValue(prev[0], cands, ctx);
        var rest := Remaining(cands, used + [v], ctx.tolPct);
        var tail := Fill(prev[1..], rest, used + [v], ctx);
        assert Fill(prev, cands, used, ctx) == [Some(v)] + tail;
        FillFromCandidates(prev[1..], rest, used + [v], ctx);
        SlotValueIsCandidate(prev[0], cands, ctx);
        var j :| 0 <= j < |cands| && cands[j].value == v;
        assert Levels(cands)[j] == v;
        RemainingSpec(cands, used + [v], ctx.tolPct);
        LevelsCons(v, tail, cands, rest);
      }
    }
  }

  /** A filled row whose head is a candidate level and whose tail holds levels of
      candidates drawn from `cands` holds only levels of `cands`. */
  lemma LevelsCons(v: real, tail: seq<Option<real>>, cands: seq<Cand>, rest: seq<Cand>)
    requires v in Levels(cands)
    requires forall k :: 0 <= k < |tail| && tail[k].Some? ==> tail[k].value in Levels(rest)
    requires forall c :: c in rest ==> c in cands
    ensures var r := [Some(v)] + tail;
      forall k :: 0 <= k < |r| && r[k].Some? ==> r[k].value in Levels(cands)
  {
    var r := [Some(v)] + tail;
    forall k | 0 < k < |r| && r[k].Some?
      ensures r[k].value in Levels(cands)
    {
      assert r[k] == tail[k - 1];
      var m :| 0 <= m < |rest| && Levels(rest)[m] == r[k].value;
      assert rest[m] in rest;
      LevelOf(rest[m], cands);
    }
  }

  /** No two slots of one candle hold the same level. */
  lemma {:induction false} FillDistinctLevels(prev: seq<Option<real>>, cands: seq<Cand>, used: seq<real>, ctx: StickyCtx)
    ensures forall k, j :: 0 <= k < j < |prev| ==>
      !SameLevel(Fill(prev, cands, used, ctx)[k], Fill(prev, cands, used, ctx)[j], ctx.tolPct)
    decreases |prev|
  {
    if prev != [] {
      var r := Fill(prev, cands, used, ctx);
      if cands == [] {
        FillWithoutCandidates(prev, used, ctx);
      } else {
        var v := SlotValue(prev[0], cands, ctx);
        var rest := Remaining(cands, used + [v], ctx.tolPct);
        var tail := Fill(prev[1..], rest, used + [v], ctx);
        assert r == [Some(v)] + tail;
        FillDistinctLevels(prev[1..], rest, used + [v], ctx);
        FillFromCandidates(prev[1..], rest, used + [v], ctx);
        forall j | 0 <= j < |tail| && tail[j].Some?
          ensures !SameLevel(Some(v), tail[j], ctx.tolPct)
        {
          var m :| 0 <= m < |rest| && Levels(rest)[m] == tail[j].value;
          AvoidsUsed(cands, used, v, rest[m], ctx.tolPct);
        }
        ConsDistinct(v, tail, ctx.tolPct);
      }
    }
  }

  lemma ConsDistinct(v: real, tail: seq<Option<real>>, tolPct: real)
    requires forall k, j :: 0 <= k < j < |tail| ==> !SameLevel(tail[k], tail[j], tolPct)
    requires forall j :: 0 <= j < |tail| && tail[j].Some? ==> !SameLevel(Some(v), tail[j], tolPct)
    ensures var r := [Some(v)] + tail;
      forall k, j :: 0 <= k < j < |r| ==> !SameLevel(r[k], r[j], tolPct)
  {
    var r := [Some(v)] + tail;
    forall k, j | 0 <= k < j < |r|
      ensures !SameLevel(r[k], r[j], tolPct)
    {
      assert r[j] == tail[j - 1];
      if k > 0 {
        assert r[k] == tail[k - 1];
      }
    }
  }

  /** A candidate left after marking `v` is not the same level as `v`, either way round. */
  lemma AvoidsUsed(cands: seq<Cand>, used: seq<real>, v: real, c: Cand, tolPct: real)
    requires c in Remaining(cands, used + [v], tolPct)
    ensures !SameLevel(Some(v), Some(c.value), tolPct)
  {
    RemainingSpec(cands, used + [v], tolPct);
    assert v in used + [v];
    SameLevelSymmetric(Some(v), Some(c.value), tolPct);
  }

  /** Dropping used values in two rounds is dropping all of them at once. */
  lemma {:induction false} RemainingTwice(cands: seq<Cand>, a: seq<real>, b: seq<real>, tolPct: real)
    ensures Remaining(Remaining(cands, a, tolPct), b, tolPct) == Remaining(cands, a + b, tolPct)
  {
    if cands != [] {
      RemainingTwice(cands[1..], a, b, tolPct);
      var c := cands[0];
      var inA := exists u :: u in a && SameLevel(Some(c.value), Some(u), tolPct);
      var inB := exists u :: u in b && SameLevel(Some(c.value), Some(u), tolPct);
      assert (exists u :: u in a + b && SameLevel(Some(c.value), Some(u), tolPct)) <==> inA || inB;
      if !inA {
        assert Remaining(cands, a, tolPct) == [c] + Remaining(cands[1..], a, tolPct);
        assert Remaining(cands, a, tolPct)[1..] == Remaining(cands[1..], a, tolPct);
      }
    }
  }

  /** Used values no remaining candidate is the same level as filter nothing out. */
  lemma {:induction false} RemainingUnaffected(cands: seq<Cand>, used: seq<real>, more: seq<real>, tolPct: real)
    requires forall c :: c in cands ==> forall u :: u in used ==> !SameLevel(Some(c.value), Some(u), tolPct)
    ensures Remaining(cands, used + more, tolPct) == Remaining(cands, more, tolPct)
  {
    if cands != [] {
      RemainingUnaffected(cands[1..], used, more, tolPct);
      var c := cands[0];
      assert c in cands;
      assert (exists u :: u in used + more && SameLevel(Some(c.value), Some(u), tolPct))
        <==> (exists u :: u in more && SameLevel(Some(c.value), Some(u), tolPct));
    }
  }

  lemma RemainingNone(cands: seq<Cand>, tolPct: real)
    ensures Remaining(cands, [], tolPct) == cands
  {
    if cands != [] {
      RemainingNone(cands[1..], tolPct);
    }
  }

  /** The candidates left before slot k + 1, seen from the first slot. */
  lemma RemainingAfterFirst(cands: seq<Cand>, used: seq<real>, v: real, later: seq<real>, tolPct: real)
    requires forall c :: c in cands ==> forall u :: u in used ==> !SameLevel(Some(c.value), Some(u), tolPct)
    ensures Remaining(Remaining(cands, used + [v], tolPct), later, tolPct) == Remaining(cands, [v] + later, tolPct)
  {
    RemainingTwice(cands, used + [v], later, tolPct);
    assert used + [v] + later == used + ([v] + later);
    RemainingUnaffected(cands, used, [v] + later, tolPct);
  }

  lemma SlotValuesCons(v: real, tail: seq<Option<real>>, k: nat)
    requires 0 < k <= |tail| + 1
    ensures ([Some(v)] + tail)[..k] == [Some(v)] + tail[..k - 1]
    ensures SlotValues([Some(v)] + tail[..k - 1]) == [v] + SlotValues(tail[..k - 1])
  {
    assert ([Some(v)] + tail[..k - 1])[1..] == tail[..k - 1];
  }

  /** A slot is empty exactly when no candidate is left once the levels of the
      earlier slots are used up; so exactly `max_zones` values are written and the
      empty ones come last. */
  lemma {:induction false} FillEmptyIffExhausted(prev: seq<Option<real>>, cands: seq<Cand>, used: seq<real>, ctx: StickyCtx)
    requires forall c :: c in cands ==> forall u :: u in used ==> !SameLevel(Some(c.value), Some(u), ctx.tolPct)
    ensures forall k :: 0 <= k < |prev| ==>
      (Fill(prev, cands, used, ctx)[k].None? <==>
       Remaining(cands, SlotValues(Fill(prev, cands, used, ctx)[..k]), ctx.tolPct) == [])
    decreases |prev|
  {
    if prev != [] {
      var r := Fill(prev, cands, used, ctx);
      RemainingNone(cands, ctx.tolPct);
      assert r[..0] == [];
      if cands == [] {
        FillEmptyIffExhausted(prev[1..], cands, used, ctx);
      } else {
        var v := SlotValue(prev[0], cands, ctx);
        var rest := Remaining(cands, used + [v], ctx.tolPct);
        var tail := Fill(prev[1..], rest, used + [v], ctx);
        assert r == [Some(v)] + tail;
        RemainingSpec(cands, used + [v], ctx.tolPct);
        FillEmptyIffExhausted(prev[1..], rest, used + [v], ctx);
        forall k | 0 < k < |prev|
          ensures r[k].None? <==> Remaining(cands, SlotValues(r[..k]), ctx.tolPct) == []
        {
          assert r[k] == tail[k - 1];
          SlotValuesCons(v, tail, k);
          RemainingAfterFirst(cands, used, v, SlotValues(tail[..k - 1]), ctx.tolPct);
        }
      }
    }
  }

  /** Slots with no previous value take the top candidate. */
  lemma FillFreshTakesTop(prev: seq<Option<real>>, cands: seq<Cand>, used: seq<real>, ctx: StickyCtx)
    requires |prev| > 0 && prev[0].None? && cands != []
    ensures Fill(prev, cands, used, ctx)[0] == Some(cands[0].value)
  {
  }

  /** A slot with a previous value keeps the first candidate at the same level, and
      otherwise switches to the top candidate. */
  lemma FillSticky(prev: seq<Option<real>>, cands: seq<Cand>, used: seq<real>, ctx: StickyCtx)
    requires |prev| > 0 && prev[0].Some? && cands != []
    ensures FirstSameLevel(prev[0], cands, ctx.tolPct).Some? ==>
      Fill(prev, cands, used, ctx)[0] == FirstSameLevel(prev[0], cands, ctx.tolPct)
    ensures FirstSameLevel(prev[0], cands, ctx.tolPct).None? ==>
      Fill(prev, cands, used, ctx)[0] == Some(cands[0].value)
  {
  }

  // ---------------------------------------------------------------------------
  // Main level

  /** `_nearest_level` for one row: the last slot replaces the best of the earlier
      ones only when it is strictly closer to the close. */
  function NearestLevel(row: seq<Option<real>>, price: real): Option<real>
  {
    if row == [] then None
    else
      var best := NearestLevel(row[..|row| - 1], price);
      var last := row[|row| - 1];
      if last.None? then best
      else if best.None? then last
      else if Abs(last.value - price) < Abs(best.value - price) then last
      else best
  }

  /** `main` is None exactly when every slot is empty, and otherwise the slot value
      closest to `price`, the first of equally close ones. */
  ghost predicate IsNearestSlot(row: seq<Option<real>>, price: real, main: Option<real>)
  {
    && (main.None? <==> forall k :: 0 <= k < |row| ==> row[k].None?)
    && (main.Some? ==> exists k :: (0 <= k < |row| && row[k] == main
         && forall j :: 0 <= j < k && row[j].Some? ==> Abs(row[j].value - price) > Abs(main.value - price)))
    && (main.Some? ==> forall j :: 0 <= j < |row| && row[j].Some? ==> Abs(main.value - price) <= Abs(row[j].value - price))
  }

  lemma {:induction false} NearestLevelSpec(row: seq<Option<real>>, price: real)
    ensures IsNearestSlot(row, price, NearestLevel(row, price))
  {
    if row != [] {
      var init := row[..|row| - 1];
      NearestLevelSpec(init, price);
      var best := NearestLevel(init, price);
      var last := row[|row| - 1];
      assert row == init + [last];
      if last.None? || (best.Some? && Abs(last.value - price) >= Abs(best.value - price)) {
        NearestKeepsBest(init, last, price, best);
      } else {
        NearestTakesLast(init, last.value, price, best);
      }
    }
  }

  /** The step of `NearestLevelSpec` where the earlier best stays. */
  lemma NearestKeepsBest(init: seq<Option<real>>, last: Option<real>, price: real, best: Option<real>)
    requires IsNearestSlot(init, price, best)
    requires last.Some? ==> best.Some? && Abs(best.value - price) <= Abs(last.value - price)
    ensures IsNearestSlot(init + [last], price, best)
  {
    var row := init + [last];
    assert forall j :: 0 <= j < |init| ==> row[j] == init[j];
    if best.Some? {
      var k :| 0 <= k < |init| && init[k] == best
        && forall j :: 0 <= j < k && init[j].Some? ==> Abs(init[j].value - price) > Abs(best.value - price);
      assert row[k] == best;
    }
  }

  /** The step of `NearestLevelSpec` where the last slot wins. */
  lemma NearestTakesLast(init: seq<Option<real>>, last: real, price: real, best: Option<real>)
    requires IsNearestSlot(init, price, best)
    requires best.Some? ==> Abs(last - price) < Abs(best.value - price)
    ensures IsNearestSlot(init + [Some(last)], price, Some(last))
  {
    var row := init + [Some(last)];
    assert forall j :: 0 <= j < |init| ==> row[j] == init[j];
    assert row[|init|] == Some(last);
  }
}

/** A candle at which the source's "used" mark lets two slots hold the same level. */
module BreakoutStickyExample {
  import opened Common
  import opened BreakoutSticky

  /** Three active zones around a close of 100 with a 1% level tolerance. */
  function Ctx(): StickyCtx
  {
    StickyCtx(100.0, 1.0, 0.2)
  }

  function Ranked(): seq<Cand>
  {
    [Cand(100.0, 5, 0.0), Cand(101.0, 4, 1.0), Cand(102.0, 3, 2.0)]
  }

  /** Slot S1 held 102 at the previous candle, slot S2 was empty. */
  function Previous(): seq<Option<real>>
  {
    [Some(102.0), None]
  }

  lemma RankedIsRanked()
    ensures Rank(Ranked()) == Ranked()
  {
  }

  lemma FirstSlotKeeps101()
    ensures SlotValue(Some(102.0), Ranked(), Ctx()) == 101.0
  {
    assert !SameLevel(Some(102.0), Some(100.0), 1.0);
    assert SameLevel(Some(102.0), Some(101.0), 1.0);
    assert FirstSameLevel(Some(102.0), Ranked(), 1.0) == Some(101.0);
  }

  lemma MarkGoesTo100()
    ensures MarkAsWritten(101.0, Ranked(), 1.0) == [100.0]
  {
    assert SameLevel(Some(101.0), Some(100.0), 1.0);
  }

  lemma Only102Survives()
    ensures Remaining(Ranked(), [] + [100.0], 1.0) == [Cand(102.0, 3, 2.0)]
  {
    var cands := Ranked();
    assert SameLevel(Some(100.0), Some(100.0), 1.0);
    assert SameLevel(Some(101.0), Some(100.0), 1.0);
    assert !SameLevel(Some(102.0), Some(100.0), 1.0);
    assert cands[1..][1..] == [Cand(102.0, 3, 2.0)];
    assert !exists u :: u in [100.0] && SameLevel(Some(102.0), Some(u), 1.0);
    assert Remaining([Cand(102.0, 3, 2.0)], [100.0], 1.0) == [Cand(102.0, 3, 2.0)] + Remaining([], [100.0], 1.0);
    assert Remaining(cands[1..], [100.0], 1.0) == Remaining(cands[1..][1..], [100.0], 1.0);
    assert 100.0 in [100.0];
    assert [] + [100.0] == [100.0];
    assert Remaining(cands, [100.0], 1.0) == Remaining(cands[1..], [100.0], 1.0);
  }

  lemma NothingSurvives101()
    ensures Remaining(Ranked(), [] + [101.0], 1.0) == []
  {
    var cands := Ranked();
    assert SameLevel(Some(100.0), Some(101.0), 1.0);
    assert SameLevel(Some(101.0), Some(101.0), 1.0);
    assert SameLevel(Some(102.0), Some(101.0), 1.0);
    var used := [] + [101.0];
    assert 101.0 in used;
    assert cands[1..][1..] == [Cand(102.0, 3, 2.0)];
    assert Remaining(cands[1..][1..], used, 1.0) == [];
    assert Remaining(cands[1..], used, 1.0) == [];
  }

  /** S1 keeps the level 101 (the first candidate within 1% of 102), the mark goes
      to 100 instead of 101, and 102 survives the filter: S2 = 102 is within 1% of
      S1 = 101. */
  lemma StickyDuplicateCounterexample()
    ensures FillAsWritten(Previous(), Ranked(), [], Ctx()) == [Some(101.0), Some(102.0)]
    ensures SameLevel(Some(101.0), Some(102.0), Ctx().tolPct)
  {
    FirstSlotKeeps101();
    MarkGoesTo100();
    Only102Survives();
    var rest := [Cand(102.0, 3, 2.0)];
    assert FillAsWritten([None], rest, [100.0], Ctx()) == [Some(102.0)];
  }

  /** Marking the chosen level itself leaves S2 empty. */
  lemma StickyDuplicateCorrected()
    ensures Fill(Previous(), Ranked(), [], Ctx()) == [Some(101.0), None]
  {
    FirstSlotKeeps101();
    NothingSurvives101();
    assert Fill([None], [], [101.0], Ctx()) == [None];
  }
}
