/** The linear sweep of `_assign_sticky`: zones are bucketed by start and end
    candle, activated at x0 and removed at x1 + 1, ranked at every candle, and the
    S1..SN / R1..RN slots are filled from the ranking and the previous candle's
    slots. */
module BreakoutSweep {
  import opened Common
  import opened StableSort
  import opened BreakoutConfig
  import opened BreakoutScan
  import opened BreakoutSticky

  // ---------------------------------------------------------------------------
  // `_bucket_zones`

  function Key(z: Zone, byEnd: bool): int
  {
    if byEnd then z.x1 else z.x0
  }

  /** The zones whose start (or end) candle is k, in input order. */
  function KeyFilter(zs: seq<Zone>, byEnd: bool, k: int): seq<Zone>
  {
    if zs == [] then []
    else
      var last := zs[|zs| - 1];
      KeyFilter(zs[..|zs| - 1], byEnd, k) + (if Key(last, byEnd) == k then [last] else [])
  }

  /** `setdefault(key, []).append(z)` over all zones: bucket k lists the zones
      whose key is k, in input order, and only keys of some zone are present. */
  function Bucket(zs: seq<Zone>, byEnd: bool): (m: map<int, seq<Zone>>)
    ensures forall k :: Get(m, k) == KeyFilter(zs, byEnd, k)
    ensures forall k :: k in m ==> m[k] != []
  {
    if zs == [] then map[]
    else
      var init := zs[..|zs| - 1];
      var z := zs[|zs| - 1];
      var m := Bucket(init, byEnd);
      var key := Key(z, byEnd);
      var m' := m[key := Get(m, key) + [z]];
      assert forall k :: Get(m', k) == KeyFilter(zs, byEnd, k) by {
        forall k
          ensures Get(m', k) == KeyFilter(zs, byEnd, k)
        {
          assert KeyFilter(zs, byEnd, k) == KeyFilter(init, byEnd, k) + (if key == k then [z] else []);
        }
      }
      m'
  }

  /** `dict.get(k, [])`. */
  function Get(m: map<int, seq<Zone>>, k: int): seq<Zone>
  {
    if k in m then m[k] else []
  }

  /** `_bucket_zones`: the start buckets and the end buckets. */
  function BucketZones(zs: seq<Zone>): (r: (map<int, seq<Zone>>, map<int, seq<Zone>>))
    ensures forall k :: Get(r.0, k) == KeyFilter(zs, false, k)
    ensures forall k :: Get(r.1, k) == KeyFilter(zs, true, k)
  {
    (Bucket(zs, false), Bucket(zs, true))
  }

  // ---------------------------------------------------------------------------
  // Active zones

  function OfSide(zs: seq<Zone>, side: Side): seq<Zone>
  {
    if zs == [] then []
    else
      var last := zs[|zs| - 1];
      OfSide(zs[..|zs| - 1], side) + (if last.side == side then [last] else [])
  }

  lemma {:induction false} OfSideAppend(a: seq<Zone>, b: seq<Zone>, side: Side)
    ensures OfSide(a + b, side) == OfSide(a, side) + OfSide(b, side)
    decreases |b|
  {
    if b != [] {
      var b' := b[..|b| - 1];
      assert (a + b)[..|a + b| - 1] == a + b';
      OfSideAppend(a, b', side);
    } else {
      assert a + b == a;
    }
  }

  /** The zones of one side active at candle i: x0 <= i <= x1. */
  function ActiveAt(zs: seq<Zone>, side: Side, i: int): (r: seq<Zone>)
    ensures forall z :: z in r ==> z in zs && z.side == side && z.x0 <= i <= z.x1
  {
    if zs == [] then []
    else
      var last := zs[|zs| - 1];
      ActiveAt(zs[..|zs| - 1], side, i)
      + (if last.side == side && last.x0 <= i <= last.x1 then [last] else [])
  }

  ghost predicate Ordered(zs: seq<Zone>)
  {
    forall k :: 0 <= k < |zs| ==> 0 <= zs[k].x0 <= zs[k].x1
  }

  /** Going from candle i - 1 to candle i adds the zones starting at i and drops
      those that ended at i - 1. */
  lemma {:induction false} ActiveStep(zs: seq<Zone>, side: Side, i: int)
    requires Ordered(zs)
    ensures multiset(ActiveAt(zs, side, i)) + multiset(OfSide(KeyFilter(zs, true, i - 1), side))
         == multiset(ActiveAt(zs, side, i - 1)) + multiset(OfSide(KeyFilter(zs, false, i), side))
  {
    if zs != [] {
      var k := |zs| - 1;
      var z := zs[k];
      var init := zs[..k];
      assert Ordered(init);
      ActiveStep(init, side, i);
      var ends := if z.x1 == i - 1 then [z] else [];
      var starts := if z.x0 == i then [z] else [];
      assert KeyFilter(zs, true, i - 1) == KeyFilter(init, true, i - 1) + ends;
      assert KeyFilter(zs, false, i) == KeyFilter(init, false, i) + starts;
      OfSideAppend(KeyFilter(init, true, i - 1), ends, side);
      OfSideAppend(KeyFilter(init, false, i), starts, side);
      var now := if z.side == side && z.x0 <= i <= z.x1 then [z] else [];
      var before := if z.side == side && z.x0 <= i - 1 <= z.x1 then [z] else [];
      assert ActiveAt(zs, side, i) == ActiveAt(init, side, i) + now;
      assert ActiveAt(zs, side, i - 1) == ActiveAt(init, side, i - 1) + before;
      assert 0 <= z.x0 <= z.x1;
      StepForOne(z, side, i);
      var a1, e1 := ActiveAt(init, side, i), OfSide(KeyFilter(init, true, i - 1), side);
      var a0, s0 := ActiveAt(init, side, i - 1), OfSide(KeyFilter(init, false, i), side);
      assert multiset(a1 + now) == multiset(a1) + multiset(now);
      assert multiset(e1 + OfSide(ends, side)) == multiset(e1) + multiset(OfSide(ends, side));
      assert multiset(a0 + before) == multiset(a0) + multiset(before);
      assert multiset(s0 + OfSide(starts, side)) == multiset(s0) + multiset(OfSide(starts, side));
      AddSteps(multiset(a1), multiset(e1), multiset(a0), multiset(s0),
        multiset(now), multiset(OfSide(ends, side)), multiset(before), multiset(OfSide(starts, side)));
    }
  }

  lemma AddSteps(a1: multiset<Zone>, e1: multiset<Zone>, a0: multiset<Zone>, s0: multiset<Zone>,
                 n: multiset<Zone>, e: multiset<Zone>, b: multiset<Zone>, st: multiset<Zone>)
    requires a1 + e1 == a0 + s0
    requires n + e == b + st
    ensures (a1 + n) + (e1 + e) == (a0 + b) + (s0 + st)
  {
    calc {
      (a1 + n) + (e1 + e);
      (a1 + e1) + (n + e);
      (a0 + s0) + (b + st);
      (a0 + b) + (s0 + st);
    }
  }

  /** The same step for a single zone. */
  lemma StepForOne(z: Zone, side: Side, i: int)
    requires 0 <= z.x0 <= z.x1
    ensures multiset(if z.side == side && z.x0 <= i <= z.x1 then [z] else [])
          + multiset(OfSide(if z.x1 == i - 1 then [z] else [], side))
         == multiset(if z.side == side && z.x0 <= i - 1 <= z.x1 then [z] else [])
          + multiset(OfSide(if z.x0 == i then [z] else [], side))
  {
    assert OfSide([z], side) == (if z.side == side then [z] else []) by {
      assert [z][..0] == [];
    }
  }

  /** Before the first candle nothing is active. */
  lemma {:induction false} NothingActiveBeforeStart(zs: seq<Zone>, side: Side)
    requires Ordered(zs)
    ensures ActiveAt(zs, side, -1) == []
  {
    if zs != [] {
      assert Ordered(zs[..|zs| - 1]);
      NothingActiveBeforeStart(zs[..|zs| - 1], side);
    }
  }

  /** `list.remove`: drops the first occurrence; a missing zone is ignored. */
  function RemoveFirst(s: seq<Zone>, z: Zone): (r: seq<Zone>)
    ensures z in s ==> multiset(r) == multiset(s) - multiset{z}
    ensures z !in s ==> r == s
  {
    if s == [] then []
    else if s[0] == z then
      assert s == [s[0]] + s[1..];
      s[1..]
    else
      assert s == [s[0]] + s[1..];
      [s[0]] + RemoveFirst(s[1..], z)
  }

  /** Removing the zones of `rm` one after the other. */
  function RemoveEach(s: seq<Zone>, rm: seq<Zone>): seq<Zone>
  {
    if rm == [] then s else RemoveFirst(RemoveEach(s, rm[..|rm| - 1]), rm[|rm| - 1])
  }

  lemma {:induction false} RemoveEachMultiset(s: seq<Zone>, rm: seq<Zone>)
    requires multiset(rm) <= multiset(s)
    ensures multiset(RemoveEach(s, rm)) == multiset(s) - multiset(rm)
  {
    if rm != [] {
      var init := rm[..|rm| - 1];
      var z := rm[|rm| - 1];
      assert rm == init + [z];
      assert multiset(rm) == multiset(init) + multiset{z};
      RemoveEachMultiset(s, init);
      assert z in multiset(s) - multiset(init);
    }
  }

  // ---------------------------------------------------------------------------
  // Ranking at a candle

  /** One active zone as a ranking candidate at the close `price`. */
  function ToCand(z: Zone, price: real): Cand
  {
    Cand(z.value, z.count, Abs(z.value - price))
  }

  /** `rank_candidates`' dictionaries, before sorting. */
  function CandsOf(zs: seq<Zone>, price: real): (r: seq<Cand>)
    ensures |r| == |zs|
  {
    if zs == [] then [] else [ToCand(zs[0], price)] + CandsOf(zs[1..], price)
  }

  lemma {:induction false} CandsOfAt(zs: seq<Zone>, price: real, k: nat)
    requires k < |zs|
    ensures CandsOf(zs, price)[k] == ToCand(zs[k], price)
  {
    if k > 0 {
      CandsOfAt(zs[1..], price, k - 1);
    }
  }

  lemma {:induction false} CandsOfAppend(a: seq<Zone>, b: seq<Zone>, price: real)
    ensures CandsOf(a + b, price) == CandsOf(a, price) + CandsOf(b, price)
  {
    if a != [] {
      CandsOfAppend(a[1..], b, price);
      assert (a + b)[1..] == a[1..] + b;
      assert (a + b)[0] == a[0];
    } else {
      assert a + b == b;
    }
  }

  /** Removing the zone at j removes its candidate. */
  lemma CandsOfRemove(b: seq<Zone>, j: nat, price: real)
    requires j < |b|
    ensures multiset(CandsOf(b, price)) == multiset{ToCand(b[j], price)} + multiset(CandsOf(b[..j] + b[j + 1..], price))
  {
    var lo, hi := CandsOf(b[..j], price), CandsOf(b[j + 1..], price);
    assert b == b[..j] + ([b[j]] + b[j + 1..]);
    CandsOfAppend(b[..j], [b[j]] + b[j + 1..], price);
    CandsOfAppend([b[j]], b[j + 1..], price);
    CandsOfAppend(b[..j], b[j + 1..], price);
    assert CandsOf([b[j]], price) == [ToCand(b[j], price)];
    assert CandsOf(b, price) == lo + ([ToCand(b[j], price)] + hi);
  }

  lemma RemoveAtMultiset(b: seq<Zone>, j: nat)
    requires j < |b|
    ensures multiset(b[..j] + b[j + 1..]) == multiset(b) - multiset{b[j]}
  {
    assert b == b[..j] + ([b[j]] + b[j + 1..]);
  }

  /** The candidates depend only on which zones are active, not on their order. */
  lemma {:induction false} CandsOfPermutation(a: seq<Zone>, b: seq<Zone>, price: real)
    requires multiset(a) == multiset(b)
    ensures multiset(CandsOf(a, price)) == multiset(CandsOf(b, price))
    decreases |a|
  {
    if a != [] {
      var z := a[0];
      assert z in multiset(b);
      var j :| 0 <= j < |b| && b[j] == z;
      var b' := b[..j] + b[j + 1..];
      RemoveAtMultiset(b, j);
      assert a == [z] + a[1..];
      assert multiset(a[1..]) == multiset(a) - multiset{z};
      CandsOfPermutation(a[1..], b', price);
      CandsOfRemove(b, j, price);
      assert CandsOf(a, price) == [ToCand(z, price)] + CandsOf(a[1..], price);
    }
  }

  /** The ranked candidates of one side at candle i. */
  function RankedAt(s: Series, zones: seq<Zone>, side: Side, i: int): seq<Cand>
    requires 0 <= i < s.Len()
  {
    Rank(CandsOf(ActiveAt(zones, side, i), s.bars[i].close))
  }

  lemma RankOfActive(s: Series, zones: seq<Zone>, side: Side, i: int, active: seq<Zone>)
    requires 0 <= i < s.Len()
    requires multiset(active) == multiset(ActiveAt(zones, side, i))
    ensures Rank(CandsOf(active, s.bars[i].close)) == RankedAt(s, zones, side, i)
  {
    CandsOfPermutation(active, ActiveAt(zones, side, i), s.bars[i].close);
    CandLeIsTotalOrder();
    SortDeterminedByMultiset(CandsOf(active, s.bars[i].close), CandsOf(ActiveAt(zones, side, i), s.bars[i].close), CandLe);
  }

  // ---------------------------------------------------------------------------
  // The slot table

  function Nones(m: nat): (r: seq<Option<real>>)
    ensures |r| == m && forall k :: 0 <= k < m ==> r[k].None?
  {
    if m == 0 then [] else Nones(m - 1) + [None]
  }

  function CtxAt(p: Params, s: Series, i: int): StickyCtx
    requires 0 <= i < s.Len()
  {
    StickyCtx(s.bars[i].close, p.levelTolPct, p.hysteresisRatio)
  }

  /** The slots of the previous candle; all empty before the first one. */
  function PrevSlots(p: Params, s: Series, zones: seq<Zone>, side: Side, i: nat): (r: seq<Option<real>>)
    requires i <= s.Len()
    ensures |r| == p.maxZones
    decreases i, 1
  {
    if i == 0 then Nones(p.maxZones) else SlotRow(p, s, zones, side, i - 1)
  }

  /** The slots of one side at candle i, filled from the ranking at i and the
      slots of candle i - 1. */
  function SlotRow(p: Params, s: Series, zones: seq<Zone>, side: Side, i: nat): (row: seq<Option<real>>)
    requires i < s.Len()
    ensures |row| == p.maxZones
    decreases i, 2
  {
    Fill(PrevSlots(p, s, zones, side, i), RankedAt(s, zones, side, i), [], CtxAt(p, s, i))
  }

  /** The slot rows of one side for all candles. */
  function SlotRows(p: Params, s: Series, zones: seq<Zone>, side: Side): (rows: seq<seq<Option<real>>>)
    ensures |rows| == s.Len()
    ensures forall i :: 0 <= i < s.Len() ==> rows[i] == SlotRow(p, s, zones, side, i)
  {
    seq(s.Len(), i requires 0 <= i < s.Len() => SlotRow(p, s, zones, side, i))
  }

  /** The written columns: S1..SN, R1..RN per candle, and the two main levels. */
  datatype StickyTable = StickyTable(
    support: seq<seq<Option<real>>>,
    resistance: seq<seq<Option<real>>>,
    mainSupport: seq<Option<real>>,
    mainResistance: seq<Option<real>>)

  /** `_nearest_level` over all candles. */
  function MainLevels(rows: seq<seq<Option<real>>>, s: Series): (r: seq<Option<real>>)
    requires |rows| == s.Len()
    ensures |r| == |rows|
    ensures forall i :: 0 <= i < |rows| ==> r[i] == NearestLevel(rows[i], s.bars[i].close)
  {
    seq(|rows|, i requires 0 <= i < |rows| => NearestLevel(rows[i], s.bars[i].close))
  }

  function StickySpec(p: Params, s: Series, zones: seq<Zone>): StickyTable
  {
    var sup := SlotRows(p, s, zones, Support);
    var res := SlotRows(p, s, zones, Resistance);
    StickyTable(sup, res, MainLevels(sup, s), MainLevels(res, s))
  }

  // ---------------------------------------------------------------------------
  // Properties of the table

  /** A level in the ranking at candle i is the level of a zone of that side active
      at candle i. */
  lemma RankedLevelIsActive(s: Series, zones: seq<Zone>, side: Side, i: int, v: real)
    requires 0 <= i < s.Len()
    requires v in Levels(RankedAt(s, zones, side, i))
    ensures exists z :: z in zones && z.side == side && z.x0 <= i <= z.x1 && z.value == v
  {
    var ranked := RankedAt(s, zones, side, i);
    var active := ActiveAt(zones, side, i);
    var cs := CandsOf(active, s.bars[i].close);
    var m :| 0 <= m < |ranked| && Levels(ranked)[m] == v;
    assert ranked[m] in multiset(cs);
    var j :| 0 <= j < |cs| && cs[j] == ranked[m];
    CandsOfAt(active, s.bars[i].close, j);
    assert active[j] in active;
  }

  /** For every candle and side: exactly `max_zones` slots are written; a slot is
      empty exactly when no candidate is left after the earlier slots' levels; a
      filled slot holds the level of a zone of that side active at that candle;
      and no two slots hold the same level. */
  lemma SlotTableProperties(p: Params, s: Series, zones: seq<Zone>, side: Side, i: nat)
    requires i < s.Len()
    ensures var row := SlotRows(p, s, zones, side)[i];
      && |row| == p.maxZones
      && (forall k :: 0 <= k < |row| ==>
           (row[k].None? <==> Remaining(RankedAt(s, zones, side, i), SlotValues(row[..k]), p.levelTolPct) == []))
      && (forall k :: 0 <= k < |row| && row[k].Some? ==>
           exists z :: z in zones && z.side == side && z.x0 <= i <= z.x1 && z.value == row[k].value)
      && (forall k, j :: 0 <= k < j < |row| ==> !SameLevel(row[k], row[j], p.levelTolPct))
  {
    var prev := PrevSlots(p, s, zones, side, i);
    var ranked := RankedAt(s, zones, side, i);
    var row := Fill(prev, ranked, [], CtxAt(p, s, i));
    FillEmptyIffExhausted(prev, ranked, [], CtxAt(p, s, i));
    FillDistinctLevels(prev, ranked, [], CtxAt(p, s, i));
    FillFromCandidates(prev, ranked, [], CtxAt(p, s, i));
    forall k | 0 <= k < |row| && row[k].Some?
      ensures exists z :: z in zones && z.side == side && z.x0 <= i <= z.x1 && z.value == row[k].value
    {
      RankedLevelIsActive(s, zones, side, i, row[k].value);
    }
  }

  // ---------------------------------------------------------------------------
  // The sweep

  /** Activation of the zones starting at the current candle. */
  method Activate(bucket: seq<Zone>, sup: seq<Zone>, res: seq<Zone>) returns (sup': seq<Zone>, res': seq<Zone>)
    ensures sup' == sup + OfSide(bucket, Support)
    ensures res' == res + OfSide(bucket, Resistance)
  {
    sup', res' := sup, res;
    for k := 0 to |bucket|
      invariant sup' == sup + OfSide(bucket[..k], Support)
      invariant res' == res + OfSide(bucket[..k], Resistance)
    {
      assert bucket[..k + 1][..k] == bucket[..k];
      var z := bucket[k];
      if z.side == Support {
        sup' := sup' + [z];
      } else {
        res' := res' + [z];
      }
    }
    assert bucket[..|bucket|] == bucket;
  }

  /** One more zone of the bucket removes that zone when it is of the side. */
  lemma RemoveEachStep(s: seq<Zone>, bucket: seq<Zone>, k: int, side: Side)
    requires 0 <= k < |bucket|
    ensures RemoveEach(s, OfSide(bucket[..k + 1], side)) ==
      if bucket[k].side == side then RemoveFirst(RemoveEach(s, OfSide(bucket[..k], side)), bucket[k])
      else RemoveEach(s, OfSide(bucket[..k], side))
  {
    assert bucket[..k + 1][..k] == bucket[..k];
    var rm := OfSide(bucket[..k], side);
    if bucket[k].side == side {
      assert (rm + [bucket[k]])[..|rm|] == rm;
    } else {
      assert rm + [] == rm;
    }
  }

  /** Deactivation of the zones that ended at the previous candle. */
  method Deactivate(bucket: seq<Zone>, sup: seq<Zone>, res: seq<Zone>) returns (sup': seq<Zone>, res': seq<Zone>)
    ensures sup' == RemoveEach(sup, OfSide(bucket, Support))
    ensures res' == RemoveEach(res, OfSide(bucket, Resistance))
  {
    sup', res' := sup, res;
    for k := 0 to |bucket|
      invariant sup' == RemoveEach(sup, OfSide(bucket[..k], Support))
      invariant res' == RemoveEach(res, OfSide(bucket[..k], Resistance))
    {
      RemoveEachStep(sup, bucket, k, Support);
      RemoveEachStep(res, bucket, k, Resistance);
      var z := bucket[k];
      if z.side == Support {
        if z in sup' {
          sup' := RemoveFirst(sup', z);
        }
      } else {
        if z in res' {
          res' := RemoveFirst(res', z);
        }
      }
    }
    assert bucket[..|bucket|] == bucket;
  }

  /** The active list of one side after the two bucket loops of candle i. */
  lemma ActiveAfterStep(zones: seq<Zone>, side: Side, i: int, before: seq<Zone>)
    requires Ordered(zones)
    requires multiset(before) == multiset(ActiveAt(zones, side, i - 1))
    ensures multiset(RemoveEach(before + OfSide(KeyFilter(zones, false, i), side), OfSide(KeyFilter(zones, true, i - 1), side)))
         == multiset(ActiveAt(zones, side, i))
  {
    var added := before + OfSide(KeyFilter(zones, false, i), side);
    var ended := OfSide(KeyFilter(zones, true, i - 1), side);
    ActiveStep(zones, side, i);
    assert multiset(added) == multiset(ActiveAt(zones, side, i)) + multiset(ended);
    RemoveEachMultiset(added, ended);
  }

  /** One slot of the fill: the slot with no candidates left stays empty,
      otherwise it takes `SlotValue` and that level is marked as used. */
  method NextSlot(prev: Option<real>, cands: seq<Cand>, used: seq<real>, ctx: StickyCtx)
    returns (val: Option<real>, cands': seq<Cand>, used': seq<real>)
    ensures val.None? <==> cands == []
    ensures cands == [] ==> cands' == cands && used' == used
    ensures cands != [] ==> var v := SlotValue(prev, cands, ctx);
      val == Some(v) && used' == used + [v] && cands' == Remaining(cands, used', ctx.tolPct)
  {
    val, cands', used' := None, cands, used;
    if cands != [] {
      var v := if prev.Some? then ChooseSticky(prev, cands, ctx).value else cands[0].value;
      used' := used + [v];
      cands' := Remaining(cands, used', ctx.tolPct);
      val := Some(v);
    }
  }

  /** The fill of the suffix from slot k is the slot chosen by `NextSlot` followed
      by the fill of the suffix from slot k + 1. */
  lemma FillStep(prev0: seq<Option<real>>, k: nat, cands: seq<Cand>, used: seq<real>, ctx: StickyCtx,
                 row: seq<Option<real>>, val: Option<real>, cands': seq<Cand>, used': seq<real>)
    requires k < |prev0|
    requires val.None? <==> cands == []
    requires cands == [] ==> cands' == cands && used' == used
    requires cands != [] ==> var v := SlotValue(prev0[k], cands, ctx);
      val == Some(v) && used' == used + [v] && cands' == Remaining(cands, used', ctx.tolPct)
    ensures (row + [val]) + Fill(prev0[k + 1..], cands', used', ctx) == row + Fill(prev0[k..], cands, used, ctx)
  {
    var suffix := prev0[k..];
    assert suffix[0] == prev0[k];
    assert suffix[1..] == prev0[k + 1..];
    assert Fill(suffix, cands, used, ctx) == [val] + Fill(prev0[k + 1..], cands', used', ctx);
  }

  /** The slot loop of one side at one candle, with the duplicate guard marking the
      chosen level (see `FillAsWritten` for the source's mark). */
  method FillSlots(prev: array<Option<real>>, ranked: seq<Cand>, ctx: StickyCtx) returns (row: seq<Option<real>>)
    modifies prev
    ensures row == Fill(old(prev[..]), ranked, [], ctx)
    ensures prev[..] == row
  {
    ghost var prev0 := prev[..];
    var used: seq<real> := [];
    var cands := ranked;
    row := [];
    for k := 0 to prev.Length
      invariant prev[..k] == row
      invariant prev[k..] == prev0[k..]
      invariant row + Fill(prev0[k..], cands, used, ctx) == Fill(prev0, ranked, [], ctx)
    {
      var val, cands', used' := NextSlot(prev[k], cands, used, ctx);
      FillStep(prev0, k, cands, used, ctx, row, val, cands', used');
      cands, used := cands', used';
      prev[k] := val;
      row := row + [val];
      assert prev[..k + 1] == prev[..k] + [prev[k]];
    }
    assert prev0[prev.Length..] == [];
  }

  /** The two bucket loops of candle i: the zones starting at i join the active
      lists and the zones that ended at i - 1 leave them. */
  method AdvanceActive(zones: seq<Zone>, started: seq<Zone>, ended: seq<Zone>, i: int, sup: seq<Zone>, res: seq<Zone>)
    returns (sup': seq<Zone>, res': seq<Zone>)
    requires Ordered(zones)
    requires started == KeyFilter(zones, false, i) && ended == KeyFilter(zones, true, i - 1)
    requires multiset(sup) == multiset(ActiveAt(zones, Support, i - 1))
    requires multiset(res) == multiset(ActiveAt(zones, Resistance, i - 1))
    ensures multiset(sup') == multiset(ActiveAt(zones, Support, i))
    ensures multiset(res') == multiset(ActiveAt(zones, Resistance, i))
  {
    ActiveAfterStep(zones, Support, i, sup);
    ActiveAfterStep(zones, Resistance, i, res);
    sup', res' := Activate(started, sup, res);
    sup', res' := Deactivate(ended, sup', res');
  }

  /** The ranking and slot loop of one side at candle i, given the active list of
      that side and the slots of candle i - 1. */
  method SlotsAt(p: Params, s: Series, zones: seq<Zone>, side: Side, i: nat, active: seq<Zone>, prev: array<Option<real>>)
    returns (row: seq<Option<real>>)
    requires i < s.Len()
    requires multiset(active) == multiset(ActiveAt(zones, side, i))
    requires prev[..] == PrevSlots(p, s, zones, side, i)
    modifies prev
    ensures row == SlotRow(p, s, zones, side, i)
    ensures prev[..] == row
  {
    var cands := Rank(CandsOf(active, s.bars[i].close));
    RankOfActive(s, zones, side, i, active);
    var ctx := StickyCtx(s.bars[i].close, p.levelTolPct, p.hysteresisRatio);
    row := FillSlots(prev, cands, ctx);
  }

  /** The candle loop of `_assign_sticky`: the active lists and the previous
      slots carried from candle to candle. */
  method Sweep(p: Params, s: Series, zones: seq<Zone>, byStart: map<int, seq<Zone>>, byEnd: map<int, seq<Zone>>,
               prevSup: array<Option<real>>, prevRes: array<Option<real>>)
    returns (supRows: seq<seq<Option<real>>>, resRows: seq<seq<Option<real>>>)
    requires Ordered(zones)
    requires forall k :: Get(byStart, k) == KeyFilter(zones, false, k)
    requires forall k :: Get(byEnd, k) == KeyFilter(zones, true, k)
    requires prevSup != prevRes
    requires prevSup[..] == Nones(p.maxZones) && prevRes[..] == Nones(p.maxZones)
    modifies prevSup, prevRes
    ensures supRows == SlotRows(p, s, zones, Support)
    ensures resRows == SlotRows(p, s, zones, Resistance)
  {
    var activeSup: seq<Zone> := [];
    var activeRes: seq<Zone> := [];
    supRows, resRows := [], [];
    NothingActiveBeforeStart(zones, Support);
    NothingActiveBeforeStart(zones, Resistance);
    for i := 0 to s.Len()
      invariant multiset(activeSup) == multiset(ActiveAt(zones, Support, i - 1))
      invariant multiset(activeRes) == multiset(ActiveAt(zones, Resistance, i - 1))
      invariant supRows == SlotRows(p, s, zones, Support)[..i]
      invariant resRows == SlotRows(p, s, zones, Resistance)[..i]
      invariant prevSup[..] == PrevSlots(p, s, zones, Support, i)
      invariant prevRes[..] == PrevSlots(p, s, zones, Resistance, i)
    {
      activeSup, activeRes := AdvanceActive(zones, Get(byStart, i), Get(byEnd, i - 1), i, activeSup, activeRes);
      var supRow := SlotsAt(p, s, zones, Support, i, activeSup, prevSup);
      var resRow := SlotsAt(p, s, zones, Resistance, i, activeRes, prevRes);
      supRows := supRows + [supRow];
      resRows := resRows + [resRow];
      assert SlotRows(p, s, zones, Support)[..i + 1] == SlotRows(p, s, zones, Support)[..i] + [supRow];
      assert SlotRows(p, s, zones, Resistance)[..i + 1] == SlotRows(p, s, zones, Resistance)[..i] + [resRow];
    }
    assert SlotRows(p, s, zones, Support)[..s.Len()] == SlotRows(p, s, zones, Support);
    assert SlotRows(p, s, zones, Resistance)[..s.Len()] == SlotRows(p, s, zones, Resistance);
  }

  /** `prev_sup` / `prev_res`: one empty slot per zone rank. */
  method EmptySlots(m: nat) returns (a: array<Option<real>>)
    ensures fresh(a)
    ensures a[..] == Nones(m)
  {
    a := new Option<real>[m](_ => None);
    assert forall k :: 0 <= k < m ==> a[k] == Nones(m)[k];
  }

  /** `_assign_sticky`, on zones as the builder returns them. */
  method AssignSticky(p: Params, s: Series, zones: seq<Zone>) returns (table: StickyTable)
    requires ValidZones(zones, s.Len())
    ensures table == StickySpec(p, s, zones)
  {
    var buckets := BucketZones(zones);
    var prevSup := EmptySlots(p.maxZones);
    var prevRes := EmptySlots(p.maxZones);
    assert Ordered(zones);
    var supRows, resRows := Sweep(p, s, zones, buckets.0, buckets.1, prevSup, prevRes);
    table := StickyTable(supRows, resRows, MainLevels(supRows, s), MainLevels(resRows, s));
  }
}
