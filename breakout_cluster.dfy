/** Greedy clustering of pivot prices (`_cluster_pivots`): the values are sorted,
    and each value joins the running cluster when its relative distance to the
    cluster's mean is within the threshold, otherwise it opens a new cluster. */
module BreakoutCluster {
  import opened Common
  import opened StableSort

  /** A cluster summary: its mean and its number of pivots. */
  datatype Cluster = Cluster(center: real, count: nat)

  function RealLe(a: real, b: real): bool
  {
    a <= b
  }

  lemma RealLeIsTotalOrder()
    ensures TotalOrder(RealLe)
  {
  }

  /** `np.sort`: ascending order. */
  function SortReals(s: seq<real>): (r: seq<real>)
    ensures |r| == |s| && multiset(r) == multiset(s)
  {
    Sort(s, RealLe)
  }

  lemma SortRealsAscending(s: seq<real>)
    ensures forall i, j :: 0 <= i < j < |s| ==> SortReals(s)[i] <= SortReals(s)[j]
  {
    SortSorted(s, RealLe);
  }

  /** The relative distance of `v` to the mean of `cur` is within `threshold`. */
  predicate Absorbs(cur: seq<real>, v: real, threshold: real)
    requires |cur| > 0
  {
    Abs(v - Mean(cur)) / Max(Mean(cur), 0.000000001) <= threshold
  }

  /** The joining rule as a value, so that the grouping lemmas below hold for any
      rule and never look inside the arithmetic. */
  function Joins(threshold: real): (seq<real>, real) -> bool
  {
    (cur: seq<real>, v: real) => |cur| > 0 && Absorbs(cur, v, threshold)
  }

  /** The clusters produced from a running cluster `cur` and the values still to scan. */
  function GroupsFrom(cur: seq<real>, rest: seq<real>, joins: (seq<real>, real) -> bool): (r: seq<seq<real>>)
    requires |cur| > 0
    decreases |rest|
  {
    if rest == [] then [cur]
    else if joins(cur, rest[0]) then GroupsFrom(cur + [rest[0]], rest[1..], joins)
    else [cur] + GroupsFrom([rest[0]], rest[1..], joins)
  }

  /** The clusters of an already sorted sequence, as lists of values. */
  function Groups(sorted: seq<real>, threshold: real): (r: seq<seq<real>>)
    ensures NonEmptyGroups(r)
  {
    if sorted == [] then []
    else
      GroupsFromShape([sorted[0]], sorted[1..], Joins(threshold));
      GroupsFrom([sorted[0]], sorted[1..], Joins(threshold))
  }

  function Flatten(gs: seq<seq<real>>): seq<real>
  {
    if gs == [] then [] else gs[0] + Flatten(gs[1..])
  }

  ghost predicate NonEmptyGroups(gs: seq<seq<real>>)
  {
    forall j :: 0 <= j < |gs| ==> |gs[j]| > 0
  }

  /** Every value inside a cluster was absorbed by the values before it. */
  ghost predicate GrownByAbsorption(g: seq<real>, joins: (seq<real>, real) -> bool)
  {
    forall k :: 0 < k < |g| ==> joins(g[..k], g[k])
  }

  /** A cluster boundary falls exactly where the next value is not absorbed. */
  ghost predicate GreedyGroups(gs: seq<seq<real>>, joins: (seq<real>, real) -> bool)
  {
    && NonEmptyGroups(gs)
    && (forall j :: 0 <= j < |gs| ==> GrownByAbsorption(gs[j], joins))
    && (forall j :: 0 <= j < |gs| - 1 ==> !joins(gs[j], gs[j + 1][0]))
  }

  function Summaries(gs: seq<seq<real>>): (r: seq<Cluster>)
    requires NonEmptyGroups(gs)
    ensures |r| == |gs|
    ensures forall j :: 0 <= j < |gs| ==> r[j] == Cluster(Mean(gs[j]), |gs[j]|)
  {
    if gs == [] then [] else [Cluster(Mean(gs[0]), |gs[0]|)] + Summaries(gs[1..])
  }

  function SumCounts(cs: seq<Cluster>): nat
  {
    if cs == [] then 0 else cs[0].count + SumCounts(cs[1..])
  }

  lemma {:induction false} GroupsFromShape(cur: seq<real>, rest: seq<real>, joins: (seq<real>, real) -> bool)
    requires |cur| > 0
    requires GrownByAbsorption(cur, joins)
    ensures var gs := GroupsFrom(cur, rest, joins);
      && |gs| > 0 && |gs[0]| > 0 && gs[0][0] == cur[0]
      && Flatten(gs) == cur + rest
      && GreedyGroups(gs, joins)
    decreases |rest|
  {
    var gs := GroupsFrom(cur, rest, joins);
    if rest == [] {
      assert gs == [cur];
      assert Flatten(gs) == cur + Flatten([]);
    } else if joins(cur, rest[0]) {
      var cur' := cur + [rest[0]];
      assert forall k :: 0 < k < |cur| ==> cur'[..k] == cur[..k];
      assert cur'[..|cur|] == cur;
      GroupsFromShape(cur', rest[1..], joins);
      assert cur' + rest[1..] == cur + rest;
    } else {
      var tail := GroupsFrom([rest[0]], rest[1..], joins);
      GroupsFromShape([rest[0]], rest[1..], joins);
      assert gs == [cur] + tail;
      assert gs[1..] == tail;
      assert Flatten(gs) == cur + Flatten(tail);
      assert [rest[0]] + rest[1..] == rest;
      forall j | 0 <= j < |gs| - 1
        ensures !joins(gs[j], gs[j + 1][0])
      {
        if j > 0 {
          assert gs[j] == tail[j - 1] && gs[j + 1] == tail[j];
        }
      }
      forall j | 0 <= j < |gs|
        ensures GrownByAbsorption(gs[j], joins) && |gs[j]| > 0
      {
        if j > 0 {
          assert gs[j] == tail[j - 1];
        }
      }
    }
  }

  /** The clusters are contiguous runs that together spell out the sorted input, and
      their boundaries are exactly the non-absorbed values. */
  lemma GroupsPartition(sorted: seq<real>, threshold: real)
    ensures Flatten(Groups(sorted, threshold)) == sorted
    ensures GreedyGroups(Groups(sorted, threshold), Joins(threshold))
    ensures sorted == [] <==> Groups(sorted, threshold) == []
  {
    if sorted != [] {
      GroupsFromShape([sorted[0]], sorted[1..], Joins(threshold));
      assert [sorted[0]] + sorted[1..] == sorted;
    }
  }

  lemma {:induction false} SumCountsFlatten(gs: seq<seq<real>>)
    requires NonEmptyGroups(gs)
    ensures SumCounts(Summaries(gs)) == |Flatten(gs)|
  {
    if gs != [] {
      SumCountsFlatten(gs[1..]);
      assert Summaries(gs)[1..] == Summaries(gs[1..]);
    }
  }

  /** Every pivot lands in exactly one cluster, and there are clusters exactly
      when there are pivots. */
  lemma ClusterCounts(values: seq<real>, threshold: real)
    ensures var cs := Summaries(Groups(SortReals(values), threshold));
      && (values == [] <==> cs == [])
      && SumCounts(cs) == |values|
  {
    var sorted := SortReals(values);
    GroupsPartition(sorted, threshold);
    SumCountsFlatten(Groups(sorted, threshold));
  }

  /** One step of the greedy scan over the value at position i. */
  lemma GroupsFromStep(groups: seq<seq<real>>, cur: seq<real>, sorted: seq<real>, i: int, joins: (seq<real>, real) -> bool)
    requires |cur| > 0 && 0 < i < |sorted|
    ensures joins(cur, sorted[i]) ==>
      groups + GroupsFrom(cur, sorted[i..], joins) == groups + GroupsFrom(cur + [sorted[i]], sorted[i + 1..], joins)
    ensures !joins(cur, sorted[i]) ==>
      groups + GroupsFrom(cur, sorted[i..], joins) == (groups + [cur]) + GroupsFrom([sorted[i]], sorted[i + 1..], joins)
  {
    var rest := sorted[i..];
    assert rest[0] == sorted[i] && rest[1..] == sorted[i + 1..];
    if !joins(cur, sorted[i]) {
      assert GroupsFrom(cur, rest, joins) == [cur] + GroupsFrom([sorted[i]], rest[1..], joins);
    }
  }

  /** The scan ends with the running cluster. */
  lemma GroupsFromEnd(groups: seq<seq<real>>, cur: seq<real>, sorted: seq<real>, joins: (seq<real>, real) -> bool)
    requires |cur| > 0
    ensures groups + GroupsFrom(cur, sorted[|sorted|..], joins) == groups + [cur]
  {
    assert sorted[|sorted|..] == [];
  }

  /** The loop of `_cluster_pivots` over the sorted values. */
  method GroupSorted(sortedVals: seq<real>, threshold: real) returns (groups: seq<seq<real>>)
    requires |sortedVals| > 0
    ensures groups == Groups(sortedVals, threshold)
  {
    ghost var joins := Joins(threshold);
    groups := [];
    var current: seq<real> := [sortedVals[0]];
    for i := 1 to |sortedVals|
      invariant |current| > 0
      invariant groups + GroupsFrom(current, sortedVals[i..], joins) == Groups(sortedVals, threshold)
    {
      GroupsFromStep(groups, current, sortedVals, i, joins);
      var v := sortedVals[i];
      assert joins(current, v) == Absorbs(current, v, threshold);
      if Absorbs(current, v, threshold) {
        current := current + [v];
      } else {
        groups := groups + [current];
        current := [v];
      }
    }
    GroupsFromEnd(groups, current, sortedVals, joins);
    groups := groups + [current];
  }

  /** `_cluster_pivots`: the sorted values, grouped greedily and summarised. */
  method ClusterPivots(values: seq<real>, clusterPct: real) returns (clusters: seq<Cluster>)
    ensures clusters == Summaries(Groups(SortReals(values), clusterPct / 100.0))
    ensures values == [] <==> clusters == []
    ensures SumCounts(clusters) == |values|
  {
    ClusterCounts(values, clusterPct / 100.0);
    if |values| == 0 {
      return [];
    }
    var sortedVals := SortReals(values);
    var threshold := clusterPct / 100.0;
    var groups := GroupSorted(sortedVals, threshold);
    clusters := Summaries(groups);
  }
}
