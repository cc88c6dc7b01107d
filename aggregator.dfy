/** The signal aggregator: votes the signals of all interpreters into one
    operable signal. The decision is always BUY, SELL or HOLD; EXIT votes for
    SELL; ALERTs only shape the risk context. */
module Aggregator {
  import opened Common
  import opened Signals
  import opened OrderedDict
  import opened StableSort

  function Weight(st: Strength): real
  {
    match st
    case Weak => 0.5
    case Moderate => 0.75
    case Strong => 1.0
    case Extreme => 1.25
  }

  /** `_score`: confidence times the strength weight. */
  function Score(s: Signal): real
  {
    s.confidence * Weight(s.strength)
  }

  const MinScore := 0.4
  const MinMargin := 0.15

  /** `_strength_from_score`, with cut points 1.8, 1.2 and 0.7. */
  function StrengthFromScore(score: real): Strength
  {
    if score >= 1.8 then Extreme
    else if score >= 1.2 then Strong
    else if score >= 0.7 then Moderate
    else Weak
  }

  /** The order of the strengths, weakest first. */
  function Rank(st: Strength): nat
  {
    match st
    case Weak => 0
    case Moderate => 1
    case Strong => 2
    case Extreme => 3
  }

  /** EXIT counts as SELL in the vote. */
  function Normalized(t: SignalType): SignalType
  {
    if t == Exit then Sell else t
  }

  /** The signals of `ss` satisfying `p`, in order (a list comprehension). */
  function Where(ss: seq<Signal>, p: Signal -> bool): (r: seq<Signal>)
    ensures |r| <= |ss|
  {
    if ss == [] then []
    else Where(ss[..|ss| - 1], p) + (if p(ss[|ss| - 1]) then [ss[|ss| - 1]] else [])
  }

  /** The input with its `None` entries dropped. */
  function Present(input: seq<Option<Signal>>): (r: seq<Signal>)
    ensures |r| <= |input|
  {
    if input == [] then []
    else Present(input[..|input| - 1]) + Opt(input[|input| - 1])
  }

  predicate IsNotAlert(s: Signal)
  {
    s.signalType != Alert
  }

  predicate IsDirectional(s: Signal)
  {
    s.signalType in {Buy, Sell, Exit, Hold}
  }

  /** An ALERT from the volume, volatility or risk interpreter. */
  predicate IsRiskAlert(s: Signal)
  {
    s.signalType == Alert && s.source in {Volume, Volatility, Risk}
  }

  /** `max(ss, key=_score)`: the first signal of highest score. */
  function FirstMax(ss: seq<Signal>): Signal
    requires ss != []
  {
    if |ss| == 1 then ss[0]
    else
      var m := FirstMax(ss[..|ss| - 1]);
      if Score(ss[|ss| - 1]) > Score(m) then ss[|ss| - 1] else m
  }

  datatype RiskContext = RiskContext(
    hasRiskAlerts: bool,
    highVolatility: bool,
    volumeSpike: bool,
    riskEvents: bool,
    extremeConditions: bool,
    riskAlertsCount: nat)

  /** `_build_risk_context`: labels the regime from the risk alerts. */
  function BuildRiskContext(alerts: seq<Signal>): RiskContext
  {
    if alerts == [] then RiskContext(false, false, false, false, false, 0)
    else
      RiskContext(
        true,
        exists i :: 0 <= i < |alerts| && MetaOf(alerts[i], "kind") == Some(Text("atr_spike")),
        exists i :: 0 <= i < |alerts| && MetaOf(alerts[i], "kind") == Some(Text("volume_spike")),
        exists i :: 0 <= i < |alerts| && alerts[i].source == Risk,
        exists i :: 0 <= i < |alerts| && alerts[i].strength == Extreme,
        |alerts|)
  }

  // ---------------------------------------------------------------------------
  // Score totals per normalized type

  /** `score_by_type` after the loop over `ds`: insertion-ordered totals. */
  function ScoreTotals(ds: seq<Signal>): (r: seq<(SignalType, real)>)
    ensures ds != [] ==> |r| > 0
  {
    if ds == [] then []
    else
      AddScore(ScoreTotals(ds[..|ds| - 1]), ds[|ds| - 1])
  }

  /** `score_by_type[t] = score_by_type.get(t, 0.0) + score` for the normalized
      type `t` of `s`. */
  function AddScore(totals: seq<(SignalType, real)>, s: Signal): seq<(SignalType, real)>
  {
    var t := Normalized(s.signalType);
    Set(totals, t, Get(totals, t, 0.0) + Score(s))
  }

  method TotalScores(ds: seq<Signal>) returns (totals: seq<(SignalType, real)>)
    ensures totals == ScoreTotals(ds)
  {
    totals := [];
    for i := 0 to |ds|
      invariant totals == ScoreTotals(ds[..i])
    {
      assert ds[..i + 1][..i] == ds[..i];
      var score := Score(ds[i]);
      var normalizedType := if ds[i].signalType == Exit then Sell else ds[i].signalType;
      totals := Set(totals, normalizedType, Get(totals, normalizedType, 0.0) + score);
    }
    assert ds[..|ds|] == ds;
  }

  /** `sorted(..., key=score, reverse=True)`: stable, highest total first. */
  function ByScoreDesc(a: (SignalType, real), b: (SignalType, real)): bool
  {
    a.1 >= b.1
  }

  function Ranked(totals: seq<(SignalType, real)>): (r: seq<(SignalType, real)>)
    ensures |r| == |totals|
  {
    Sort(totals, ByScoreDesc)
  }

  /** The signals that take part in the vote. */
  function Directional(signals: seq<Signal>): seq<Signal>
  {
    Where(Where(signals, IsNotAlert), IsDirectional)
  }

  /** The signals whose normalized type is `t`. */
  function OfType(ss: seq<Signal>, t: SignalType): seq<Signal>
  {
    Where(ss, (s: Signal) => Normalized(s.signalType) == t)
  }

  function RiskAlerts(signals: seq<Signal>): seq<Signal>
  {
    Where(Where(signals, (s: Signal) => s.signalType == Alert), IsRiskAlert)
  }

  /** The outcome of the vote: the chosen type, the signal the result is
      built on, and the final score. */
  datatype Decision = Decision(chosen: SignalType, base: Signal, finalScore: real)

  /** The decision `aggregate` takes on the non-`None` signals. */
  function Decide(signals: seq<Signal>): Option<Decision>
  {
    if signals == [] then None
    else
      var context := BuildRiskContext(RiskAlerts(signals));
      var nonAlerts := Where(signals, IsNotAlert);
      if nonAlerts == [] then
        var best := FirstMax(signals);
        Some(Decision(Hold, best, Score(best)))
      else
        var directional := Where(nonAlerts, IsDirectional);
        if directional == [] then None
        else Some(Vote(directional, context))
  }

  /** The vote among the directional signals: the best type total wins when
      it is high enough and leads the second by enough, except a BUY under an
      EXTREME risk alert; the result is built on the first best-scoring signal
      of the chosen type. */
  function Vote(directional: seq<Signal>, context: RiskContext): Decision
    requires directional != []
  {
    var ranked := Ranked(ScoreTotals(directional));
    var best := ranked[0];
    var second := if |ranked| > 1 then ranked[1].1 else 0.0;
    var consensus := if best.1 < MinScore || best.1 - second < MinMargin then Hold else best.0;
    var chosen := if consensus == Buy && context.extremeConditions then Hold else consensus;
    var same := OfType(directional, chosen);
    var base := if same != [] then FirstMax(same) else FirstMax(directional);
    Decision(chosen, base, best.1)
  }

  // ---------------------------------------------------------------------------
  // The aggregated signal

  /** The earliest expiry among the signals, `None` when none expires. */
  function Earliest(ss: seq<Signal>): Option<int>
  {
    if ss == [] then None
    else
      var e := Earliest(ss[..|ss| - 1]);
      var x := ss[|ss| - 1].expiresAt;
      if x.None? then e
      else if e.None? || x.value < e.value then x
      else e
  }

  /** The number of signals per key, insertion-ordered. */
  function Counted(ss: seq<Signal>, key: Signal -> string): seq<(string, nat)>
  {
    if ss == [] then []
    else
      var prev := Counted(ss[..|ss| - 1], key);
      var k := key(ss[|ss| - 1]);
      Set(prev, k, Get(prev, k, 0) + 1)
  }

  method CountBy(ss: seq<Signal>, key: Signal -> string) returns (counts: seq<(string, nat)>)
    ensures counts == Counted(ss, key)
  {
    counts := [];
    for i := 0 to |ss|
      invariant counts == Counted(ss[..i], key)
    {
      assert ss[..i + 1][..i] == ss[..i];
      var k := key(ss[i]);
      counts := Set(counts, k, Get(counts, k, 0) + 1);
    }
    assert ss[..|ss|] == ss;
  }

  function TypeKey(s: Signal): string
  {
    TypeValue(s.signalType)
  }

  function SourceKey(s: Signal): string
  {
    SourceValue(s.source)
  }

  /** The aggregated signal together with the meta entries that are dictionaries
      in the source (the counts, the decision and the risk context). */
  datatype Aggregated = Aggregated(
    signal: Signal,
    typeCounts: seq<(string, nat)>,
    sourceCounts: seq<(string, nat)>,
    finalScore: real,
    riskContext: RiskContext)

  function AggregatedConfidence(chosen: SignalType, base: Signal, finalScore: real): real
  {
    if chosen == Hold then 1.0 else Max(Min(finalScore, 1.0), base.confidence)
  }

  function AggregatedMeta(base: Signal, count: nat): map<string, MetaValue>
  {
    var meta := if base.meta.Some? then base.meta.value else map[];
    meta["aggregated" := Flag(true)]["source_signals_count" := Count(count)]
  }

  /** `_build_aggregated_signal`, as a value. */
  function Build(d: Decision, signals: seq<Signal>, context: RiskContext): Aggregated
  {
    var expires := if Earliest(signals).Some? then Earliest(signals) else d.base.expiresAt;
    Aggregated(
      Signal(d.base.symbol, d.base.source, d.chosen, AggregatedConfidence(d.chosen, d.base, d.finalScore),
             StrengthFromScore(d.finalScore), d.base.price, d.base.targetPrice, d.base.stopLoss,
             Some(AggregatedMeta(d.base, |signals|)), expires),
      Counted(signals, TypeKey), Counted(signals, SourceKey), d.finalScore, context)
  }

  method BuildAggregated(d: Decision, signals: seq<Signal>, context: RiskContext) returns (r: Aggregated)
    ensures r == Build(d, signals, context)
  {
    var typeCounts := CountBy(signals, TypeKey);
    var sourceCounts := CountBy(signals, SourceKey);
    r := Aggregated(
      Signal(d.base.symbol, d.base.source, d.chosen, AggregatedConfidence(d.chosen, d.base, d.finalScore),
             StrengthFromScore(d.finalScore), d.base.price, d.base.targetPrice, d.base.stopLoss,
             Some(AggregatedMeta(d.base, |signals|)),
             if Earliest(signals).Some? then Earliest(signals) else d.base.expiresAt),
      typeCounts, sourceCounts, d.finalScore, context);
  }

  /** `aggregate` as a value: `None` for no signal, else the aggregated signal. */
  function AggregateSpec(input: seq<Option<Signal>>): Option<Aggregated>
  {
    var signals := Present(input);
    var d := Decide(signals);
    if d.None? then None
    else Some(Build(d.value, signals, BuildRiskContext(RiskAlerts(signals))))
  }

  method Aggregate(input: seq<Option<Signal>>) returns (r: Option<Aggregated>)
    ensures r == AggregateSpec(input)
  {
    var signals := Present(input);
    if signals == [] {
      return None;
    }
    var context := BuildRiskContext(RiskAlerts(signals));
    var nonAlerts := Where(signals, IsNotAlert);
    if nonAlerts == [] {
      var best := FirstMax(signals);
      var a := BuildAggregated(Decision(Hold, best, Score(best)), signals, context);
      return Some(a);
    }
    var directional := Where(nonAlerts, IsDirectional);
    if directional == [] {
      return None;
    }
    var d := VoteStep(directional, context);
    var a := BuildAggregated(d, signals, context);
    return Some(a);
  }

  /** The vote steps of `aggregate`: totals per type, ranked; the consensus
      check; the extreme-risk veto; the base signal. */
  method VoteStep(directional: seq<Signal>, context: RiskContext) returns (d: Decision)
    requires directional != []
    ensures d == Vote(directional, context)
  {
    var totals := TotalScores(directional);
    var ranked := Ranked(totals);
    var best := ranked[0];
    var second := if |ranked| > 1 then ranked[1].1 else 0.0;
    var chosen := if best.1 < MinScore || best.1 - second < MinMargin then Hold else best.0;
    if chosen == Buy && context.extremeConditions {
      chosen := Hold;
    }
    var same := OfType(directional, chosen);
    var base := if same != [] then FirstMax(same) else FirstMax(directional);
    d := Decision(chosen, base, best.1);
  }

  // ---------------------------------------------------------------------------
  // Properties of the helpers

  /** Scores lie in [0, 1.25] for valid signals. */
  lemma ScoreBounds(s: Signal)
    requires ValidSignal(s)
    ensures 0.0 <= Score(s) <= 1.25
    ensures Score(s) <= s.confidence * 1.25
  {
  }

  /** `_strength_from_score` is monotone, with its cut points at 0.7, 1.2 and 1.8. */
  lemma StrengthMonotone(a: real, b: real)
    requires a <= b
    ensures Rank(StrengthFromScore(a)) <= Rank(StrengthFromScore(b))
    ensures StrengthFromScore(a) == Extreme <==> a >= 1.8
    ensures StrengthFromScore(a) == Weak <==> a < 0.7
    ensures StrengthFromScore(a) == Strong <==> 1.2 <= a < 1.8
  {
  }

  lemma {:induction false} WhereMember(ss: seq<Signal>, p: Signal -> bool, x: Signal)
    ensures x in Where(ss, p) <==> x in ss && p(x)
  {
    if ss != [] {
      WhereMember(ss[..|ss| - 1], p, x);
      assert ss == ss[..|ss| - 1] + [ss[|ss| - 1]];
    }
  }

  /** A filter that keeps everything is the identity. */
  lemma {:induction false} WhereAll(ss: seq<Signal>, p: Signal -> bool)
    requires forall x :: x in ss ==> p(x)
    ensures Where(ss, p) == ss
  {
    if ss != [] {
      assert ss == ss[..|ss| - 1] + [ss[|ss| - 1]];
      WhereAll(ss[..|ss| - 1], p);
    }
  }

  /** Every signal that is not an ALERT is directional, so the directional
      filter keeps all the non-ALERT signals. */
  lemma DirectionalIsNonAlert(signals: seq<Signal>)
    ensures Directional(signals) == Where(signals, IsNotAlert)
  {
    var nonAlerts := Where(signals, IsNotAlert);
    forall x | x in nonAlerts
      ensures IsDirectional(x)
    {
      WhereMember(signals, IsNotAlert, x);
    }
    WhereAll(nonAlerts, IsDirectional);
  }

  lemma {:induction false} PresentMember(input: seq<Option<Signal>>, x: Signal)
    ensures x in Present(input) <==> Some(x) in input
  {
    if input != [] {
      PresentMember(input[..|input| - 1], x);
      assert input == input[..|input| - 1] + [input[|input| - 1]];
    }
  }

  /** Dropping the `None` entries leaves nothing exactly when every entry is `None`. */
  lemma {:induction false} PresentEmpty(input: seq<Option<Signal>>)
    ensures Present(input) == [] <==> forall i :: 0 <= i < |input| ==> input[i].None?
  {
    if input != [] {
      PresentEmpty(input[..|input| - 1]);
      assert forall i :: 0 <= i < |input| - 1 ==> input[..|input| - 1][i] == input[i];
    }
  }

  /** `max(key=_score)` returns an element of highest score, the first one. */
  lemma FirstMaxSpec(ss: seq<Signal>)
    requires ss != []
    ensures FirstMax(ss) in ss
    ensures forall x :: x in ss ==> Score(x) <= Score(FirstMax(ss))
    ensures exists i :: 0 <= i < |ss| && ss[i] == FirstMax(ss) && forall j :: 0 <= j < i ==> Score(ss[j]) < Score(ss[i])
  {
    FirstMaxIsMax(ss);
    FirstMaxIsFirst(ss);
  }

  lemma {:induction false} FirstMaxIsMax(ss: seq<Signal>)
    requires ss != []
    ensures FirstMax(ss) in ss
    ensures forall x :: x in ss ==> Score(x) <= Score(FirstMax(ss))
  {
    if |ss| > 1 {
      var init := ss[..|ss| - 1];
      FirstMaxIsMax(init);
      assert ss == init + [ss[|ss| - 1]];
    }
  }

  lemma {:induction false} FirstMaxIsFirst(ss: seq<Signal>)
    requires ss != []
    ensures exists i :: 0 <= i < |ss| && ss[i] == FirstMax(ss) && forall j :: 0 <= j < i ==> Score(ss[j]) < Score(ss[i])
  {
    if |ss| == 1 {
      assert ss[0] == FirstMax(ss);
    } else {
      var init := ss[..|ss| - 1];
      FirstMaxIsFirst(init);
      FirstMaxIsMax(init);
      var m := FirstMax(init);
      var i :| 0 <= i < |init| && init[i] == m && forall j :: 0 <= j < i ==> Score(init[j]) < Score(init[i]);
      if Score(ss[|ss| - 1]) > Score(m) {
        forall j | 0 <= j < |ss| - 1
          ensures Score(ss[j]) < Score(ss[|ss| - 1])
        {
          assert ss[j] == init[j] && init[j] in init;
        }
      } else {
        assert ss[i] == init[i];
        forall j | 0 <= j < i
          ensures Score(ss[j]) < Score(ss[i])
        {
          assert ss[j] == init[j];
        }
      }
    }
  }

  /** The earliest expiry: present exactly when some signal expires, no later
      than any expiry and equal to one of them. */
  lemma {:induction false} EarliestSpec(ss: seq<Signal>)
    ensures Earliest(ss).Some? <==> exists i :: 0 <= i < |ss| && ss[i].expiresAt.Some?
    ensures Earliest(ss).Some? ==>
      && (forall i :: 0 <= i < |ss| && ss[i].expiresAt.Some? ==> Earliest(ss).value <= ss[i].expiresAt.value)
      && (exists i :: 0 <= i < |ss| && ss[i].expiresAt == Earliest(ss))
  {
    if ss != [] {
      var init := ss[..|ss| - 1];
      EarliestSpec(init);
      assert forall i :: 0 <= i < |init| ==> init[i] == ss[i];
    }
  }

  // ---------------------------------------------------------------------------
  // The vote

  /** The total score of the signals of `ds` whose normalized type is `t`. */
  ghost function TypeScore(ds: seq<Signal>, t: SignalType): real
  {
    if ds == [] then 0.0
    else TypeScore(ds[..|ds| - 1], t) + (if Normalized(ds[|ds| - 1].signalType) == t then Score(ds[|ds| - 1]) else 0.0)
  }

  /** `score_by_type` has one entry per normalized type that occurs, holding
      the total score of the signals of that type: EXIT scores add to SELL. */
  lemma ScoreTotalsSpec(ds: seq<Signal>, t: SignalType)
    ensures UniqueKeys(ScoreTotals(ds))
    ensures Get(ScoreTotals(ds), t, 0.0) == TypeScore(ds, t)
    ensures HasKey(ScoreTotals(ds), t) <==> exists i :: 0 <= i < |ds| && Normalized(ds[i].signalType) == t
  {
    ScoreTotalsUnique(ds);
    ScoreTotalsGet(ds, t);
    ScoreTotalsHasKey(ds, t);
  }

  /** One more signal adds its score to the total of its normalized type. */
  lemma ScoreTotalsStep(ds: seq<Signal>)
    requires ds != []
    ensures ScoreTotals(ds) == AddScore(ScoreTotals(ds[..|ds| - 1]), ds[|ds| - 1])
  {
  }

  lemma {:induction false} ScoreTotalsUnique(ds: seq<Signal>)
    ensures UniqueKeys(ScoreTotals(ds))
  {
    if ds != [] {
      var e := ds[|ds| - 1];
      var prev := ScoreTotals(ds[..|ds| - 1]);
      var te := Normalized(e.signalType);
      ScoreTotalsUnique(ds[..|ds| - 1]);
      ScoreTotalsStep(ds);
      SetUnique(prev, te, Get(prev, te, 0.0) + Score(e));
    }
  }

  lemma {:induction false} ScoreTotalsGet(ds: seq<Signal>, t: SignalType)
    ensures Get(ScoreTotals(ds), t, 0.0) == TypeScore(ds, t)
  {
    if ds != [] {
      var e := ds[|ds| - 1];
      var init := ds[..|ds| - 1];
      var prev := ScoreTotals(init);
      var te := Normalized(e.signalType);
      ScoreTotalsGet(init, t);
      ScoreTotalsStep(ds);
      GetSet(prev, te, Get(prev, te, 0.0) + Score(e), t, 0.0);
    }
  }

  lemma {:induction false} ScoreTotalsHasKey(ds: seq<Signal>, t: SignalType)
    ensures HasKey(ScoreTotals(ds), t) <==> exists i :: 0 <= i < |ds| && Normalized(ds[i].signalType) == t
  {
    if ds != [] {
      var init := ds[..|ds| - 1];
      ScoreTotalsHasKey(init, t);
      ScoreTotalsStep(ds);
      AddScoreHasKey(ScoreTotals(init), ds[|ds| - 1], t);
      OccursStep(ds, t);
    }
  }

  lemma AddScoreHasKey(totals: seq<(SignalType, real)>, e: Signal, t: SignalType)
    ensures HasKey(AddScore(totals, e), t) <==> HasKey(totals, t) || t == Normalized(e.signalType)
  {
    var te := Normalized(e.signalType);
    SetKeys(totals, te, Get(totals, te, 0.0) + Score(e));
  }

  lemma OccursStep(ds: seq<Signal>, t: SignalType)
    requires ds != []
    ensures var init := ds[..|ds| - 1];
      (exists i :: 0 <= i < |ds| && Normalized(ds[i].signalType) == t) <==>
        (exists i :: 0 <= i < |init| && Normalized(init[i].signalType) == t) || Normalized(ds[|ds| - 1].signalType) == t
  {
    var init := ds[..|ds| - 1];
    assert forall i :: 0 <= i < |init| ==> init[i] == ds[i];
  }

  /** An entry of a dictionary is found under its key. */
  lemma EntryFound(d: seq<(SignalType, real)>, e: (SignalType, real))
    requires UniqueKeys(d) && e in d
    ensures HasKey(d, e.0) && Get(d, e.0, 0.0) == e.1
  {
    var i :| 0 <= i < |d| && d[i] == e;
    assert Keys(d)[i] == e.0;
    GetFinds(d, i, 0.0);
  }

  lemma ByScoreDescIsPreorder()
    ensures TotalPreorder(ByScoreDesc)
  {
  }

  /** The first ranked entry is an entry of highest total, and the second
      ranked entry, when there is one, is another entry with a total no
      higher. */
  lemma BestIsMaximal(totals: seq<(SignalType, real)>)
    requires totals != []
    ensures var ranked := Ranked(totals);
      && ranked[0] in totals
      && (forall e :: e in totals ==> e.1 <= ranked[0].1)
      && (|ranked| > 1 ==> ranked[1] in totals && ranked[1].1 <= ranked[0].1)
  {
    var ranked := Ranked(totals);
    ByScoreDescIsPreorder();
    SortSorted(totals, ByScoreDesc);
    assert multiset(ranked) == multiset(totals);
    assert ranked[0] in multiset(ranked);
    forall e | e in totals
      ensures e.1 <= ranked[0].1
    {
      assert e in multiset(ranked);
      var j :| 0 <= j < |ranked| && ranked[j] == e;
      if j > 0 {
        assert ByScoreDesc(ranked[0], ranked[j]);
      }
    }
    if |ranked| > 1 {
      assert ranked[1] in multiset(ranked);
      assert ByScoreDesc(ranked[0], ranked[1]);
    }
  }

  /** The risk context reports an EXTREME condition exactly when some input
      signal is an EXTREME risk alert, and counts the risk alerts. */
  lemma RiskContextSpec(signals: seq<Signal>)
    ensures var context := BuildRiskContext(RiskAlerts(signals));
      && (context.extremeConditions <==> exists s :: s in signals && IsRiskAlert(s) && s.strength == Extreme)
      && (context.hasRiskAlerts <==> exists s :: s in signals && IsRiskAlert(s))
      && context.riskAlertsCount == |RiskAlerts(signals)|
      && (context.riskEvents ==> exists s :: s in signals && s.signalType == Alert && s.source == Risk)
  {
    var alerts := Where(signals, (s: Signal) => s.signalType == Alert);
    var risk := RiskAlerts(signals);
    forall x
      ensures x in risk <==> x in signals && IsRiskAlert(x)
    {
      WhereMember(alerts, IsRiskAlert, x);
      WhereMember(signals, (s: Signal) => s.signalType == Alert, x);
    }
    if risk != [] {
      assert risk[0] in risk;
      var context := BuildRiskContext(risk);
      if context.extremeConditions {
        var i :| 0 <= i < |risk| && risk[i].strength == Extreme;
        assert risk[i] in risk;
      }
      if context.riskEvents {
        var i :| 0 <= i < |risk| && risk[i].source == Risk;
        assert risk[i] in risk;
      }
      if exists s :: s in signals && IsRiskAlert(s) && s.strength == Extreme {
        var s :| s in signals && IsRiskAlert(s) && s.strength == Extreme;
        assert s in risk;
        var i :| 0 <= i < |risk| && risk[i] == s;
      }
    }
  }

  /** A type with a total is the normalized type of a voting signal, hence
      neither EXIT nor ALERT. */
  lemma TotalKeyIsVoteType(signals: seq<Signal>, t: SignalType)
    requires HasKey(ScoreTotals(Directional(signals)), t)
    ensures t in {Buy, Sell, Hold}
  {
    var directional := Directional(signals);
    ScoreTotalsSpec(directional, t);
    var i :| 0 <= i < |directional| && Normalized(directional[i].signalType) == t;
    DirectionalIsNonAlert(signals);
    WhereMember(signals, IsNotAlert, directional[i]);
  }

  /** With at least one non-ALERT signal, the vote: the final score is the
      best type total, which no other total exceeds; the decision is BUY, SELL
      or HOLD; anything but HOLD is the best type and needs a best total of at
      least 0.4 that leads the second by at least 0.15, and is taken whenever
      those hold unless it is a BUY under an EXTREME risk alert. */
  lemma DecisionRule(signals: seq<Signal>)
    requires Where(signals, IsNotAlert) != []
    ensures var d := Decide(signals);
      var directional := Directional(signals);
      var totals := ScoreTotals(directional);
      var ranked := Ranked(totals);
      var context := BuildRiskContext(RiskAlerts(signals));
      && d.Some? && |ranked| > 0
      && var best := ranked[0];
         var second := if |ranked| > 1 then ranked[1].1 else 0.0;
         && d.value.finalScore == best.1 == TypeScore(directional, best.0)
         && (forall t :: HasKey(totals, t) ==> TypeScore(directional, t) <= best.1)
         && (|ranked| > 1 ==> second <= best.1)
         && d.value.chosen in {Buy, Sell, Hold}
         && (d.value.chosen != Hold ==> d.value.chosen == best.0 && best.1 >= MinScore && best.1 - second >= MinMargin)
         && ((best.1 >= MinScore && best.1 - second >= MinMargin && !(best.0 == Buy && context.extremeConditions))
               ==> d.value.chosen == best.0)
         && (d.value.chosen == Buy ==> !context.extremeConditions)
  {
    var directional := Directional(signals);
    DirectionalIsNonAlert(signals);
    var totals := ScoreTotals(directional);
    var ranked := Ranked(totals);
    BestIsMaximal(totals);
    var best := ranked[0];
    ScoreTotalsSpec(directional, best.0);
    EntryFound(totals, best);
    TotalKeyIsVoteType(signals, best.0);
    forall t | HasKey(totals, t)
      ensures TypeScore(directional, t) <= best.1
    {
      ScoreTotalsSpec(directional, t);
      var i :| 0 <= i < |totals| && Keys(totals)[i] == t;
      assert totals[i] in totals;
      EntryFound(totals, totals[i]);
    }
  }

  /** The signal the result is built on is one of the input signals. */
  lemma DecisionBaseIsInput(signals: seq<Signal>)
    requires Decide(signals).Some?
    ensures Decide(signals).value.base in signals
  {
    var nonAlerts := Where(signals, IsNotAlert);
    if nonAlerts == [] {
      FirstMaxSpec(signals);
    } else {
      var directional := Where(nonAlerts, IsDirectional);
      var d := Decide(signals).value;
      var same := OfType(directional, d.chosen);
      if same != [] {
        FirstMaxSpec(same);
        WhereMember(directional, (s: Signal) => Normalized(s.signalType) == d.chosen, d.base);
      } else {
        FirstMaxSpec(directional);
      }
      WhereMember(nonAlerts, IsDirectional, d.base);
      WhereMember(signals, IsNotAlert, d.base);
    }
  }

  // ---------------------------------------------------------------------------
  // Properties of `aggregate`

  /** `aggregate` returns nothing exactly when no signal is given. */
  lemma AggregateEmpty(input: seq<Option<Signal>>)
    ensures AggregateSpec(input).None? <==> forall i :: 0 <= i < |input| ==> input[i].None?
  {
    PresentEmpty(input);
    DecideNone(Present(input));
  }

  /** The vote decides something exactly when there is a signal. */
  lemma DecideNone(signals: seq<Signal>)
    ensures Decide(signals).None? <==> signals == []
  {
    DirectionalIsNonAlert(signals);
  }

  /** When every signal is an ALERT the result is HOLD with confidence 1,
      scored and built on the first best-scoring alert. */
  lemma AggregateAllAlerts(input: seq<Option<Signal>>)
    requires Present(input) != [] && Where(Present(input), IsNotAlert) == []
    ensures var r := AggregateSpec(input);
      var best := FirstMax(Present(input));
      && r.Some? && r.value.signal.signalType == Hold && r.value.signal.confidence == 1.0
      && r.value.finalScore == Score(best) && r.value.signal.symbol == best.symbol
      && (forall x :: x in Present(input) ==> Score(x) <= r.value.finalScore)
  {
    FirstMaxSpec(Present(input));
  }

  /** The result is always BUY, SELL or HOLD, never BUY under an EXTREME risk
      alert, with the strength its final score maps to. */
  lemma AggregateOutcome(input: seq<Option<Signal>>)
    ensures var r := AggregateSpec(input);
      r.Some? ==>
        && r.value.signal.signalType in {Buy, Sell, Hold}
        && (r.value.signal.signalType == Buy ==>
              !exists s :: s in Present(input) && IsRiskAlert(s) && s.strength == Extreme)
        && r.value.signal.strength == StrengthFromScore(r.value.finalScore)
  {
    var signals := Present(input);
    RiskContextSpec(signals);
    if signals != [] && Where(signals, IsNotAlert) != [] {
      DecisionRule(signals);
    }
  }

  /** For valid inputs the aggregated confidence is in [0, 1]: 1 for HOLD,
      otherwise at least the base signal's confidence. */
  lemma AggregateConfidence(input: seq<Option<Signal>>)
    requires forall i :: 0 <= i < |input| && input[i].Some? ==> ValidSignal(input[i].value)
    ensures var r := AggregateSpec(input);
      r.Some? ==>
        && ValidSignal(r.value.signal)
        && (r.value.signal.signalType == Hold ==> r.value.signal.confidence == 1.0)
        && (r.value.signal.signalType != Hold ==> r.value.signal.confidence >= Decide(Present(input)).value.base.confidence)
  {
    var signals := Present(input);
    var d := Decide(signals);
    if d.Some? {
      DecisionBaseIsInput(signals);
      PresentMember(input, d.value.base);
    }
  }

  /** The aggregated signal expires at the earliest expiry of the signals:
      falling back to the base signal's expiry changes nothing, since the base
      is one of them. */
  lemma BuildExpiry(d: Decision, signals: seq<Signal>, context: RiskContext)
    requires d.base in signals
    ensures Build(d, signals, context).signal.expiresAt == Earliest(signals)
  {
    EarliestSpec(signals);
    var k :| 0 <= k < |signals| && signals[k] == d.base;
  }

  /** The result expires at the earliest expiry of the input signals (see
      `EarliestSpec`), and has no expiry when none of them has one. */
  lemma AggregateExpiry(input: seq<Option<Signal>>)
    ensures var r := AggregateSpec(input);
      r.Some? ==> r.value.signal.expiresAt == Earliest(Present(input))
  {
    var signals := Present(input);
    var d := Decide(signals);
    if d.Some? {
      DecisionBaseIsInput(signals);
      BuildExpiry(d.value, signals, BuildRiskContext(RiskAlerts(signals)));
    }
  }

  // ---------------------------------------------------------------------------
  // The per-type and per-source counts

  /** The sum of the counts of a tally. */
  function Total(d: seq<(string, nat)>): nat
  {
    if d == [] then 0 else Total(d[..|d| - 1]) + d[|d| - 1].1
  }

  lemma {:induction false} TotalUpdate(d: seq<(string, nat)>, i: nat, v: nat)
    requires i < |d|
    ensures Total(d[i := (d[i].0, v)]) == Total(d) - d[i].1 + v
  {
    var d' := d[i := (d[i].0, v)];
    if i < |d| - 1 {
      TotalUpdate(d[..|d| - 1], i, v);
      assert d'[..|d'| - 1] == d[..|d| - 1][i := (d[i].0, v)];
    } else {
      assert d'[..|d'| - 1] == d[..|d| - 1];
    }
  }

  lemma TotalAppend(d: seq<(string, nat)>, e: (string, nat))
    ensures Total(d + [e]) == Total(d) + e.1
  {
    assert (d + [e])[..|d + [e]| - 1] == d;
  }

  /** Counting one more occurrence of a key adds one to the total. */
  lemma TotalIncrement(d: seq<(string, nat)>, k: string)
    requires UniqueKeys(d)
    ensures Total(Set(d, k, Get(d, k, 0) + 1)) == Total(d) + 1
  {
    if HasKey(d, k) {
      var i :| 0 <= i < |d| && Keys(d)[i] == k;
      IncrementExisting(d, i);
    } else {
      IncrementNew(d, k);
    }
  }

  lemma IncrementExisting(d: seq<(string, nat)>, i: nat)
    requires UniqueKeys(d) && i < |d|
    ensures Total(Set(d, d[i].0, Get(d, d[i].0, 0) + 1)) == Total(d) + 1
  {
    GetFinds(d, i, 0);
    var v := d[i].1 + 1;
    SetExistingKey(d, i, v);
    TotalUpdate(d, i, v);
  }

  lemma IncrementNew(d: seq<(string, nat)>, k: string)
    requires !HasKey(d, k)
    ensures Total(Set(d, k, Get(d, k, 0) + 1)) == Total(d) + 1
  {
    GetAbsent(d, k, 0);
    SetNewKey(d, k, 1);
    TotalAppend(d, (k, 1));
  }

  /** A tally has one entry per key and its counts sum to the number of signals. */
  lemma {:induction false} CountedSpec(ss: seq<Signal>, key: Signal -> string)
    ensures UniqueKeys(Counted(ss, key))
    ensures Total(Counted(ss, key)) == |ss|
  {
    if ss != [] {
      var prev := Counted(ss[..|ss| - 1], key);
      CountedSpec(ss[..|ss| - 1], key);
      var k := key(ss[|ss| - 1]);
      assert Counted(ss, key) == Set(prev, k, Get(prev, k, 0) + 1);
      TotalIncrement(prev, k);
      SetUnique(prev, k, Get(prev, k, 0) + 1);
    }
  }

  /** The per-type and the per-source counts of the result each sum to the
      number of input signals, which the meta also records. */
  lemma AggregateCounts(input: seq<Option<Signal>>)
    ensures var r := AggregateSpec(input);
      r.Some? ==>
        && Total(r.value.typeCounts) == |Present(input)|
        && Total(r.value.sourceCounts) == |Present(input)|
        && r.value.signal.meta.Some?
        && r.value.signal.meta.value["source_signals_count"] == Count(|Present(input)|)
        && r.value.signal.meta.value["aggregated"] == Flag(true)
  {
    CountedSpec(Present(input), TypeKey);
    CountedSpec(Present(input), SourceKey);
  }
}
