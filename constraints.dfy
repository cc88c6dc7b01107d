/** Risk constraints on target weights and the clamping of a weight table
    against them. */
module Constraints {
  import opened Common
  import opened OrderedDict

  /** Per-symbol limits; only `maxWeight` is applied. */
  datatype PositionLimit = PositionLimit(maxWeight: Option<real>, maxNotional: Option<real>, maxQuantity: Option<real>)

  datatype PortfolioConstraints = PortfolioConstraints(
    maxGrossExposure: Option<real>,
    maxLeverage: Option<real>,
    maxPositions: Option<int>,
    maxWeightPerSymbol: Option<real>,
    perSymbol: map<string, PositionLimit>,
    blacklist: seq<string>)

  /** `PortfolioConstraints()`: every field at its default. */
  const Unconstrained := PortfolioConstraints(None, None, None, None, map[], [])

  /** The weight of `symbol` after the three clamps: at least 0, at most the
      global per-symbol maximum, at most the symbol's own maximum. */
  function Clip(symbol: string, w: real, c: PortfolioConstraints): real
  {
    var w1 := Max(0.0, w);
    var w2 := if c.maxWeightPerSymbol.Some? then Min(w1, c.maxWeightPerSymbol.value) else w1;
    if symbol in c.perSymbol && c.perSymbol[symbol].maxWeight.Some? then Min(w2, c.perSymbol[symbol].maxWeight.value) else w2
  }

  /** The table `validate_weights` builds from the entries of `weights`, in order. */
  function Validated(weights: seq<(string, real)>, c: PortfolioConstraints): seq<(string, real)>
  {
    if weights == [] then []
    else
      var prev := Validated(weights[..|weights| - 1], c);
      var (symbol, w) := weights[|weights| - 1];
      if symbol in c.blacklist then prev
      else if Clip(symbol, w, c) > 0.0 then Set(prev, symbol, Clip(symbol, w, c))
      else prev
  }

  /** `validate_weights`: drops blacklisted symbols, clamps every other weight
      and keeps it only when it stays positive. */
  method ValidateWeights(weights: seq<(string, real)>, c: PortfolioConstraints) returns (validated: seq<(string, real)>)
    ensures validated == Validated(weights, c)
  {
    validated := [];
    for i := 0 to |weights|
      invariant validated == Validated(weights[..i], c)
    {
      assert weights[..i + 1][..i] == weights[..i];
      var (symbol, w) := weights[i];
      if symbol in c.blacklist {
        continue;
      }
      var wClipped := Max(0.0, w);
      if c.maxWeightPerSymbol.Some? {
        wClipped := Min(wClipped, c.maxWeightPerSymbol.value);
      }
      if symbol in c.perSymbol && c.perSymbol[symbol].maxWeight.Some? {
        wClipped := Min(wClipped, c.perSymbol[symbol].maxWeight.value);
      }
      if wClipped > 0.0 {
        validated := Set(validated, symbol, wClipped);
      }
    }
    assert weights[..|weights|] == weights;
  }

  // ---------------------------------------------------------------------------

  /** The clamps only lower a weight, respect both maxima and are idempotent. */
  lemma ClipBounds(symbol: string, w: real, c: PortfolioConstraints)
    ensures var r := Clip(symbol, w, c);
      && r <= Max(0.0, w)
      && (c.maxWeightPerSymbol.Some? ==> r <= c.maxWeightPerSymbol.value)
      && (symbol in c.perSymbol && c.perSymbol[symbol].maxWeight.Some? ==> r <= c.perSymbol[symbol].maxWeight.value)
      && (r > 0.0 ==> Clip(symbol, r, c) == r)
  {
  }

  lemma ValidatedAppend(weights: seq<(string, real)>, e: (string, real), c: PortfolioConstraints)
    ensures Validated(weights + [e], c) ==
      if e.0 in c.blacklist || Clip(e.0, e.1, c) <= 0.0 then Validated(weights, c)
      else Set(Validated(weights, c), e.0, Clip(e.0, e.1, c))
  {
    assert (weights + [e])[..|weights + [e]| - 1] == weights;
  }

  /** Validation keeps an input symbol exactly when it is not blacklisted and
      its clamped weight is positive, with that clamped weight; it adds no
      symbol. Every output weight is therefore positive. */
  lemma {:induction false} ValidatedEntry(weights: seq<(string, real)>, c: PortfolioConstraints, k: string)
    requires UniqueKeys(weights)
    ensures var r := Validated(weights, c);
      && (HasKey(r, k) <==> HasKey(weights, k) && k !in c.blacklist && Clip(k, Get(weights, k, 0.0), c) > 0.0)
      && (HasKey(r, k) ==> Get(r, k, 0.0) == Clip(k, Get(weights, k, 0.0), c) && Get(r, k, 0.0) > 0.0)
      && UniqueKeys(r)
  {
    if weights != [] {
      var init := weights[..|weights| - 1];
      var e := weights[|weights| - 1];
      assert weights == init + [e];
      assert UniqueKeys(init);
      ValidatedEntry(init, c, k);
      ValidatedEntry(init, c, e.0);
      ValidatedAppend(init, e, c);
      var prev := Validated(init, c);
      assert Keys(weights) == Keys(init) + [e.0];
      LastKeyIsNew(weights);
      GetAbsent(init, e.0, 0.0);
      assert Get(weights, e.0, 0.0) == e.1 by {
        GetFinds(weights, |weights| - 1, 0.0);
      }
      if k != e.0 {
        assert HasKey(weights, k) <==> HasKey(init, k);
        if HasKey(init, k) {
          var j :| 0 <= j < |init| && Keys(init)[j] == k;
          GetFinds(init, j, 0.0);
          GetFinds(weights, j, 0.0);
        }
      }
      if e.0 !in c.blacklist && Clip(e.0, e.1, c) > 0.0 {
        var v := Clip(e.0, e.1, c);
        GetSet(prev, e.0, v, k, 0.0);
        SetKeys(prev, e.0, v);
        SetUnique(prev, e.0, v);
      }
    }
  }

  /** Every weight in the output belongs to a non-blacklisted input symbol, is
      positive, and is at most the input weight (or 0), the global maximum
      and the symbol's own maximum. */
  lemma ValidatedBounds(weights: seq<(string, real)>, c: PortfolioConstraints, k: string)
    requires UniqueKeys(weights) && HasKey(Validated(weights, c), k)
    ensures var v := Get(Validated(weights, c), k, 0.0);
      && HasKey(weights, k) && k !in c.blacklist
      && 0.0 < v <= Max(0.0, Get(weights, k, 0.0))
      && (c.maxWeightPerSymbol.Some? ==> v <= c.maxWeightPerSymbol.value)
      && (k in c.perSymbol && c.perSymbol[k].maxWeight.Some? ==> v <= c.perSymbol[k].maxWeight.value)
  {
    ValidatedEntry(weights, c, k);
    ClipBounds(k, Get(weights, k, 0.0), c);
  }

  /** Validating an already validated table changes nothing. */
  lemma {:induction false} ValidateIdempotent(weights: seq<(string, real)>, c: PortfolioConstraints)
    requires UniqueKeys(weights)
    ensures Validated(Validated(weights, c), c) == Validated(weights, c)
  {
    if weights != [] {
      var init := weights[..|weights| - 1];
      var e := weights[|weights| - 1];
      assert weights == init + [e];
      assert UniqueKeys(init);
      ValidateIdempotent(init, c);
      ValidatedAppend(init, e, c);
      var prev := Validated(init, c);
      if e.0 !in c.blacklist && Clip(e.0, e.1, c) > 0.0 {
        var v := Clip(e.0, e.1, c);
        ValidatedEntry(weights, c, e.0);
        ValidatedEntry(init, c, e.0);
        LastKeyIsNew(weights);
        SetNewKey(prev, e.0, v);
        ClipBounds(e.0, e.1, c);
        ValidatedAppend(prev, (e.0, v), c);
      }
    }
  }

  /** `max_positions` is read but has no effect on the result. */
  lemma {:induction false} MaxPositionsIgnored(weights: seq<(string, real)>, c: PortfolioConstraints, m: Option<int>)
    ensures Validated(weights, c.(maxPositions := m)) == Validated(weights, c)
  {
    if weights != [] {
      MaxPositionsIgnored(weights[..|weights| - 1], c, m);
      var e := weights[|weights| - 1];
      assert Clip(e.0, e.1, c.(maxPositions := m)) == Clip(e.0, e.1, c);
    }
  }

  /** With the default constraints every positive weight passes unchanged and
      every other weight is dropped. */
  lemma UnconstrainedKeepsPositive(symbol: string, w: real)
    ensures Validated([(symbol, w)], Unconstrained) == if w > 0.0 then [(symbol, w)] else []
  {
    ValidatedAppend([], (symbol, w), Unconstrained);
    assert [] + [(symbol, w)] == [(symbol, w)];
  }

  /** No clamp at 1: with the default constraints `{"A": 2.0}` comes back as
      it went in. */
  lemma WeightAboveOneKept()
    ensures Validated([("A", 2.0)], Unconstrained) == [("A", 2.0)]
    ensures Validated([("A", 2.0)], Unconstrained)[0].1 > 1.0
  {
    UnconstrainedKeepsPositive("A", 2.0);
  }
}
