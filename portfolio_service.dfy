/** Order sizing: how many units a signal should trade, given the broker's
    portfolio, the active target weights and the latest prices. */
module PortfolioService {
  import opened Common
  import opened OrderedDict
  import opened Signals
  import opened PortfolioDto
  import opened Constraints

  /** The value of the priced holdings: quantity times latest price, skipping
      symbols without a price. */
  function HoldingsValue(positions: seq<(string, real)>, prices: map<string, real>): real
  {
    if positions == [] then 0.0
    else
      var (symbol, quantity) := positions[|positions| - 1];
      HoldingsValue(positions[..|positions| - 1], prices) + (if symbol in prices then quantity * prices[symbol] else 0.0)
  }

  /** `calculate_total_value`: cash plus the priced holdings. */
  method CalculateTotalValue(portfolio: Portfolio, prices: map<string, real>) returns (totalValue: real)
    ensures totalValue == portfolio.cash + HoldingsValue(portfolio.positions, prices)
  {
    totalValue := portfolio.cash;
    var ps := portfolio.positions;
    for i := 0 to |ps|
      invariant totalValue == portfolio.cash + HoldingsValue(ps[..i], prices)
    {
      assert ps[..i + 1][..i] == ps[..i];
      var (symbol, quantity) := ps[i];
      if symbol !in prices {
        continue;
      }
      var positionValue := quantity * prices[symbol];
      totalValue := totalValue + positionValue;
    }
    assert ps[..|ps|] == ps;
  }

  /** The incremental weight after `validate_weights` on a one-entry table. */
  function ValidatedWeight(symbol: string, w: real, c: PortfolioConstraints): real
  {
    Get(Validated([(symbol, w)], c), symbol, 0.0)
  }

  /** How far the holding falls short of its target value. */
  function Shortfall(total: real, target: real, held: real, price: real): real
  {
    total * target - held * price
  }

  /** The weight that buying `raw` units at `price` adds to a portfolio of value `total`. */
  function IncrementalWeight(raw: real, price: real, total: real): real
    requires total > 0.0
  {
    raw * price / total
  }

  /** The units that a weight of `total` buys at `price`. */
  function Units(weight: real, total: real, price: real): real
    requires price > 0.0
  {
    weight * total / price
  }

  /** The BUY branch once the price (positive), the total value (positive)
      and the target weight (positive) are known. */
  function BuySize(symbol: string, price: real, held: real, cash: real, total: real, target: real,
                   c: PortfolioConstraints): real
    requires price > 0.0 && total > 0.0
  {
    var shortfall := Shortfall(total, target, held, price);
    if shortfall <= 0.0 || cash <= 0.0 then 0.0
    else
      var raw := Min(shortfall, cash) / price;
      Units(ValidatedWeight(symbol, IncrementalWeight(raw, price, total), c), total, price)
  }

  /** `compute_order_size`: positive units to buy, negative units to sell,
      0 for no trade. `portfolio` is what the broker returned (`None` when it
      could not be read). */
  function OrderSize(signal: Signal, portfolio: Option<Portfolio>, weights: seq<(string, real)>,
                     prices: map<string, real>, c: PortfolioConstraints): real
  {
    if signal.signalType == Hold then 0.0
    else if signal.price.None? || signal.price.value <= 0.0 then 0.0
    else if portfolio.None? then 0.0
    else
      var p := portfolio.value;
      var price := signal.price.value;
      var held := Get(p.positions, signal.symbol, 0.0);
      if signal.signalType == Sell then
        if held <= 0.0 then 0.0 else -held
      else if signal.signalType == Buy then
        var total := p.cash + HoldingsValue(p.positions, prices);
        var target := Get(weights, signal.symbol, 0.0);
        if total <= 0.0 || target <= 0.0 then 0.0
        else BuySize(signal.symbol, price, held, p.cash, total, target, c)
      else 0.0
  }

  /** The BUY steps once the total value and the target weight are known
      positive: the shortfall to the target value, capped by the cash, as an
      incremental weight passed through `validate_weights`. */
  method SizeBuy(symbol: string, price: real, held: real, cash: real, total: real, target: real,
                 c: PortfolioConstraints) returns (size: real)
    requires price > 0.0 && total > 0.0
    ensures size == BuySize(symbol, price, held, cash, total, target, c)
  {
    var targetValue := total * target;
    var currentValue := held * price;
    var toInvest := targetValue - currentValue;
    assert toInvest == Shortfall(total, target, held, price);
    if toInvest <= 0.0 {
      return 0.0;
    }
    if cash <= 0.0 {
      return 0.0;
    }
    var invest := Min(toInvest, cash);
    var raw := invest / price;
    var incremental := raw * price / total;
    assert incremental == IncrementalWeight(raw, price, total);
    var validated := ValidateWeights([(symbol, incremental)], c);
    var finalWeight := Get(validated, symbol, 0.0);
    size := finalWeight * total / price;
    assert size == Units(finalWeight, total, price);
  }

  method ComputeOrderSize(signal: Signal, portfolio: Option<Portfolio>, weights: seq<(string, real)>,
                          prices: map<string, real>, c: PortfolioConstraints) returns (size: real)
    ensures size == OrderSize(signal, portfolio, weights, prices, c)
  {
    if signal.signalType == Hold {
      return 0.0;
    }
    if signal.price.None? || signal.price.value <= 0.0 {
      return 0.0;
    }
    if portfolio.None? {
      return 0.0;
    }
    var p := portfolio.value;
    var price := signal.price.value;
    var held := Get(p.positions, signal.symbol, 0.0);
    if signal.signalType == Sell {
      if held <= 0.0 {
        return 0.0;
      }
      return -held;
    }
    if signal.signalType == Buy {
      var total := CalculateTotalValue(p, prices);
      if total <= 0.0 {
        return 0.0;
      }
      var target := Get(weights, signal.symbol, 0.0);
      if target <= 0.0 {
        return 0.0;
      }
      size := SizeBuy(signal.symbol, price, held, p.cash, total, target, c);
      return;
    }
    return 0.0;
  }

  // ---------------------------------------------------------------------------

  /** HOLD, a missing or non-positive price, a missing portfolio, and any type
      other than BUY or SELL all give 0. */
  lemma NoTradeCases(signal: Signal, portfolio: Option<Portfolio>, weights: seq<(string, real)>,
                     prices: map<string, real>, c: PortfolioConstraints)
    ensures signal.signalType == Hold ==> OrderSize(signal, portfolio, weights, prices, c) == 0.0
    ensures signal.price.None? || signal.price.value <= 0.0 ==> OrderSize(signal, portfolio, weights, prices, c) == 0.0
    ensures portfolio.None? ==> OrderSize(signal, portfolio, weights, prices, c) == 0.0
    ensures signal.signalType !in {Buy, Sell} ==> OrderSize(signal, portfolio, weights, prices, c) == 0.0
  {
  }

  /** SELL closes the whole position: minus the quantity held when positive,
      else 0; a sell size is never positive. */
  lemma SellClosesPosition(signal: Signal, p: Portfolio, weights: seq<(string, real)>,
                           prices: map<string, real>, c: PortfolioConstraints)
    requires signal.signalType == Sell && signal.price.Some? && signal.price.value > 0.0
    ensures var held := Get(p.positions, signal.symbol, 0.0);
      OrderSize(signal, Some(p), weights, prices, c) == (if held > 0.0 then -held else 0.0)
    ensures OrderSize(signal, Some(p), weights, prices, c) <= 0.0
  {
  }

  /** The one-entry validation keeps a positive weight at most as large. */
  lemma ValidatedWeightBounds(symbol: string, w: real, c: PortfolioConstraints)
    requires w > 0.0
    ensures 0.0 <= ValidatedWeight(symbol, w, c) <= w
    ensures c == Unconstrained ==> ValidatedWeight(symbol, w, c) == w
  {
    ValidatedAppend([], (symbol, w), c);
    assert [] + [(symbol, w)] == [(symbol, w)];
    ClipBounds(symbol, w, c);
    UnconstrainedKeepsPositive(symbol, w);
  }

  /** Converting units to a weight and back gives the units. */
  lemma ScaleRoundTrip(x: real, price: real, total: real)
    requires price > 0.0 && total > 0.0
    ensures Units(IncrementalWeight(x, price, total), total, price) == x
  {
    var y := x * price / total;
    assert y * total == x * price;
    assert (y * total) / price == x;
  }

  /** The conversion to units is monotone and keeps weights non-negative. */
  lemma ScaleBounds(w: real, w': real, total: real, price: real)
    requires 0.0 <= w <= w' && total > 0.0 && price > 0.0
    ensures 0.0 <= Units(w, total, price) <= Units(w', total, price)
  {
    assert w * total <= w' * total;
  }

  /** A BUY invests `min(shortfall, cash)`: the raw size times the price never
      exceeds the cash or the shortfall to the target value, and the final
      size lies between 0 and the raw size, equal to it under the default
      constraints. */
  lemma BuySizeBounds(symbol: string, price: real, held: real, cash: real, total: real, target: real,
                      c: PortfolioConstraints)
    requires price > 0.0 && total > 0.0
    ensures var shortfall := Shortfall(total, target, held, price);
      var r := BuySize(symbol, price, held, cash, total, target, c);
      && (shortfall <= 0.0 || cash <= 0.0 ==> r == 0.0)
      && (shortfall > 0.0 && cash > 0.0 ==>
            var raw := Min(shortfall, cash) / price;
            && raw * price <= cash && raw * price <= shortfall && raw > 0.0
            && 0.0 <= r <= raw
            && (c == Unconstrained ==> r == raw))
  {
    var shortfall := Shortfall(total, target, held, price);
    if shortfall > 0.0 && cash > 0.0 {
      var invest := Min(shortfall, cash);
      var raw := invest / price;
      assert raw * price == invest;
      assert raw > 0.0;
      var w := IncrementalWeight(raw, price, total);
      assert w > 0.0;
      var vw := ValidatedWeight(symbol, w, c);
      assert BuySize(symbol, price, held, cash, total, target, c) == Units(vw, total, price);
      ValidatedWeightBounds(symbol, w, c);
      ScaleBounds(vw, w, total, price);
      ScaleRoundTrip(raw, price, total);
    }
  }

  /** A BUY needs a positive total value and a positive target weight, and
      then trades `BuySize`; its size is never negative. */
  lemma BuyRule(signal: Signal, p: Portfolio, weights: seq<(string, real)>,
                prices: map<string, real>, c: PortfolioConstraints)
    requires signal.signalType == Buy && signal.price.Some? && signal.price.value > 0.0
    ensures var total := p.cash + HoldingsValue(p.positions, prices);
      var target := Get(weights, signal.symbol, 0.0);
      var r := OrderSize(signal, Some(p), weights, prices, c);
      && (total <= 0.0 || target <= 0.0 ==> r == 0.0)
      && (total > 0.0 && target > 0.0 ==>
            r == BuySize(signal.symbol, signal.price.value, Get(p.positions, signal.symbol, 0.0), p.cash, total, target, c))
      && r >= 0.0
  {
    var total := p.cash + HoldingsValue(p.positions, prices);
    var target := Get(weights, signal.symbol, 0.0);
    if total > 0.0 && target > 0.0 {
      BuySizeBounds(signal.symbol, signal.price.value, Get(p.positions, signal.symbol, 0.0), p.cash, total, target, c);
    }
  }

  /** Holdings of non-negative quantity at non-negative prices only add to
      the cash. */
  lemma {:induction false} HoldingsValueSpec(positions: seq<(string, real)>, prices: map<string, real>)
    requires forall i :: 0 <= i < |positions| ==> positions[i].1 >= 0.0
    requires forall s :: s in prices ==> prices[s] >= 0.0
    ensures HoldingsValue(positions, prices) >= 0.0
  {
    if positions != [] {
      var init := positions[..|positions| - 1];
      assert forall i :: 0 <= i < |init| ==> init[i] == positions[i];
      HoldingsValueSpec(init, prices);
      var (symbol, quantity) := positions[|positions| - 1];
      if symbol in prices {
        assert quantity * prices[symbol] >= 0.0;
      }
    }
  }

  lemma {:induction false} UnpricedIgnored(positions: seq<(string, real)>, prices: map<string, real>, symbol: string, quantity: real)
    requires symbol !in prices
    ensures HoldingsValue(positions + [(symbol, quantity)], prices) == HoldingsValue(positions, prices)
    ensures HoldingsValue([(symbol, quantity)] + positions, prices) == HoldingsValue(positions, prices)
  {
    assert (positions + [(symbol, quantity)])[..|positions|] == positions;
    if positions != [] {
      var init := positions[..|positions| - 1];
      UnpricedIgnored(init, prices, symbol, quantity);
      assert ([(symbol, quantity)] + positions)[..|positions|] == [(symbol, quantity)] + init;
    } else {
      assert [(symbol, quantity)] + positions == positions + [(symbol, quantity)];
    }
  }
}
