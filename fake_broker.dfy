/** The simulated broker: it fills every order at once at the latest price,
    books the fill into the stored portfolio (cash and per-symbol quantity) and
    keeps the executed orders in a table keyed by broker id.

    The portfolio store and the price provider are parameters: `PlaceOrder`
    receives the stored portfolio and returns the one to save, and prices come
    as an `Option` (missing price) or a map (symbols without a price absent). */
module FakeBroker {
  import opened Common
  import opened OrderedDict
  import opened OrderDto
  import opened PortfolioDto

  datatype BrokerError = NoPrice | NotFound

  /** The copy of `order` returned to the caller: filled in full at `price`
      under the broker id `brokerId`. */
  function Executed(order: Order, brokerId: string, price: real): Order
  {
    order.(brokerId := Some(brokerId), status := Filled, filledQuantity := order.quantity,
           averageFillPrice := price)
  }

  /** The portfolio after booking a fill of `order` at `price`. */
  function Ledger(p: Portfolio, order: Order, price: real): Portfolio
  {
    var notional := price * order.quantity;
    var oldQty := Get(p.positions, order.symbol, 0.0);
    match order.side
    case Buy => Portfolio(p.cash - notional, Set(p.positions, order.symbol, oldQty + order.quantity))
    case Sell => Portfolio(p.cash + notional, Set(p.positions, order.symbol, Max(0.0, oldQty - order.quantity)))
  }

  /** `get_order` on the order table. */
  function Lookup(orders: map<string, Order>, brokerId: string): Result<Order, BrokerError>
  {
    if brokerId in orders then Success(orders[brokerId]) else Failure(NotFound)
  }

  /** `cancel_order` on the order table: the answer and the new table. */
  function Cancel(orders: map<string, Order>, brokerId: string): (Result<Order, BrokerError>, map<string, Order>)
  {
    if brokerId !in orders then (Failure(NotFound), orders)
    else if orders[brokerId].status == Filled then (Success(orders[brokerId]), orders)
    else
      var cancelled := orders[brokerId].(status := Cancelled);
      (Success(cancelled), orders[brokerId := cancelled])
  }

  /** One entry of `positions()`. */
  datatype PositionRecord = PositionRecord(symbol: string, quantity: real, avgPrice: real,
                                           marketPrice: real, marketValue: real, unrealizedPnl: real)

  function Record(symbol: string, qty: real, price: real): PositionRecord
  {
    PositionRecord(symbol, qty, price, price, qty * price, 0.0)
  }

  /** The records `positions()` reports for `ps`, in portfolio order. */
  function PositionRecords(ps: seq<(string, real)>, prices: map<string, real>): seq<PositionRecord>
  {
    if ps == [] then []
    else
      var (sym, qty) := ps[|ps| - 1];
      PositionRecords(ps[..|ps| - 1], prices)
        + (if qty <= 0.0 || sym !in prices then [] else [Record(sym, qty, prices[sym])])
  }

  class Broker {
    var authenticated: bool
    var orders: map<string, Order>
    const initialCash: real

    constructor(initialCash: real)
      ensures !authenticated && orders == map[] && this.initialCash == initialCash
    {
      authenticated := false;
      orders := map[];
      this.initialCash := initialCash;
    }

    method Auth()
      modifies this
      ensures authenticated && orders == old(orders)
    {
      authenticated := true;
    }

    method EnsureAuth()
      modifies this
      ensures authenticated && orders == old(orders)
    {
      if !authenticated {
        Auth();
      }
    }

    /** Fills `order` at `price`, books it into `portfolio` (returned as the
        portfolio to save) and records the executed order under `brokerId`. A
        missing price fails before anything is booked or recorded. The broker
        id stands for a fresh `uuid4()`, so it names no stored order yet. */
    method PlaceOrder(order: Order, price: Option<real>, brokerId: string, portfolio: Portfolio)
      returns (r: Result<(Order, Portfolio), BrokerError>)
      requires brokerId !in orders
      modifies this
      ensures authenticated
      ensures price.None? ==> r == Failure(NoPrice) && orders == old(orders)
      ensures price.Some? ==>
        && r == Success((Executed(order, brokerId, price.value), Ledger(portfolio, order, price.value)))
        && orders == old(orders)[brokerId := Executed(order, brokerId, price.value)]
    {
      EnsureAuth();
      if price.None? {
        return Failure(NoPrice);
      }
      var px := price.value;
      var executed := order.(brokerId := Some(brokerId), status := Filled,
                             filledQuantity := order.quantity, averageFillPrice := px);
      var notional := px * order.quantity;
      var cash := portfolio.cash;
      var positions := portfolio.positions;
      var oldQty := Get(positions, order.symbol, 0.0);
      var newQty;
      if order.side == Buy {
        cash := cash - notional;
        newQty := oldQty + order.quantity;
      } else {
        cash := cash + notional;
        newQty := Max(0.0, oldQty - order.quantity);
      }
      positions := Set(positions, order.symbol, newQty);
      var updated := Portfolio(cash, positions);
      assert updated == Ledger(portfolio, order, px);
      orders := orders[brokerId := executed];
      r := Success((executed, updated));
    }

    method GetOrder(brokerId: string) returns (r: Result<Order, BrokerError>)
      modifies this
      ensures authenticated && orders == old(orders)
      ensures r == Lookup(orders, brokerId)
    {
      EnsureAuth();
      if brokerId !in orders {
        return Failure(NotFound);
      }
      r := Success(orders[brokerId]);
    }

    method CancelOrder(brokerId: string) returns (r: Result<Order, BrokerError>)
      modifies this
      ensures authenticated
      ensures (r, orders) == Cancel(old(orders), brokerId)
    {
      EnsureAuth();
      if brokerId !in orders {
        return Failure(NotFound);
      }
      var order := orders[brokerId];
      if order.status == Filled {
        return Success(order);
      }
      var cancelled := order.(status := Cancelled);
      orders := orders[brokerId := cancelled];
      r := Success(cancelled);
    }

    /** `positions()` over the stored portfolio, with the latest prices. */
    method Positions(portfolio: Portfolio, prices: map<string, real>) returns (result: seq<PositionRecord>)
      modifies this
      ensures authenticated && orders == old(orders)
      ensures result == PositionRecords(portfolio.positions, prices)
    {
      EnsureAuth();
      var ps := portfolio.positions;
      result := [];
      for i := 0 to |ps|
        invariant authenticated && orders == old(orders)
        invariant result == PositionRecords(ps[..i], prices)
      {
        assert ps[..i + 1] == ps[..i] + [ps[i]];
        PositionRecordsAppend(ps[..i], ps[i], prices);
        var (symbol, qty) := ps[i];
        if qty <= 0.0 {
          continue;
        }
        if symbol !in prices {
          continue;
        }
        var price := prices[symbol];
        result := result + [Record(symbol, qty, price)];
      }
      assert ps[..|ps|] == ps;
    }
  }

  // ---------------------------------------------------------------------------
  // The ledger

  /** The executed order is FILLED in full at the fill price, under the new
      broker id, with nothing left to fill; everything else is the caller's. */
  lemma ExecutedIsFilled(order: Order, brokerId: string, price: real)
    ensures var e := Executed(order, brokerId, price);
      && IsFilled(e) && e.status == Filled && StatusValue(e.status) == "filled"
      && e.filledQuantity == order.quantity && e.averageFillPrice == price
      && e.brokerId == Some(brokerId) && RemainingQuantity(e) == 0.0
      && e.id == order.id && e.symbol == order.symbol && e.side == order.side
      && e.quantity == order.quantity && e.orderType == order.orderType
  {
  }

  /** BUY pays price × quantity and adds the quantity to the holding. */
  lemma LedgerBuy(p: Portfolio, order: Order, price: real)
    requires order.side == Buy
    ensures var q := Ledger(p, order, price);
      && q.cash == p.cash - price * order.quantity
      && Get(q.positions, order.symbol, 0.0) == Get(p.positions, order.symbol, 0.0) + order.quantity
  {
    GetSet(p.positions, order.symbol, Get(p.positions, order.symbol, 0.0) + order.quantity, order.symbol, 0.0);
  }

  /** SELL receives price × quantity and lowers the holding, never below 0. */
  lemma LedgerSell(p: Portfolio, order: Order, price: real)
    requires order.side == Sell
    ensures var q := Ledger(p, order, price);
      var before := Get(p.positions, order.symbol, 0.0);
      var after := Get(q.positions, order.symbol, 0.0);
      && q.cash == p.cash + price * order.quantity
      && after >= 0.0
      && after == (if before - order.quantity >= 0.0 then before - order.quantity else 0.0)
  {
    GetSet(p.positions, order.symbol, Max(0.0, Get(p.positions, order.symbol, 0.0) - order.quantity), order.symbol, 0.0);
  }

  /** The quantity `Ledger` books for the order's symbol. */
  function BookedQuantity(p: Portfolio, order: Order): real
  {
    var oldQty := Get(p.positions, order.symbol, 0.0);
    if order.side == Buy then oldQty + order.quantity else Max(0.0, oldQty - order.quantity)
  }

  lemma LedgerPositions(p: Portfolio, order: Order, price: real)
    ensures Ledger(p, order, price).positions == Set(p.positions, order.symbol, BookedQuantity(p, order))
  {
  }

  /** Booking a fill touches no other symbol, keeps every key where it was
      (a new symbol goes last) and keeps the keys unique. */
  lemma LedgerFrame(p: Portfolio, order: Order, price: real, k: string)
    requires k != order.symbol
    ensures Get(Ledger(p, order, price).positions, k, 0.0) == Get(p.positions, k, 0.0)
    ensures Keys(Ledger(p, order, price).positions) ==
      if HasKey(p.positions, order.symbol) then Keys(p.positions) else Keys(p.positions) + [order.symbol]
    ensures UniqueKeys(p.positions) ==> UniqueKeys(Ledger(p, order, price).positions)
  {
    var v := BookedQuantity(p, order);
    LedgerPositions(p, order, price);
    GetSet(p.positions, order.symbol, v, k, 0.0);
    SetKeys(p.positions, order.symbol, v);
    if UniqueKeys(p.positions) {
      SetUnique(p.positions, order.symbol, v);
    }
  }

  /** A BUY moves value from cash to the holding at the fill price: cash plus
      the holding valued at that price is unchanged. A SELL of no more than is
      held does the same. */
  lemma LedgerConservesValue(p: Portfolio, order: Order, price: real)
    requires order.side == Buy || Get(p.positions, order.symbol, 0.0) >= order.quantity
    ensures var q := Ledger(p, order, price);
      q.cash + price * Get(q.positions, order.symbol, 0.0) == p.cash + price * Get(p.positions, order.symbol, 0.0)
  {
    var before := Get(p.positions, order.symbol, 0.0);
    if order.side == Buy {
      LedgerBuy(p, order, price);
      assert price * (before + order.quantity) == price * before + price * order.quantity;
    } else {
      LedgerSell(p, order, price);
      assert price * (before - order.quantity) == price * before - price * order.quantity;
    }
  }

  // ---------------------------------------------------------------------------
  // The order table

  /** A placed order is found under its broker id, and other ids are unaffected. */
  lemma LookupAfterPlace(orders: map<string, Order>, order: Order, brokerId: string, price: real, other: string)
    requires other != brokerId
    ensures Lookup(orders[brokerId := Executed(order, brokerId, price)], brokerId) == Success(Executed(order, brokerId, price))
    ensures Lookup(orders[brokerId := Executed(order, brokerId, price)], other) == Lookup(orders, other)
  {
  }

  /** Cancelling: an unknown id fails, a FILLED order comes back unchanged, any
      other order comes back and is stored CANCELLED with its other fields kept. */
  lemma CancelOutcome(orders: map<string, Order>, brokerId: string)
    ensures var (r, after) := Cancel(orders, brokerId);
      && (brokerId !in orders ==> r == Failure(NotFound) && after == orders)
      && (brokerId in orders && orders[brokerId].status == Filled ==> r == Success(orders[brokerId]) && after == orders)
      && (brokerId in orders && orders[brokerId].status != Filled ==>
            && r.Success? && r.value.status == Cancelled && r.value == orders[brokerId].(status := Cancelled)
            && after == orders[brokerId := r.value])
      && after.Keys == orders.Keys
  {
  }

  /** Cancelling an order twice is the same as cancelling it once. */
  lemma CancelIdempotent(orders: map<string, Order>, brokerId: string)
    ensures Cancel(Cancel(orders, brokerId).1, brokerId) == Cancel(orders, brokerId)
  {
    if brokerId in orders && orders[brokerId].status != Filled {
      var c := orders[brokerId].(status := Cancelled);
      assert orders[brokerId := c][brokerId := c] == orders[brokerId := c];
    }
  }

  /** An order placed through the broker is FILLED, so cancelling it returns
      it unchanged and leaves the table as it was. */
  lemma PlacedOrderStaysFilled(orders: map<string, Order>, order: Order, brokerId: string, price: real)
    ensures var placed := orders[brokerId := Executed(order, brokerId, price)];
      Cancel(placed, brokerId) == (Success(Executed(order, brokerId, price)), placed)
  {
  }

  // ---------------------------------------------------------------------------
  // positions()

  lemma {:induction false} PositionRecordsAppend(ps: seq<(string, real)>, e: (string, real), prices: map<string, real>)
    ensures PositionRecords(ps + [e], prices) == PositionRecords(ps, prices)
      + (if e.1 <= 0.0 || e.0 !in prices then [] else [Record(e.0, e.1, prices[e.0])])
  {
    assert (ps + [e])[..|ps + [e]| - 1] == ps;
  }

  /** Every record is a held (quantity > 0), priced position of the portfolio,
      valued at its price with zero unrealized P&L; and every such position
      has a record. */
  lemma {:induction false} PositionRecordsSpec(ps: seq<(string, real)>, prices: map<string, real>)
    ensures var rs := PositionRecords(ps, prices);
      && |rs| <= |ps|
      && (forall r :: r in rs ==>
            && (r.symbol, r.quantity) in ps && r.quantity > 0.0 && r.symbol in prices
            && r.avgPrice == prices[r.symbol] && r.marketPrice == prices[r.symbol]
            && r.marketValue == r.quantity * prices[r.symbol] && r.unrealizedPnl == 0.0)
      && (forall e :: e in ps && e.1 > 0.0 && e.0 in prices ==> Record(e.0, e.1, prices[e.0]) in rs)
  {
    if ps != [] {
      var init := ps[..|ps| - 1];
      var e := ps[|ps| - 1];
      PositionRecordsSpec(init, prices);
      assert ps == init + [e];
      PositionRecordsAppend(init, e, prices);
      forall x | x in ps && x.1 > 0.0 && x.0 in prices
        ensures Record(x.0, x.1, prices[x.0]) in PositionRecords(ps, prices)
      {
        if x != e {
          assert x in init;
        }
      }
    }
  }
}
