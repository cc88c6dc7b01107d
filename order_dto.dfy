/** The trading order record: its enumerations, the field constraints checked
    when an order is created, and the two derived properties. */
module OrderDto {
  import opened Common

  datatype OrderType = Market | Limit | Stop | StopLimit
  datatype OrderSide = Buy | Sell
  datatype OrderStatus = Pending | Submitted | Filled | PartiallyFilled | Cancelled | Rejected | Failed

  /** The enumeration values as stored and exchanged. */
  function TypeValue(t: OrderType): string
  {
    match t
    case Market => "market"
    case Limit => "limit"
    case Stop => "stop"
    case StopLimit => "stop_limit"
  }

  function SideValue(s: OrderSide): string
  {
    match s
    case Buy => "buy"
    case Sell => "sell"
  }

  function StatusValue(s: OrderStatus): string
  {
    match s
    case Pending => "pending"
    case Submitted => "submitted"
    case Filled => "filled"
    case PartiallyFilled => "partially_filled"
    case Cancelled => "cancelled"
    case Rejected => "rejected"
    case Failed => "failed"
  }

  /** `OrderSide(value)`: looking a side up by its value, which raises for any
      other string. */
  function ParseSide(v: string): (r: Option<OrderSide>)
  {
    if v == "buy" then Some(Buy) else if v == "sell" then Some(Sell) else None
  }

  function ParseType(v: string): (r: Option<OrderType>)
  {
    if v == "market" then Some(Market)
    else if v == "limit" then Some(Limit)
    else if v == "stop" then Some(Stop)
    else if v == "stop_limit" then Some(StopLimit)
    else None
  }

  function ParseStatus(v: string): (r: Option<OrderStatus>)
  {
    if v == "pending" then Some(Pending)
    else if v == "submitted" then Some(Submitted)
    else if v == "filled" then Some(Filled)
    else if v == "partially_filled" then Some(PartiallyFilled)
    else if v == "cancelled" then Some(Cancelled)
    else if v == "rejected" then Some(Rejected)
    else if v == "failed" then Some(Failed)
    else None
  }

  /** The order. `id` defaults to a fresh UUID, which the caller supplies;
      the creation and update timestamps are not modelled. */
  datatype Order = Order(
    id: Option<string>,
    brokerId: Option<string>,
    symbol: string,
    side: OrderSide,
    quantity: real,
    orderType: OrderType,
    limitPrice: Option<real>,
    stopPrice: Option<real>,
    status: OrderStatus,
    filledQuantity: real,
    averageFillPrice: real)

  datatype OrderError = QuantityNotPositive

  /** Creating an order from its required fields: the quantity must be
      strictly positive; the status and the fill fields take their defaults. */
  function NewOrder(id: string, symbol: string, side: OrderSide, quantity: real, orderType: OrderType,
                    limitPrice: Option<real>, stopPrice: Option<real>): (r: Result<Order, OrderError>)
    ensures r.Success? <==> quantity > 0.0
    ensures r.Failure? ==> r.error == QuantityNotPositive
    ensures r.Success? ==>
      && r.value.id == Some(id) && r.value.brokerId == None
      && r.value.symbol == symbol && r.value.side == side && r.value.quantity == quantity
      && r.value.orderType == orderType && r.value.limitPrice == limitPrice && r.value.stopPrice == stopPrice
      && r.value.status == Pending && r.value.filledQuantity == 0.0 && r.value.averageFillPrice == 0.0
  {
    if quantity > 0.0 then
      Success(Order(Some(id), None, symbol, side, quantity, orderType, limitPrice, stopPrice, Pending, 0.0, 0.0))
    else
      Failure(QuantityNotPositive)
  }

  predicate IsFilled(o: Order)
  {
    o.status == Filled
  }

  function RemainingQuantity(o: Order): real
  {
    o.quantity - o.filledQuantity
  }

  // ---------------------------------------------------------------------------

  /** A newly created order is not filled and its whole quantity remains. */
  lemma NewOrderIsOpen(id: string, symbol: string, side: OrderSide, quantity: real, orderType: OrderType,
                       limitPrice: Option<real>, stopPrice: Option<real>)
    requires quantity > 0.0
    ensures var o := NewOrder(id, symbol, side, quantity, orderType, limitPrice, stopPrice).value;
      !IsFilled(o) && RemainingQuantity(o) == quantity && RemainingQuantity(o) > 0.0
  {
  }

  /** Each enumeration value reads back as its member, and nothing else parses:
      there are exactly two sides. */
  lemma SideRoundTrip(s: OrderSide, v: string)
    ensures ParseSide(SideValue(s)) == Some(s)
    ensures ParseSide(v).Some? ==> SideValue(ParseSide(v).value) == v
    ensures ParseSide(v).Some? <==> v == "buy" || v == "sell"
  {
  }

  lemma StatusRoundTrip(s: OrderStatus, v: string)
    ensures ParseStatus(StatusValue(s)) == Some(s)
    ensures ParseStatus(v).Some? ==> StatusValue(ParseStatus(v).value) == v
  {
  }

  lemma TypeRoundTrip(t: OrderType, v: string)
    ensures ParseType(TypeValue(t)) == Some(t)
    ensures ParseType(v).Some? ==> TypeValue(ParseType(v).value) == v
  {
  }
}
