/**
  The order data model of the order-intake service: the closed enumerations
  a request body may use and the order record, whose optional list of child
  strategies makes an order a tree.

  Every type here is an immutable value: an order is built once from the
  request body, inspected by one endpoint and echoed back unchanged.
 */
module OrderModel {

  datatype Option<+T> = None | Some(value: T)

  /** Kind of security a leg trades. */
  datatype AssetType = EQUITY | OPTION

  /** How the order is priced and triggered. */
  datatype OrderType = MARKET | LIMIT | STOP | STOP_LIMIT | TRAILING_STOP | NET_DEBIT

  /** Trading session; the service knows only the regular one. */
  datatype Session = NORMAL

  /** How long the order stays working. */
  datatype Duration = DAY | GOOD_TILL_CANCEL

  /** The side and intent of one leg. */
  datatype Instruction =
    | BUY | SELL
    | BUY_TO_OPEN | BUY_TO_COVER | BUY_TO_CLOSE
    | SELL_TO_OPEN | SELL_SHORT | SELL_TO_CLOSE

  /** Whether the order stands alone, triggers its children, or is one side of an OCO pair. */
  datatype OrderStrategyType = SINGLE | TRIGGER | OCO

  datatype Instrument = Instrument(symbol: string, assetType: AssetType)

  /** One buy/sell instruction. The quantity is a plain integer: nothing checks its sign. */
  datatype OrderLeg = OrderLeg(instruction: Instruction, quantity: int, instrument: Instrument)

  /**
    The aggregate root. The three price fields are exact reals standing for the
    wire's floating-point numbers; only the presence of `price` is ever tested.
   */
  datatype Order = Order(
    orderType: OrderType,
    session: Session,
    duration: Duration,
    orderStrategyType: OrderStrategyType,
    orderLegCollection: seq<OrderLeg>,
    price: Option<real>,
    stopPrice: Option<real>,
    stopPriceLinkBasis: Option<string>,
    stopPriceLinkType: Option<string>,
    stopPriceOffset: Option<real>,
    complexOrderStrategyType: Option<string>,
    childOrderStrategies: Option<seq<Order>>
  )

  /**
    The truth value the service's language gives an optional list: both an
    absent list and an empty one are false, any list with an element is true.
   */
  predicate IsTruthy<T(==)>(xs: Option<seq<T>>)
    ensures !IsTruthy(xs) <==> (xs == None || xs == Some([]))
  {
    xs.Some? && |xs.value| > 0
  }

  /**
    The order reached from `o` by following `path`, one child index per level,
    or None when some index on the way is out of range or the order on the way
    has no child list.
   */
  function Descendant(o: Order, path: seq<nat>): (r: Option<Order>)
    ensures path == [] ==> r == Some(o)
    ensures r.Some? && path != [] ==>
      o.childOrderStrategies.Some? && path[0] < |o.childOrderStrategies.value|
    decreases |path|
  {
    if path == [] then Some(o)
    else match o.childOrderStrategies
      case None => None
      case Some(cs) =>
        if path[0] < |cs| then Descendant(cs[path[0]], path[1..]) else None
  }
}
