/**
  The eight order-submission endpoints. The market endpoint tests nothing;
  every other endpoint applies a single test to the order (for
  one-triggers-OCO that test covers the strategy type and the child list
  together). An endpoint either rejects the order with status 400 and a fixed
  detail, or accepts it and answers with an endpoint-specific message and the
  order exactly as received. Nothing is placed, stored or sent anywhere.
 */
module OrderIntake {
  import opened OrderModel

  /**
    What a handler answers. `Crashed` is an exception the handler does not
    catch (indexing the first leg of an empty leg list); the framework turns
    it into a server error rather than a 400.
   */
  datatype Response =
    | Accepted(message: string, order: Order)
    | Rejected(status: int, detail: string)
    | Crashed(exception: string)

  const BadRequest := 400

  const MarketPlaced := "Market order placed successfully"
  const LimitPlaced := "Limit order placed successfully"
  const OptionPlaced := "Option order placed successfully"
  const VerticalSpreadPlaced := "Vertical spread order placed successfully"
  const OneTriggersAnotherPlaced := "One-triggers-another order placed successfully"
  const OneCancelsAnotherPlaced := "One-cancels-another order placed successfully"
  const OneTriggersOcoPlaced := "One-triggers-OCO order placed successfully"
  const TrailingStopPlaced := "Trailing stop order placed successfully"

  const LimitPriceRequired := "Limit price is required"
  const InvalidOptionAssetType := "Invalid asset type for option order"
  const VerticalSpreadNeedsTwoLegs := "Vertical spread must have exactly two legs"
  const InvalidStrategyType := "Invalid order strategy type"
  const InvalidStrategyOrNoChildren := "Invalid order strategy type or missing child strategies"
  const InvalidTrailingStopType := "Invalid order type for trailing stop"

  const IndexError := "IndexError: list index out of range"

  // ---------------------------------------------------------------------------
  // The handlers, one per endpoint
  // ---------------------------------------------------------------------------

  /** POST /order/market: every order is accepted. */
  function PlaceMarketOrder(order: Order): (r: Response)
    ensures r.Accepted? && r.order == order && r.message == MarketPlaced
  {
    Accepted(MarketPlaced, order)
  }

  /** POST /order/limit: only the presence of a price is tested, never the order type. */
  function PlaceLimitOrder(order: Order): (r: Response)
    ensures r.Rejected? <==> order.price == None
    ensures r.Rejected? ==> r.status == BadRequest && r.detail == LimitPriceRequired
    ensures r.Accepted? ==> r.order == order && r.message == LimitPlaced
    ensures !r.Crashed?
  {
    if order.price.None? then Rejected(BadRequest, LimitPriceRequired)
    else Accepted(LimitPlaced, order)
  }

  /**
    POST /order/option: only the asset type of the first leg is tested. The
    handler indexes that leg without checking that there is one, so an order
    with no legs makes it crash.
   */
  function PlaceOptionOrder(order: Order): (r: Response)
    ensures r.Crashed? <==> order.orderLegCollection == []
    ensures r.Crashed? ==> r.exception == IndexError
    ensures r.Rejected? <==>
      order.orderLegCollection != [] && order.orderLegCollection[0].instrument.assetType != OPTION
    ensures r.Rejected? ==> r.status == BadRequest && r.detail == InvalidOptionAssetType
    ensures r.Accepted? ==> r.order == order && r.message == OptionPlaced
  {
    if |order.orderLegCollection| == 0 then Crashed(IndexError)
    else if order.orderLegCollection[0].instrument.assetType != OPTION then
      Rejected(BadRequest, InvalidOptionAssetType)
    else Accepted(OptionPlaced, order)
  }

  /** POST /order/vertical_spread: only the number of legs is tested, not what they hold. */
  function PlaceVerticalSpreadOrder(order: Order): (r: Response)
    ensures r.Accepted? <==> |order.orderLegCollection| == 2
    ensures r.Rejected? ==> r.status == BadRequest && r.detail == VerticalSpreadNeedsTwoLegs
    ensures r.Accepted? ==> r.order == order && r.message == VerticalSpreadPlaced
    ensures !r.Crashed?
  {
    if |order.orderLegCollection| != 2 then Rejected(BadRequest, VerticalSpreadNeedsTwoLegs)
    else Accepted(VerticalSpreadPlaced, order)
  }

  /** POST /order/conditional/one_triggers_another: the strategy must be TRIGGER. */
  function PlaceOneTriggersAnotherOrder(order: Order): (r: Response)
    ensures r.Accepted? <==> order.orderStrategyType == TRIGGER
    ensures r.Rejected? ==> r.status == BadRequest && r.detail == InvalidStrategyType
    ensures r.Accepted? ==> r.order == order && r.message == OneTriggersAnotherPlaced
    ensures !r.Crashed?
  {
    if order.orderStrategyType != TRIGGER then Rejected(BadRequest, InvalidStrategyType)
    else Accepted(OneTriggersAnotherPlaced, order)
  }

  /** POST /order/conditional/one_cancels_another: the strategy must be OCO. */
  function PlaceOneCancelsAnotherOrder(order: Order): (r: Response)
    ensures r.Accepted? <==> order.orderStrategyType == OCO
    ensures r.Rejected? ==> r.status == BadRequest && r.detail == InvalidStrategyType
    ensures r.Accepted? ==> r.order == order && r.message == OneCancelsAnotherPlaced
    ensures !r.Crashed?
  {
    if order.orderStrategyType != OCO then Rejected(BadRequest, InvalidStrategyType)
    else Accepted(OneCancelsAnotherPlaced, order)
  }

  /**
    POST /order/conditional/one_triggers_oco: the strategy must be TRIGGER and
    the child list must be truthy (present and non-empty). The children
    themselves are not looked at.
   */
  function PlaceOneTriggersOcoOrder(order: Order): (r: Response)
    ensures r.Accepted? <==>
      order.orderStrategyType == TRIGGER
      && order.childOrderStrategies.Some? && |order.childOrderStrategies.value| > 0
    ensures r.Rejected? ==> r.status == BadRequest && r.detail == InvalidStrategyOrNoChildren
    ensures r.Accepted? ==> r.order == order && r.message == OneTriggersOcoPlaced
    ensures !r.Crashed?
  {
    if order.orderStrategyType != TRIGGER || !IsTruthy(order.childOrderStrategies) then
      Rejected(BadRequest, InvalidStrategyOrNoChildren)
    else Accepted(OneTriggersOcoPlaced, order)
  }

  /** POST /order/trailing_stop: the order type must be TRAILING_STOP. */
  function PlaceTrailingStopOrder(order: Order): (r: Response)
    ensures r.Accepted? <==> order.orderType == TRAILING_STOP
    ensures r.Rejected? ==> r.status == BadRequest && r.detail == InvalidTrailingStopType
    ensures r.Accepted? ==> r.order == order && r.message == TrailingStopPlaced
    ensures !r.Crashed?
  {
    if order.orderType != TRAILING_STOP then Rejected(BadRequest, InvalidTrailingStopType)
    else Accepted(TrailingStopPlaced, order)
  }

  // ---------------------------------------------------------------------------
  // The endpoint table: route, admission rule, acceptance message and
  // rejection detail of each endpoint, stated independently of the handlers
  // ---------------------------------------------------------------------------

  datatype Endpoint =
    | Market | Limit | OptionOrder | VerticalSpread
    | OneTriggersAnother | OneCancelsAnother | OneTriggersOco | TrailingStop
  {
    /** The route the endpoint is mounted on. */
    function Path(): string
    {
      match this
      case Market => "/order/market"
      case Limit => "/order/limit"
      case OptionOrder => "/order/option"
      case VerticalSpread => "/order/vertical_spread"
      case OneTriggersAnother => "/order/conditional/one_triggers_another"
      case OneCancelsAnother => "/order/conditional/one_cancels_another"
      case OneTriggersOco => "/order/conditional/one_triggers_oco"
      case TrailingStop => "/order/trailing_stop"
    }

    function SuccessMessage(): string
    {
      match this
      case Market => MarketPlaced
      case Limit => LimitPlaced
      case OptionOrder => OptionPlaced
      case VerticalSpread => VerticalSpreadPlaced
      case OneTriggersAnother => OneTriggersAnotherPlaced
      case OneCancelsAnother => OneCancelsAnotherPlaced
      case OneTriggersOco => OneTriggersOcoPlaced
      case TrailingStop => TrailingStopPlaced
    }

    /** The detail of a rejection; the market endpoint never rejects. */
    function RejectionDetail(): string
      requires this != Market
    {
      match this
      case Limit => LimitPriceRequired
      case OptionOrder => InvalidOptionAssetType
      case VerticalSpread => VerticalSpreadNeedsTwoLegs
      case OneTriggersAnother => InvalidStrategyType
      case OneCancelsAnother => InvalidStrategyType
      case OneTriggersOco => InvalidStrategyOrNoChildren
      case TrailingStop => InvalidTrailingStopType
    }

    /** The condition under which the endpoint accepts an order. */
    predicate Admits(o: Order)
    {
      match this
      case Market => true
      case Limit => o.price.Some?
      case OptionOrder =>
        |o.orderLegCollection| >= 1 && o.orderLegCollection[0].instrument.assetType == OPTION
      case VerticalSpread => |o.orderLegCollection| == 2
      case OneTriggersAnother => o.orderStrategyType == TRIGGER
      case OneCancelsAnother => o.orderStrategyType == OCO
      case OneTriggersOco => o.orderStrategyType == TRIGGER && IsTruthy(o.childOrderStrategies)
      case TrailingStop => o.orderType == TRAILING_STOP
    }
  }

  /** The endpoint mounted on `path`, if any. Only the path is matched; every route accepts POST only, and the HTTP method is not modelled. */
  function Resolve(path: string): (r: Option<Endpoint>)
    ensures r.Some? ==> r.value.Path() == path
  {
    if path == Market.Path() then Some(Market)
    else if path == Limit.Path() then Some(Limit)
    else if path == OptionOrder.Path() then Some(OptionOrder)
    else if path == VerticalSpread.Path() then Some(VerticalSpread)
    else if path == OneTriggersAnother.Path() then Some(OneTriggersAnother)
    else if path == OneCancelsAnother.Path() then Some(OneCancelsAnother)
    else if path == OneTriggersOco.Path() then Some(OneTriggersOco)
    else if path == TrailingStop.Path() then Some(TrailingStop)
    else None
  }

  /**
    Submitting `order` to endpoint `e`: the uniform contract every endpoint
    keeps. An admitted order is echoed unchanged with the endpoint's message;
    any other order is refused with 400 and the endpoint's detail, except the
    leg-less order at the option endpoint, which crashes the handler.
   */
  function Place(e: Endpoint, order: Order): (r: Response)
    ensures r.Accepted? <==> e.Admits(order)
    ensures r.Accepted? ==> r.order == order && r.message == e.SuccessMessage()
    ensures r.Crashed? <==> e == OptionOrder && order.orderLegCollection == []
    ensures r.Rejected? ==> e != Market && r.status == BadRequest && r.detail == e.RejectionDetail()
  {
    match e
    case Market => PlaceMarketOrder(order)
    case Limit => PlaceLimitOrder(order)
    case OptionOrder => PlaceOptionOrder(order)
    case VerticalSpread => PlaceVerticalSpreadOrder(order)
    case OneTriggersAnother => PlaceOneTriggersAnotherOrder(order)
    case OneCancelsAnother => PlaceOneCancelsAnotherOrder(order)
    case OneTriggersOco => PlaceOneTriggersOcoOrder(order)
    case TrailingStop => PlaceTrailingStopOrder(order)
  }

  // ---------------------------------------------------------------------------
  // Properties of the endpoints
  // ---------------------------------------------------------------------------

  /** Each endpoint is reachable by its own route and by no other. */
  lemma RouteRoundTrip(e: Endpoint)
    ensures Resolve(e.Path()) == Some(e)
  {
  }

  /** The acceptance message tells which endpoint accepted the order. */
  lemma AcceptanceMessageIdentifiesEndpoint(e1: Endpoint, e2: Endpoint)
    requires e1.SuccessMessage() == e2.SuccessMessage()
    ensures e1 == e2
  {
  }

  /**
    The two strategy endpoints refuse with the same detail, so a client
    cannot tell from the rejection which strategy was expected.
   */
  lemma StrategyRejectionsIndistinguishable(o: Order)
    requires o.orderStrategyType == SINGLE
    ensures Place(OneTriggersAnother, o) == Place(OneCancelsAnother, o)
    ensures Place(OneTriggersAnother, o) == Rejected(BadRequest, InvalidStrategyType)
  {
  }

  /** No order is accepted by both the one-triggers-another and the one-cancels-another endpoint. */
  lemma StrategyEndpointsDisjoint(o: Order)
    ensures !(Place(OneTriggersAnother, o).Accepted? && Place(OneCancelsAnother, o).Accepted?)
  {
  }

  /**
    The one-triggers-OCO endpoint admits a subset of what the
    one-triggers-another endpoint admits, and an absent child list is treated
    exactly like an empty one.
   */
  lemma OneTriggersOcoNarrowsOneTriggersAnother(o: Order)
    ensures Place(OneTriggersOco, o).Accepted? ==> Place(OneTriggersAnother, o).Accepted?
    ensures Place(OneTriggersOco, o.(childOrderStrategies := None))
         == Place(OneTriggersOco, o.(childOrderStrategies := Some([])))
    ensures o.orderStrategyType == TRIGGER && !IsTruthy(o.childOrderStrategies) ==>
      Place(OneTriggersAnother, o).Accepted?
      && Place(OneTriggersOco, o) == Rejected(BadRequest, InvalidStrategyOrNoChildren)
  {
  }

  /**
    An accepted order comes back unchanged at every level of its tree of child
    strategies. This is a corollary of `Place` echoing the whole order; the
    serialized form of the echo is not part of this model.
   */
  lemma EchoPreservesEverySubtree(e: Endpoint, o: Order, path: seq<nat>)
    requires Place(e, o).Accepted?
    ensures Descendant(Place(e, o).order, path) == Descendant(o, path)
  {
  }

  // ---------------------------------------------------------------------------
  // What the endpoints do not check, shown by example orders
  // ---------------------------------------------------------------------------

  /** A one-leg day order with no price, no children and all optional text fields absent. */
  function Sample(t: OrderType, s: OrderStrategyType, legs: seq<OrderLeg>, children: Option<seq<Order>>): Order
  {
    Order(t, NORMAL, DAY, s, legs, None, None, None, None, None, None, children)
  }

  const EquityLeg := OrderLeg(BUY, 1, Instrument("XYZ", EQUITY))
  const OptionLeg := OrderLeg(BUY_TO_OPEN, 1, Instrument("XYZ_C100", OPTION))

  /** Every endpoint accepts some order. */
  lemma EveryEndpointCanAccept(e: Endpoint)
    ensures exists o: Order :: Place(e, o).Accepted?
  {
    var o := match e
      case Market => Sample(MARKET, SINGLE, [EquityLeg], None)
      case Limit => Sample(LIMIT, SINGLE, [EquityLeg], None).(price := Some(100.5))
      case OptionOrder => Sample(MARKET, SINGLE, [OptionLeg], None)
      case VerticalSpread => Sample(NET_DEBIT, SINGLE, [OptionLeg, OptionLeg], None)
      case OneTriggersAnother => Sample(LIMIT, TRIGGER, [EquityLeg], None)
      case OneCancelsAnother => Sample(LIMIT, OCO, [EquityLeg], None)
      case OneTriggersOco =>
        Sample(LIMIT, TRIGGER, [EquityLeg], Some([Sample(LIMIT, OCO, [EquityLeg], None)]))
      case TrailingStop => Sample(TRAILING_STOP, SINGLE, [EquityLeg], None);
    assert Place(e, o).Accepted?;
  }

  /** Every endpoint except the market one refuses some order with status 400. */
  lemma EveryGuardedEndpointCanReject(e: Endpoint)
    requires e != Market
    ensures exists o: Order :: Place(e, o) == Rejected(BadRequest, e.RejectionDetail())
  {
    var o := match e
      case OptionOrder => Sample(MARKET, SINGLE, [EquityLeg], None)
      case OneCancelsAnother => Sample(MARKET, TRIGGER, [EquityLeg], None)
      case _ => Sample(MARKET, SINGLE, [EquityLeg], None);
    assert Place(e, o).Rejected?;
  }

  /** The limit endpoint accepts a MARKET order as long as it carries a price. */
  lemma LimitEndpointAcceptsPricedMarketOrder()
    ensures exists o: Order :: o.orderType == MARKET && Place(Limit, o) == Accepted(LimitPlaced, o)
  {
    var o := Sample(MARKET, SINGLE, [EquityLeg], None).(price := Some(1.0));
    assert Place(Limit, o).Accepted?;
  }

  /** The vertical-spread endpoint accepts two identical equity legs. */
  lemma VerticalSpreadIgnoresLegContents()
    ensures exists o: Order :: (|o.orderLegCollection| == 2
      && o.orderLegCollection[0] == o.orderLegCollection[1]
      && o.orderLegCollection[0].instrument.assetType == EQUITY
      && Place(VerticalSpread, o) == Accepted(VerticalSpreadPlaced, o))
  {
    var o := Sample(MARKET, SINGLE, [EquityLeg, EquityLeg], None);
    assert Place(VerticalSpread, o).Accepted?;
  }

  /**
    The option endpoint looks at the first leg only: an option first leg
    followed by an equity leg is accepted.
   */
  lemma OptionEndpointChecksFirstLegOnly()
    ensures exists o: Order :: (|o.orderLegCollection| == 2
      && o.orderLegCollection[1].instrument.assetType == EQUITY
      && Place(OptionOrder, o) == Accepted(OptionPlaced, o))
  {
    var o := Sample(MARKET, SINGLE, [OptionLeg, EquityLeg], None);
    assert Place(OptionOrder, o).Accepted?;
  }

  /**
    The one-triggers-OCO endpoint does not look inside the child list: a
    single leg-less child that is not an OCO order is enough.
   */
  lemma OneTriggersOcoIgnoresChildren()
    ensures exists o: Order :: (o.childOrderStrategies.Some? && |o.childOrderStrategies.value| == 1
      && o.childOrderStrategies.value[0].orderStrategyType != OCO
      && o.childOrderStrategies.value[0].orderLegCollection == []
      && Place(OneTriggersOco, o) == Accepted(OneTriggersOcoPlaced, o))
  {
    var child := Sample(MARKET, SINGLE, [], None);
    var o := Sample(LIMIT, TRIGGER, [EquityLeg], Some([child]));
    assert Place(OneTriggersOco, o).Accepted?;
  }

  /** A TRIGGER order nested `d` levels deep through first children. */
  function Chain(d: nat): Order
  {
    if d == 0 then Sample(LIMIT, OCO, [EquityLeg], None)
    else Sample(LIMIT, TRIGGER, [EquityLeg], Some([Chain(d - 1)]))
  }

  function FirstChildPath(d: nat): (p: seq<nat>)
    ensures |p| == d && forall i :: 0 <= i < d ==> p[i] == 0
  {
    seq(d, _ => 0)
  }

  lemma {:induction false} ChainReachesDepth(d: nat)
    ensures Descendant(Chain(d), FirstChildPath(d)) == Some(Chain(0))
  {
    if d > 0 {
      ChainReachesDepth(d - 1);
      assert FirstChildPath(d)[1..] == FirstChildPath(d - 1);
    }
  }

  /**
    Nesting has no bound: for every depth there is an order with descendants
    that deep which the one-triggers-OCO endpoint accepts and echoes.
   */
  lemma NestedOrdersAcceptedAtAnyDepth(d: nat)
    requires d >= 1
    ensures exists o: Order :: (Descendant(o, FirstChildPath(d)).Some?
      && Place(OneTriggersOco, o) == Accepted(OneTriggersOcoPlaced, o))
  {
    ChainReachesDepth(d);
    assert Place(OneTriggersOco, Chain(d)).Accepted?;
  }
}
