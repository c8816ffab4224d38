# Order-intake validator

A Dafny model of the order-intake service of a brokerage-API test bed. The service
takes an order (equity or option, possibly with legs and child strategies) on one of
eight endpoints. The market endpoint tests nothing. Every other endpoint applies a
single test to the order; for one-triggers-OCO that test covers the strategy type and
the child list together. An endpoint then either refuses the order with status 400
and a fixed detail, or accepts it with an endpoint-specific message and echoes the
order unchanged. No order is ever routed,
stored or sent on.

- `order_model.dfy`, module `OrderModel`: the closed enumerations (`AssetType`,
  `OrderType`, `Session`, `Duration`, `Instruction`, `OrderStrategyType`). It also
  has the value records `Instrument`, `OrderLeg` and `Order`. `childOrderStrategies`
  is an `Option<seq<Order>>`, so an order is a tree. `IsTruthy` is the language's
  truth value of an optional list: absent and empty are both false. `Descendant`
  walks the tree along a path of child indices.
- `order_intake.dfy`, module `OrderIntake`: the eight handlers as total functions
  returning a `Response`. A `Response` is `Accepted(message, order)`,
  `Rejected(status, detail)` or `Crashed(exception)`. The module also has the endpoint
  table. It gives each endpoint's route, admission rule, message and detail, written
  apart from the handlers. `Place` dispatches to the handlers and is proved to keep
  the table's contract. The lemmas say what the endpoints check and, shown with
  example orders, what they do not check.

What the code does, and the model with it:
- The leg list may be empty on every endpoint. The option endpoint reads the first
  leg without checking that one exists, so an order with no legs raises an uncaught
  exception (`Crashed`); it is not refused with 400.
- `quantity` is a plain integer that nothing checks; it is not modelled as positive.
- The limit endpoint tests only whether `price` is present and ignores `orderType`.

## Model

| member | source | states |
|---|---|---|
| OrderModel.IsTruthy | api_res.py:132 | an optional child list is false exactly when it is absent or empty, as the language's `not` treats both alike |
| OrderModel.Descendant | api_res.py:72 | following an empty path gives the order itself; a step exists only where a child list with that index exists |
| OrderIntake.PlaceMarketOrder | api_res.py:78-81 | every order is accepted with "Market order placed successfully" and echoed unchanged |
| OrderIntake.PlaceLimitOrder | api_res.py:84-89 | rejected with 400 "Limit price is required" iff price is absent; otherwise accepted with the order unchanged; never crashes |
| OrderIntake.PlaceOptionOrder | api_res.py:92-99 | crashes with an index error iff there are no legs; rejected with 400 "Invalid asset type for option order" iff the first leg exists and is not an OPTION; otherwise accepted unchanged |
| OrderIntake.PlaceVerticalSpreadOrder | api_res.py:102-109 | accepted iff there are exactly two legs; otherwise 400 "Vertical spread must have exactly two legs" |
| OrderIntake.PlaceOneTriggersAnotherOrder | api_res.py:112-117 | accepted iff the strategy is TRIGGER; otherwise 400 "Invalid order strategy type" |
| OrderIntake.PlaceOneCancelsAnotherOrder | api_res.py:120-125 | accepted iff the strategy is OCO; otherwise 400 "Invalid order strategy type" |
| OrderIntake.PlaceOneTriggersOcoOrder | api_res.py:128-139 | accepted iff the strategy is TRIGGER and the child list is present and non-empty; otherwise 400 "Invalid order strategy type or missing child strategies" |
| OrderIntake.PlaceTrailingStopOrder | api_res.py:142-149 | accepted iff the order type is TRAILING_STOP; otherwise 400 "Invalid order type for trailing stop" |
| OrderIntake.Place | api_res.py:78-149 | at every endpoint: accepted iff the endpoint table admits the order, and then echoed with that endpoint's message; every rejection is 400 with the endpoint's detail, and the market endpoint never rejects; a crash happens only at the option endpoint on a leg-less order |
| OrderIntake.Resolve | api_res.py:78-142 | a route resolves only to the endpoint mounted on it |
| OrderIntake.RouteRoundTrip | api_res.py:78-142 | each endpoint's route resolves back to that endpoint |
| OrderIntake.AcceptanceMessageIdentifiesEndpoint | api_res.py:81-149 | the eight acceptance messages are pairwise distinct |
| OrderIntake.StrategyRejectionsIndistinguishable | api_res.py:112-125 | a SINGLE order gets the same 400 "Invalid order strategy type" from both strategy endpoints |
| OrderIntake.StrategyEndpointsDisjoint | api_res.py:112-125 | no order is accepted by both the one-triggers-another and the one-cancels-another endpoint |
| OrderIntake.OneTriggersOcoNarrowsOneTriggersAnother | api_res.py:112-139 | one-triggers-OCO accepts only orders one-triggers-another also accepts; an absent child list and an empty one are treated alike; a TRIGGER order without children passes one and fails the other |
| OrderIntake.EchoPreservesEverySubtree | api_res.py:72-149 | an accepted order's echo agrees with the input at every path of its child tree (a corollary of `Place` echoing the whole order; serialization is not modelled) |
| OrderIntake.EveryEndpointCanAccept | api_res.py:78-149 | every endpoint accepts some order |
| OrderIntake.EveryGuardedEndpointCanReject | api_res.py:84-149 | every endpoint but the market one refuses some order with 400 and its own detail |
| OrderIntake.LimitEndpointAcceptsPricedMarketOrder | api_res.py:84-89 | a MARKET order that carries a price is accepted by the limit endpoint |
| OrderIntake.VerticalSpreadIgnoresLegContents | api_res.py:102-109 | two identical equity legs are accepted as a vertical spread |
| OrderIntake.OptionEndpointChecksFirstLegOnly | api_res.py:92-99 | an option first leg followed by an equity leg is accepted |
| OrderIntake.OneTriggersOcoIgnoresChildren | api_res.py:128-139 | a single leg-less, non-OCO child is enough for one-triggers-OCO to accept |
| OrderIntake.NestedOrdersAcceptedAtAnyDepth | api_res.py:60-72 | for every depth there is an order nested that deep that one-triggers-OCO accepts and echoes |

## Left out

- Web framework plumbing: app construction and the exception-to-HTTP translation. The outcome is the `Response` datatype. Of the route decorators, only the paths are modelled (`Endpoint.Path`, `Resolve`); the HTTP method (every route is POST-only) is not modelled.
- Decoding the request body into an `Order`: string-to-enum coercion, missing-field and wrong-type errors (the framework's 422 path) and forward-reference resolution. This is library behaviour. The model starts from an already-typed `Order`.
- Floating point: `price`, `stopPrice` and `stopPriceOffset` are exact `real`s. Only the presence of `price` is ever tested.
- The free-form optional text fields are carried along so that the echo is complete, but nothing inspects them, and neither does the model.
- The status a `Crashed` response turns into (a server error) is framework behaviour. The model records only that the handler raised an index error.
- The server entry point (host 0.0.0.0, port 8000) is I/O.
- Handlers are declared asynchronous but await nothing, so the model treats them as plain functions.
