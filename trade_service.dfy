/** The trade service's own checks: the validation of an order request before it is sent to
    the exchange, and the guard that lets only a cancelable order be canceled. */
module TradeService {
  import opened Wrappers
  import opened AppErrors
  import opened TradeTypes
  import opened OrderStates

  /** `OrderRequest`; `f64` fields are reals. */
  datatype OrderRequest = OrderRequest(symbol: string, side: OrderSide, orderType: OrderType,
                                       price: Option<real>, stopPrice: Option<real>, quantity: real,
                                       clientOrderId: Option<string>, timeInForce: Option<string>)

  const QuantityMessage := "Order quantity must be positive"
  const PriceMessage := "Limit orders must have a positive price"
  const StopPriceMessage := "Stop orders must have a positive stop price"

  /** Limit-priced orders: `Limit` and `StopLimit`. */
  predicate NeedsPrice(t: OrderType) { t == Limit || t == StopLimit }

  /** Triggered orders: `StopLoss` and `StopLimit`. */
  predicate NeedsStopPrice(t: OrderType) { t == StopLoss || t == StopLimit }

  /** A present, strictly positive amount. */
  predicate PositiveSome(x: Option<real>) { x.Some? && x.value > 0.0 }

  /** `validate_order_request`: the quantity first, then the price of limit-priced orders,
      then the stop price of triggered orders. */
  function ValidateOrderRequest(request: OrderRequest): (r: Result<(), AppError>)
    ensures request.quantity <= 0.0 ==> r == Err(Validation(QuantityMessage))
    ensures request.quantity > 0.0 && NeedsPrice(request.orderType) && !PositiveSome(request.price) ==>
      r == Err(Validation(PriceMessage))
    ensures r.Err? ==> r.error in {Validation(QuantityMessage), Validation(PriceMessage), Validation(StopPriceMessage)}
  {
    if request.quantity <= 0.0 then Err(Validation(QuantityMessage))
    else if NeedsPrice(request.orderType) && (request.price.None? || request.price.value <= 0.0) then
      Err(Validation(PriceMessage))
    else if NeedsStopPrice(request.orderType) && (request.stopPrice.None? || request.stopPrice.value <= 0.0) then
      Err(Validation(StopPriceMessage))
    else Ok(())
  }

  /** What an order request needs, stated per order type: a positive quantity; a positive
      price for `Limit` and `StopLimit`; a positive stop price for `StopLoss` and `StopLimit`. */
  predicate WellFormed(request: OrderRequest) {
    request.quantity > 0.0 &&
    match request.orderType
      case Market => true
      case Limit => PositiveSome(request.price)
      case StopLoss => PositiveSome(request.stopPrice)
      case StopLimit => PositiveSome(request.price) && PositiveSome(request.stopPrice)
      case OCO => true
  }

  /** The validation accepts exactly the well-formed requests. */
  lemma ValidationIsWellFormedness(request: OrderRequest)
    ensures ValidateOrderRequest(request).Ok? <==> WellFormed(request)
  {
  }

  /** A market order (and an OCO order) with a positive quantity passes whatever its prices. */
  lemma MarketOrderAccepted(request: OrderRequest, price: Option<real>, stopPrice: Option<real>)
    requires request.orderType == Market || request.orderType == OCO
    requires request.quantity > 0.0
    ensures ValidateOrderRequest(request.(price := price, stopPrice := stopPrice)) == Ok(())
  {
  }

  /** A stop-limit order that lacks only its stop price fails on the stop price; one that lacks
      both fails on the price, which is checked first. */
  lemma StopLimitMessages(request: OrderRequest)
    requires request.orderType == StopLimit && request.quantity > 0.0
    ensures PositiveSome(request.price) && request.stopPrice.None? ==>
      ValidateOrderRequest(request) == Err(Validation(StopPriceMessage))
    ensures request.price.None? ==> ValidateOrderRequest(request) == Err(Validation(PriceMessage))
  {
  }

  /** States from which `cancel_order` proceeds to the exchange. */
  predicate Cancelable(s: OrderState) { s == Open || s == PartiallyFilled || s == Canceled }

  /** The guard of `cancel_order`: a state machine built from the stored status must accept a
      move to `Canceled`. An order that is already canceled passes, because staying in a state
      is an accepted move. */
  method CancelGuard(status: OrderState) returns (r: Result<(), AppError>)
    ensures r.Ok? <==> Cancelable(status)
    ensures r.Err? ==> r.error == Validation("Order cannot be canceled: current state is " + DebugName(status))
  {
    var sm := new OrderStateMachine.FromState(status);
    var ok := sm.CanTransitionTo(Canceled);
    AllowedMoves(status, Canceled);
    if !ok {
      return Err(Validation("Order cannot be canceled: current state is " + DebugName(status)));
    }
    return Ok(());
  }
}
