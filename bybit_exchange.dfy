/** The Bybit exchange adapter's pure helpers: symbol form, kline interval names, the order type
    and side names it sends, the order states it reads, the signed message and the WebSocket
    order reader. */
module BybitExchange {
  import opened Wrappers
  import opened Text
  import opened SerdeValues
  import opened TradeTypes
  import opened OrderStates

  /** `normalize_symbol` (and `normalize_symbol_static`): upper-casing, as Binance writes
      symbols. */
  function NormalizeSymbol(symbol: string): (r: string)
    ensures |r| == |symbol|
    ensures forall i :: 0 <= i < |r| ==> !IsLowerAscii(r[i])
  {
    var r := Upper(symbol);
    assert forall i :: 0 <= i < |r| ==> !IsLowerAscii(r[i]) by {
      forall i | 0 <= i < |r| ensures !IsLowerAscii(r[i]) {
        UpperCharKeeps(symbol[i]);
      }
    }
    r
  }

  /** Normalising twice is normalising once, and a symbol already in capitals is kept. */
  lemma NormalizeIdempotent(symbol: string)
    ensures NormalizeSymbol(NormalizeSymbol(symbol)) == NormalizeSymbol(symbol)
    ensures (forall i :: 0 <= i < |symbol| ==> !IsLowerAscii(symbol[i])) ==> NormalizeSymbol(symbol) == symbol
  {
    UpperIdempotent(symbol);
    if forall i :: 0 <= i < |symbol| ==> !IsLowerAscii(symbol[i]) {
      UpperFixed(symbol);
    }
  }

  /** `interval_to_bybit`: minutes as numbers, the day as `D`. */
  function IntervalToBybit(interval: Interval): (s: string)
    ensures s == "D" <==> interval == OneDay
  {
    match interval
      case OneMinute => "1"
      case FiveMinutes => "5"
      case FifteenMinutes => "15"
      case ThirtyMinutes => "30"
      case OneHour => "60"
      case FourHours => "240"
      case OneDay => "D"
  }

  /** Different intervals have different names. */
  lemma BybitIntervalInjective(a: Interval, b: Interval)
    ensures IntervalToBybit(a) == IntervalToBybit(b) ==> a == b
  {
  }

  /** `order_type_to_bybit`. */
  function OrderTypeToBybit(t: OrderType): (s: string)
    ensures t == StopLoss ==> s == "CONDITIONAL_MARKET"
  {
    match t
      case Market => "MARKET"
      case Limit => "LIMIT"
      case StopLoss => "CONDITIONAL_MARKET"
      case StopLimit => "CONDITIONAL_LIMIT"
      case OCO => "OCO"
  }

  /** `side_to_bybit`. */
  function SideToBybit(side: OrderSide): (s: string)
    ensures s == "Buy" <==> side == Buy
  {
    match side
      case Buy => "Buy"
      case Sell => "Sell"
  }

  /** Both tables tell their inputs apart; the WebSocket reader turns the names it sends for
      market and limit orders and for both sides back into the same values. */
  lemma BybitNamesInjective(t: OrderType, u: OrderType, a: OrderSide, b: OrderSide)
    ensures OrderTypeToBybit(t) == OrderTypeToBybit(u) ==> t == u
    ensures SideToBybit(a) == SideToBybit(b) ==> a == b
    ensures WsSide(SideToBybit(a)) == a
    ensures t in {Market, Limit} ==> WsOrderType(OrderTypeToBybit(t)) == t
  {
  }

  /** `parse_order_state`: new and partially filled orders are open, unknown text is pending. */
  function ParseOrderState(state: string): (s: OrderState)
    ensures s == Open <==> state == "New" || state == "PartiallyFilled"
    ensures s == Filled <==> state == "Filled"
    ensures s == Canceled <==> state == "Cancelled"
    ensures s == Rejected <==> state == "Rejected"
    ensures s == Pending <==> state !in {"New", "PartiallyFilled", "Filled", "Cancelled", "Rejected"}
    ensures s != PartiallyFilled
  {
    match state
      case "New" => Open
      case "PartiallyFilled" => Open
      case "Filled" => Filled
      case "Cancelled" => Canceled
      case "Rejected" => Rejected
      case _ => Pending
  }

  /** `parse_order_state_static`, the copy the WebSocket reader uses. */
  function ParseOrderStateStatic(state: string): OrderState {
    if state == "New" || state == "PartiallyFilled" then Open
    else if state == "Filled" then Filled
    else if state == "Cancelled" then Canceled
    else if state == "Rejected" then Rejected
    else Pending
  }

  /** The two copies agree on every input. */
  lemma ParseOrderStatesAgree(state: string)
    ensures ParseOrderStateStatic(state) == ParseOrderState(state)
  {
  }

  /** The receive window `sign_request` puts in the message. */
  const RecvWindow := "5000"

  /** The message `sign_request` authenticates: timestamp, API key, receive window and
      parameters, concatenated without separators. */
  function SignMessage(timestamp: string, apiKey: string, params: string): (m: string)
    ensures |m| == |timestamp| + |apiKey| + 4 + |params|
    ensures StartsWith(m, timestamp) && EndsWith(m, params)
    ensures m[|timestamp|..|timestamp| + |apiKey|] == apiKey
    ensures m[|timestamp| + |apiKey|..|timestamp| + |apiKey| + 4] == RecvWindow
  {
    timestamp + apiKey + RecvWindow + params
  }

  /** For one timestamp and key, the message determines the parameters. */
  lemma SignMessageInjective(timestamp: string, apiKey: string, p: string, q: string)
    requires SignMessage(timestamp, apiKey, p) == SignMessage(timestamp, apiKey, q)
    ensures p == q
  {
    var m := SignMessage(timestamp, apiKey, p);
    var n := |timestamp| + |apiKey| + 4;
    assert p == m[n..];
    assert q == SignMessage(timestamp, apiKey, q)[n..];
  }

  /** `data[key].as_str()`: `None` unless the field is a string. */
  function FieldText(data: Value, key: string): (r: Option<string>)
    ensures r.Some? <==> GetOrNull(data, key).Str?
  {
    AsStr(GetOrNull(data, key))
  }

  /** The WebSocket side: `Sell` is a sell, anything else a buy. */
  function WsSide(text: string): (s: OrderSide)
    ensures s == Sell <==> text == "Sell"
  {
    if text == "Sell" then Sell else Buy
  }

  /** The WebSocket order type: `LIMIT` is a limit order, anything else a market order. */
  function WsOrderType(text: string): (t: OrderType)
    ensures t == Limit <==> text == "LIMIT"
    ensures t != Limit ==> t == Market
  {
    if text == "LIMIT" then Limit else Market
  }

  /** `x.as_str().unwrap_or("0").parse().unwrap_or(0.0)`. */
  function TextNumberOrZero(data: Value, key: string): (x: real)
    ensures FieldText(data, key).None? ==> x == 0.0
  {
    match ParseF64Text(FieldText(data, key).GetOr("0"))
      case Some(v) => v
      case None => 0.0
  }

  /** `parse_ws_order_from_value`: it never fails; missing texts become empty, an unknown side
      a buy, an unknown type a market order, and the status follows the order-state table. */
  function ParseWsOrder(data: Value): (o: ExchangeOrder)
    ensures o.exchangeOrderId == Some(o.id)
    ensures o.id == FieldText(data, "orderId").GetOr("")
    ensures o.symbol == NormalizeSymbol(FieldText(data, "symbol").GetOr(""))
    ensures o.side == WsSide(FieldText(data, "side").GetOr(""))
    ensures o.orderType == WsOrderType(FieldText(data, "orderType").GetOr(""))
    ensures o.status == ParseOrderState(FieldText(data, "orderStatus").GetOr(""))
    ensures o.commission == 0.0 && o.filledAt == None
    ensures o.createdAt == AsI64(GetOrNull(data, "createdTime")).GetOr(0)
  {
    var id := FieldText(data, "orderId").GetOr("");
    ParseOrderStatesAgree(FieldText(data, "orderStatus").GetOr(""));
    ExchangeOrder(id, Some(id), FieldText(data, "orderLinkId"),
                  NormalizeSymbol(FieldText(data, "symbol").GetOr("")),
                  WsSide(FieldText(data, "side").GetOr("")),
                  WsOrderType(FieldText(data, "orderType").GetOr("")),
                  match FieldText(data, "price") case Some(t) => ParseF64Text(t) case None => None,
                  TextNumberOrZero(data, "qty"), TextNumberOrZero(data, "cumExecQty"),
                  match FieldText(data, "avgPrice") case Some(t) => ParseF64Text(t) case None => None,
                  ParseOrderStateStatic(FieldText(data, "orderStatus").GetOr("")), 0.0,
                  AsI64(GetOrNull(data, "createdTime")).GetOr(0), None)
  }

  /** An order message without `side` or `orderType` reads as a market buy. */
  lemma WsOrderDefaults(data: Value)
    requires !GetOrNull(data, "side").Str? && !GetOrNull(data, "orderType").Str?
    ensures ParseWsOrder(data).side == Buy && ParseWsOrder(data).orderType == Market
  {
  }
}
