/** The OKX market-data converter: its symbol forms and the conversion of order and position
    replies into the unified records. */
module OkxConversion {
  import opened Wrappers
  import opened Text
  import opened SerdeValues
  import opened Converters
  import opened TradeTypes
  import opened OrderStates

  /** `OkxConverter::symbol_format`. */
  const Format: SymbolFormat := Dash

  /** The quotes `denormalize_symbol` looks for, in the order it tries them. */
  const CommonQuotes: seq<string> := ["USDT", "USD", "EUR", "BTC", "ETH", "BNB"]

  /** Index of the first quote in `quotes[from..]` that ends `symbol`. */
  function FirstQuote(symbol: string, from: nat): (k: Option<nat>)
    requires from <= |CommonQuotes|
    decreases |CommonQuotes| - from
    ensures k.Some? ==> from <= k.value < |CommonQuotes| && EndsWith(symbol, CommonQuotes[k.value])
    ensures k.Some? ==> forall j :: from <= j < k.value ==> !EndsWith(symbol, CommonQuotes[j])
    ensures k.None? ==> forall j :: from <= j < |CommonQuotes| ==> !EndsWith(symbol, CommonQuotes[j])
  {
    if from == |CommonQuotes| then None
    else if EndsWith(symbol, CommonQuotes[from]) then Some(from)
    else FirstQuote(symbol, from + 1)
  }

  predicate IsAscii(s: string) { forall i :: 0 <= i < |s| ==> (s[i] as int) < 0x80 }

  /** Inputs `denormalize_symbol` does not panic on: one ending in a listed quote, or ASCII text
      long enough to be split after its third character. */
  predicate CanDenormalize(symbol: string) {
    FirstQuote(symbol, 0).Some? || (|symbol| >= 3 && IsAscii(symbol))
  }

  /** `denormalize_symbol`: a dash before the first listed quote that ends the symbol;
      otherwise a dash after three characters for symbols of up to six, after four for longer
      ones. */
  function Denormalized(symbol: string): (r: string)
    requires CanDenormalize(symbol)
    ensures exists k :: 0 <= k <= |symbol| && r == symbol[..k] + "-" + symbol[k..]
  {
    var k := SplitPoint(symbol);
    symbol[..k] + "-" + symbol[k..]
  }

  /** Where the dash goes. */
  function SplitPoint(symbol: string): (k: nat)
    requires CanDenormalize(symbol)
    ensures k <= |symbol|
    ensures FirstQuote(symbol, 0).Some? ==> symbol[k..] == CommonQuotes[FirstQuote(symbol, 0).value]
    ensures FirstQuote(symbol, 0).None? ==> k == (if |symbol| <= 6 then 3 else 4)
  {
    match FirstQuote(symbol, 0)
      case Some(q) => |symbol| - |CommonQuotes[q]|
      case None => if |symbol| <= 6 then 3 else 4
  }

  /** The same, as the source writes it: a loop over the quotes that returns at the first
      match. */
  method DenormalizeSymbol(symbol: string) returns (r: string)
    requires CanDenormalize(symbol)
    ensures r == Denormalized(symbol)
  {
    var i := 0;
    while i < |CommonQuotes|
      invariant 0 <= i <= |CommonQuotes|
      invariant FirstQuote(symbol, 0) == FirstQuote(symbol, i)
    {
      var quote := CommonQuotes[i];
      if EndsWith(symbol, quote) {
        var base := symbol[..|symbol| - |quote|];
        return base + "-" + quote;
      }
      i := i + 1;
    }
    if |symbol| <= 6 {
      r := symbol[..3] + "-" + symbol[3..];
    } else {
      r := symbol[..4] + "-" + symbol[4..];
    }
  }

  /** The converter's own example: `BTCUSDT` becomes `BTC-USDT`. */
  lemma DenormalizeUsdt()
    ensures Denormalized("BTCUSDT") == "BTC-USDT"
  {
    assert EndsWith("BTCUSDT", CommonQuotes[0]) by {
      assert "BTCUSDT"[3..] == "USDT";
    }
    assert "BTCUSDT"[..3] == "BTC";
  }

  /** Capitals and digits. */
  predicate Alphanumeric(s: string) { forall i :: 0 <= i < |s| ==> IsUpperAscii(s[i]) || IsDigit(s[i]) }

  /** For a symbol of capitals and digits, normalising the OKX form gives the symbol back. */
  lemma DenormalizeRoundTrip(symbol: string)
    requires Alphanumeric(symbol) && |symbol| >= 3
    ensures CanDenormalize(symbol)
    ensures NormalizeSymbolRaw(Denormalized(symbol)) == symbol
  {
    assert IsAscii(symbol);
    var k := SplitPoint(symbol);
    var base, quote := symbol[..k], symbol[k..];
    AlphanumericParts(symbol, k);
    JoinedSymbol(base, '-', quote);
    assert base + ['-'] + quote == base + "-" + quote;
    assert base + quote == symbol;
  }

  lemma AlphanumericParts(symbol: string, k: nat)
    requires Alphanumeric(symbol) && k <= |symbol|
    ensures Clean(symbol[..k]) && Clean(symbol[k..])
  {
    assert forall i :: 0 <= i < k ==> symbol[..k][i] == symbol[i];
    assert forall i :: 0 <= i < |symbol| - k ==> symbol[k..][i] == symbol[k + i];
  }

  /** `convert_order`'s side text. */
  function SideOf(text: string): (r: Result<OrderSide, ConversionError>)
    ensures r.Ok? <==> text == "buy" || text == "sell"
    ensures r == Ok(Buy) <==> text == "buy"
    ensures r.Err? ==> r.error == InvalidValue("side", Raw(text))
  {
    if text == "buy" then Ok(Buy)
    else if text == "sell" then Ok(Sell)
    else Err(InvalidValue("side", Raw(text)))
  }

  /** `convert_order`'s order type, read from `tdMode`; anything unknown is a limit order. */
  function OrderTypeOf(text: string): (t: OrderType)
    ensures t != OCO
    ensures t == Market <==> text == "market"
    ensures text !in {"market", "limit", "stop_loss", "stop_limit"} ==> t == Limit
  {
    if text == "market" then Market
    else if text == "limit" then Limit
    else if text == "stop_loss" then StopLoss
    else if text == "stop_limit" then StopLimit
    else Limit
  }

  /** `convert_order`'s state: `live` and `partially_filled` are open; unknown text is
      pending. */
  function StatusOf(text: string): (s: OrderState)
    ensures s == Open <==> text == "live" || text == "partially_filled"
    ensures s == Filled <==> text == "filled"
    ensures s == Canceled <==> text == "canceled"
    ensures s == Pending <==> text !in {"live", "partially_filled", "filled", "canceled"}
  {
    if text == "live" || text == "partially_filled" then Open
    else if text == "filled" then Filled
    else if text == "canceled" then Canceled
    else Pending
  }

  /** The converter never reports a partially filled or rejected order. */
  lemma StatusRange(text: string)
    ensures StatusOf(text) != PartiallyFilled && StatusOf(text) != Rejected
  {
  }

  /** `field.and_then(|v| v.as_str().and_then(|s| s.parse().ok()))`. */
  function OptionalNumber(data: Value, key: string): (r: Option<real>)
    ensures r.Some? ==> Get(data, key).Some? && Get(data, key).value.Str?
  {
    match Get(data, key)
      case Some(Str(s)) => ParseF64Text(s)
      case _ => None
  }

  /** `field.and_then(|v| v.as_str()).map(String::from)`. */
  function OptionalText(data: Value, key: string): (r: Option<string>)
    ensures r.Some? <==> Get(data, key).Some? && Get(data, key).value.Str?
  {
    match Get(data, key)
      case Some(Str(c)) => Some(c)
      case _ => None
  }

  /** `field.and_then(|v| normalize_timestamp(v, key).ok())`. */
  function OptionalTimestamp(data: Value, key: string): (r: Option<int>)
    ensures r.Some? <==> Get(data, key).Some? && NormalizeTimestamp(Get(data, key).value, key).Ok?
  {
    match Get(data, key)
      case Some(v) => (match NormalizeTimestamp(v, key) case Ok(t) => Some(t) case Err(_) => None)
      case None => None
  }

  /** `parse_f64(...).or(Ok(0.0))`. */
  function NumberOrZero(data: Value, key: string): (x: real)
    ensures ParseF64(GetOrNull(data, key), key).Ok? ==> x == ParseF64(GetOrNull(data, key), key).value
    ensures ParseF64(GetOrNull(data, key), key).Err? ==> x == 0.0
  {
    match ParseF64(GetOrNull(data, key), key)
      case Ok(x) => x
      case Err(_) => 0.0
  }

  /** `convert_order`: the fields are read in the order the source reads them, and the first
      failure is the result. */
  function ConvertOrder(raw: Value): (r: Result<ExchangeOrder, ConversionError>)
    ensures GetField(raw, "data").Err? ==> r == Err(MissingField("data"))
    ensures GetField(raw, "data").Ok? ==> r == OrderOfData(GetField(raw, "data").value)
  {
    var data :- GetField(raw, "data");
    OrderOfData(data)
  }

  /** The body of `convert_order` once `data` is found. */
  function OrderOfData(data: Value): (r: Result<ExchangeOrder, ConversionError>)
    ensures r.Ok? ==> r.value.exchangeOrderId == Some(r.value.id)
    ensures r.Ok? ==> Clean(r.value.symbol)
  {
    var sideText :- ParseStr(GetOrNull(data, "side"), "side");
    var side :- SideOf(sideText);
    var typeText :- ParseStr(GetOrNull(data, "tdMode"), "tdMode");
    var stateText :- ParseStr(GetOrNull(data, "state"), "state");
    var id :- ParseStr(GetOrNull(data, "ordId"), "ordId");
    var instId :- ParseStr(GetOrNull(data, "instId"), "instId");
    var quantity :- match ParseF64(GetOrNull(data, "fillSz"), "fillSz")
                      case Ok(x) => Ok(x)
                      case Err(_) => ParseF64(GetOrNull(data, "sz"), "sz");
    var createdAt :- NormalizeTimestamp(GetOrNull(data, "cTime"), "cTime");
    Ok(ExchangeOrder(id, Some(id), OptionalText(data, "clOrdId"),
                      NormalizeSymbolRaw(instId), side, OrderTypeOf(typeText), OptionalNumber(data, "px"),
                      quantity, NumberOrZero(data, "fillSz"), OptionalNumber(data, "avgPx"),
                      StatusOf(stateText), NumberOrZero(data, "fee"), createdAt, OptionalTimestamp(data, "uTime")))
  }

  /** An order reply converts only when its side is `buy` or `sell`; any other side text is
      reported as an invalid `side`. */
  lemma ConvertOrderSide(raw: Value)
    requires GetField(raw, "data").Ok?
    requires GetOrNull(GetField(raw, "data").value, "side").Str?
    ensures var text := GetOrNull(GetField(raw, "data").value, "side").s;
      (ConvertOrder(raw).Ok? ==> text in {"buy", "sell"} && ConvertOrder(raw).value.side == SideOf(text).value) &&
      (text !in {"buy", "sell"} ==> ConvertOrder(raw) == Err(InvalidValue("side", Raw(text))))
  {
  }

  /** A converted order's status is the state text's mapping, and its quantity is the filled
      size when that parses and the order size otherwise. */
  lemma ConvertOrderStatus(raw: Value)
    requires ConvertOrder(raw).Ok?
    ensures var data := GetField(raw, "data").value;
      GetOrNull(data, "state").Str? &&
      ConvertOrder(raw).value.status == StatusOf(GetOrNull(data, "state").s) &&
      ConvertOrder(raw).value.orderType == OrderTypeOf(GetOrNull(data, "tdMode").s) &&
      (ParseF64(GetOrNull(data, "fillSz"), "fillSz").Ok? ==>
        ConvertOrder(raw).value.quantity == ParseF64(GetOrNull(data, "fillSz"), "fillSz").value) &&
      (ParseF64(GetOrNull(data, "fillSz"), "fillSz").Err? ==>
        ConvertOrder(raw).value.quantity == ParseF64(GetOrNull(data, "sz"), "sz").value)
  {
  }

  /** `|x|`. */
  function Abs(x: real): (a: real)
    ensures a >= 0.0 && (a == x || a == -x)
  {
    if x >= 0.0 then x else -x
  }

  /** One entry of `convert_position`: a non-negative `pos` is long, a negative one short, and
      the quantity is its magnitude. */
  function PositionEntry(obj: Value): (r: Result<Position, ConversionError>)
    ensures r.Ok? ==> ParseF64(GetOrNull(obj, "pos"), "pos").Ok?
    ensures r.Ok? ==> var pos := ParseF64(GetOrNull(obj, "pos"), "pos").value;
      (r.value.side == "long" <==> pos >= 0.0) && (r.value.side == "short" <==> pos < 0.0) &&
      r.value.quantity == Abs(pos)
    ensures r.Ok? ==> Clean(r.value.symbol)
  {
    var instId :- ParseStr(GetOrNull(obj, "instId"), "instId");
    var pos :- ParseF64(GetOrNull(obj, "pos"), "pos");
    var side := if pos >= 0.0 then "long" else "short";
    var id :- ParseStr(GetOrNull(obj, "posId"), "posId");
    var entryPrice :- ParseF64(GetOrNull(obj, "avgPx"), "avgPx");
    var openedAt :- NormalizeTimestamp(GetOrNull(obj, "uTime"), "uTime");
    Ok(Position(id, NormalizeSymbolRaw(instId), side, Abs(pos), entryPrice, OptionalNumber(obj, "last"),
                NumberOrZero(obj, "upl"), NumberOrZero(obj, "realizedPnl"), openedAt))
  }

  /** `convert_position`: each element of the `data` array in turn, stopping at the first that
      fails; a `data` that is not an array gives no positions. */
  method ConvertPositions(raw: Value) returns (r: Result<seq<Position>, ConversionError>)
    ensures GetField(raw, "data").Err? ==> r == Err(MissingField("data"))
    ensures GetField(raw, "data").Ok? && !GetField(raw, "data").value.Array? ==> r == Ok([])
    ensures GetField(raw, "data").Ok? && GetField(raw, "data").value.Array? ==>
      var items := GetField(raw, "data").value.items;
      (r.Ok? <==> forall i :: 0 <= i < |items| ==> PositionEntry(items[i]).Ok?) &&
      (r.Ok? ==> |r.value| == |items| && forall i :: 0 <= i < |items| ==> r.value[i] == PositionEntry(items[i]).value) &&
      (r.Err? ==> exists i :: 0 <= i < |items| && PositionEntry(items[i]) == Err(r.error) &&
                             forall j :: 0 <= j < i ==> PositionEntry(items[j]).Ok?)
  {
    var data := GetField(raw, "data");
    if data.Err? {
      return Err(data.error);
    }
    if !data.value.Array? {
      return Ok([]);
    }
    r := TryMap(data.value.items, PositionEntry);
  }

  /** `items.iter().map(f).collect::<Result<Vec<_>, _>>()`, written as the loop that pushes each
      converted item and returns the first error. */
  method TryMap<A, B, E>(items: seq<A>, f: A -> Result<B, E>) returns (r: Result<seq<B>, E>)
    ensures r.Ok? <==> forall i :: 0 <= i < |items| ==> f(items[i]).Ok?
    ensures r.Ok? ==> |r.value| == |items| && forall i :: 0 <= i < |items| ==> r.value[i] == f(items[i]).value
    ensures r.Err? ==> exists i :: 0 <= i < |items| && f(items[i]) == Err(r.error) &&
                                   forall j :: 0 <= j < i ==> f(items[j]).Ok?
  {
    var result: seq<B> := [];
    var i := 0;
    while i < |items|
      invariant 0 <= i <= |items| && |result| == i
      invariant forall j :: 0 <= j < i ==> f(items[j]).Ok? && result[j] == f(items[j]).value
    {
      var entry := f(items[i]);
      if entry.Err? {
        return Err(entry.error);
      }
      result := result + [entry.value];
      i := i + 1;
    }
    return Ok(result);
  }
}
