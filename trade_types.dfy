/** Market and trading records shared by the exchange adapters, and the kline interval with its
    text form. `f64` fields are reals and `i64` fields integers. */
module TradeTypes {
  import opened Wrappers
  import opened OrderStates

  datatype Ticker = Ticker(symbol: string, price: real, priceChange: real, priceChangePercent: real,
                           high24h: real, low24h: real, volume24h: real, timestamp: int)

  datatype Kline = Kline(symbol: string, timeframe: string, timestamp: int, open: real, high: real,
                         low: real, close: real, volume: real, quoteVolume: Option<real>)

  datatype Balance = Balance(asset: string, free: real, locked: real, total: real)

  datatype Position = Position(id: string, symbol: string, side: string, quantity: real, entryPrice: real,
                               currentPrice: Option<real>, unrealizedPnl: real, realizedPnl: real, openedAt: int)

  datatype Order = Order(id: string, exchangeOrderId: Option<string>, clientOrderId: Option<string>,
                         symbol: string, side: string, orderType: string, price: Option<real>,
                         quantity: real, filledQuantity: real, avgPrice: Option<real>, status: string,
                         commission: real, createdAt: int, filledAt: Option<int>)

  /** Order side and order type of an order request. */
  datatype OrderSide = Buy | Sell

  datatype OrderType = Market | Limit | StopLoss | StopLimit | OCO

  /** The order the converters and exchange adapters build: like `Order`, but with the side,
      type and status typed. */
  datatype ExchangeOrder = ExchangeOrder(id: string, exchangeOrderId: Option<string>,
                                         clientOrderId: Option<string>, symbol: string,
                                         side: OrderSide, orderType: OrderType, price: Option<real>,
                                         quantity: real, filledQuantity: real, avgPrice: Option<real>,
                                         status: OrderState, commission: real, createdAt: int,
                                         filledAt: Option<int>)

  datatype Interval = OneMinute | FiveMinutes | FifteenMinutes | ThirtyMinutes | OneHour | FourHours | OneDay

  /** `Interval::as_str`. */
  function IntervalText(i: Interval): (s: string)
    ensures |s| == 2 || |s| == 3
  {
    match i
      case OneMinute => "1m"
      case FiveMinutes => "5m"
      case FifteenMinutes => "15m"
      case ThirtyMinutes => "30m"
      case OneHour => "1h"
      case FourHours => "4h"
      case OneDay => "1d"
  }

  /** `Interval::from_str`: exact, case-sensitive text match. */
  function ParseInterval(s: string): (r: Option<Interval>)
    ensures r.Some? ==> IntervalText(r.value) == s
  {
    if s == "1m" then Some(OneMinute)
    else if s == "5m" then Some(FiveMinutes)
    else if s == "15m" then Some(FifteenMinutes)
    else if s == "30m" then Some(ThirtyMinutes)
    else if s == "1h" then Some(OneHour)
    else if s == "4h" then Some(FourHours)
    else if s == "1d" then Some(OneDay)
    else None
  }

  /** Parsing the text of an interval gives it back. */
  lemma IntervalRoundTrip(i: Interval)
    ensures ParseInterval(IntervalText(i)) == Some(i)
  {
  }

  /** A text parses exactly when it is the text of some interval. */
  lemma ParseIntervalExact(s: string)
    ensures ParseInterval(s).Some? <==> exists i :: IntervalText(i) == s
  {
    if exists i :: IntervalText(i) == s {
      var i :| IntervalText(i) == s;
      IntervalRoundTrip(i);
    }
  }

  /** Different intervals have different texts. */
  lemma IntervalTextInjective(a: Interval, b: Interval)
    ensures IntervalText(a) == IntervalText(b) ==> a == b
  {
    IntervalRoundTrip(a);
    IntervalRoundTrip(b);
  }

  /** Upper-case units are not parsed. */
  lemma ParseIsCaseSensitive()
    ensures ParseInterval("1H") == None && ParseInterval("1D") == None && ParseInterval("1M") == None
  {
  }
}
