/** The OKX exchange adapter's pure helpers: symbol forms, the bar names of kline intervals, the
    order type and side names it sends, and the order states it reads back. */
module OkxExchange {
  import opened Text
  import opened TradeTypes
  import opened OrderStates
  import OkxConversion

  /** `normalize_symbol` (and `normalize_symbol_static`): dashes removed, upper-cased. */
  function NormalizeSymbol(symbol: string): (r: string)
    ensures '-' !in r
    ensures forall i :: 0 <= i < |r| ==> !IsLowerAscii(r[i])
    ensures forall c :: c in r ==> c != '-'
  {
    var r := Upper(Remove(symbol, '-'));
    assert forall i :: 0 <= i < |r| ==> !IsLowerAscii(r[i]) && r[i] != '-' by {
      var x := Remove(symbol, '-');
      forall i | 0 <= i < |r| ensures !IsLowerAscii(r[i]) && r[i] != '-' {
        assert x[i] in x;
        UpperCharKeeps(x[i]);
      }
    }
    r
  }

  /** `to_okx_symbol`: dashed input is upper-cased; input ending in `USDT` or `USDC` gets a
      dash before those four characters, its base kept as given; anything else is
      upper-cased. */
  function ToOkxSymbol(symbol: string): (r: string)
    ensures '-' in symbol ==> r == Upper(symbol)
    ensures '-' !in symbol && (EndsWith(symbol, "USDT") || EndsWith(symbol, "USDC")) ==>
      r == symbol[..|symbol| - 4] + "-" + symbol[|symbol| - 4..]
    ensures '-' !in symbol && !EndsWith(symbol, "USDT") && !EndsWith(symbol, "USDC") ==> r == Upper(symbol)
  {
    if '-' in symbol then Upper(symbol)
    else if EndsWith(symbol, "USDT") then symbol[..|symbol| - 4] + "-USDT"
    else if EndsWith(symbol, "USDC") then symbol[..|symbol| - 4] + "-USDC"
    else Upper(symbol)
  }

  /** For an upper-case, dash-free symbol quoted in `USDT` or `USDC`, normalising the OKX form
      gives the symbol back. */
  lemma ToOkxRoundTrip(symbol: string)
    requires '-' !in symbol && forall i :: 0 <= i < |symbol| ==> !IsLowerAscii(symbol[i])
    requires EndsWith(symbol, "USDT") || EndsWith(symbol, "USDC")
    ensures NormalizeSymbol(ToOkxSymbol(symbol)) == symbol
  {
    var k := |symbol| - 4;
    var base, quote := symbol[..k], symbol[k..];
    assert base + quote == symbol;
    assert '-' !in base && '-' !in quote;
    assert ToOkxSymbol(symbol) == base + "-" + quote;
    assert base + "-" + quote == base + ['-'] + quote;
    RemoveDash(base, quote);
    UpperFixed(symbol);
  }

  lemma RemoveDash(a: string, b: string)
    requires '-' !in a && '-' !in b
    ensures Remove(a + ['-'] + b, '-') == a + b
  {
    var t := ['-'] + b;
    assert a + ['-'] + b == a + t;
    RemoveAppend(a, t, '-');
    assert t[0] == '-' && t[1..] == b;
    assert Remove(t, '-') == Remove(b, '-');
    RemoveAbsent(a, '-');
    RemoveAbsent(b, '-');
  }

  /** The base is not upper-cased when the quote is found: `btcUSDT` becomes `btc-USDT`, while
      `btcusdt` has no upper-case quote and becomes `BTCUSDT` without a dash. */
  lemma ToOkxKeepsBase()
    ensures ToOkxSymbol("btcUSDT") == "btc-USDT"
  {
    var s := "btcUSDT";
    assert s[..3] == "btc" && s[3..] == "USDT";
    assert '-' !in s by {
      assert forall i :: 0 <= i < |s| ==> s[i] != '-';
    }
  }

  /** `interval_to_okx_bar`: hour and day units are capital letters. */
  function IntervalToOkxBar(interval: Interval): (bar: string)
    ensures interval == OneHour ==> bar == "1H"
    ensures interval == OneDay ==> bar == "1D"
  {
    match interval
      case OneMinute => "1m"
      case FiveMinutes => "5m"
      case FifteenMinutes => "15m"
      case ThirtyMinutes => "30m"
      case OneHour => "1H"
      case FourHours => "4H"
      case OneDay => "1D"
  }

  /** Different intervals have different bar names, and the bar name differs from the
      interval's own text exactly for the hour and day intervals. */
  lemma OkxBarInjective(a: Interval, b: Interval)
    ensures IntervalToOkxBar(a) == IntervalToOkxBar(b) ==> a == b
    ensures IntervalToOkxBar(a) != IntervalText(a) <==> a in {OneHour, FourHours, OneDay}
  {
  }

  /** `order_type_to_okx`. */
  function OrderTypeToOkx(t: OrderType): (s: string)
    ensures t == StopLoss ==> s == "conditional_market"
    ensures t == StopLimit ==> s == "conditional_limit"
  {
    match t
      case Market => "market"
      case Limit => "limit"
      case StopLoss => "conditional_market"
      case StopLimit => "conditional_limit"
      case OCO => "oco"
  }

  /** `side_to_okx`. */
  function SideToOkx(side: OrderSide): (s: string)
    ensures s == "buy" <==> side == Buy
  {
    match side
      case Buy => "buy"
      case Sell => "sell"
  }

  /** Both tables tell their inputs apart, and the converter reads the side names back. */
  lemma OkxNamesInjective(t: OrderType, u: OrderType, a: OrderSide, b: OrderSide)
    ensures OrderTypeToOkx(t) == OrderTypeToOkx(u) ==> t == u
    ensures SideToOkx(a) == SideToOkx(b) ==> a == b
    ensures OkxConversion.SideOf(SideToOkx(a)) == Wrappers.Ok(a)
  {
  }

  /** `parse_order_state`: `mmp` and `failed` are rejections, unknown text is pending. */
  function ParseOrderState(state: string): (s: OrderState)
    ensures s == Open <==> state == "live"
    ensures s == PartiallyFilled <==> state == "partially_filled"
    ensures s == Filled <==> state == "filled"
    ensures s == Canceled <==> state == "canceled"
    ensures s == Rejected <==> state == "mmp" || state == "failed"
    ensures s == Pending <==> state !in {"live", "partially_filled", "filled", "canceled", "mmp", "failed"}
  {
    match state
      case "live" => Open
      case "partially_filled" => PartiallyFilled
      case "filled" => Filled
      case "canceled" => Canceled
      case "mmp" => Rejected
      case "failed" => Rejected
      case _ => Pending
  }

  /** `parse_order_state_static`, the copy used by the WebSocket loops. */
  function ParseOrderStateStatic(state: string): OrderState {
    if state == "live" then Open
    else if state == "partially_filled" then PartiallyFilled
    else if state == "filled" then Filled
    else if state == "canceled" then Canceled
    else if state == "mmp" || state == "failed" then Rejected
    else Pending
  }

  /** The two copies agree on every input. */
  lemma ParseOrderStatesAgree(state: string)
    ensures ParseOrderStateStatic(state) == ParseOrderState(state)
  {
  }

  /** The adapter and the converter read OKX states differently: the adapter keeps partial
      fills and rejections, the converter folds the first into `Open` and the second into
      `Pending`; they agree on every other text. */
  lemma AdapterAndConverterStates(state: string)
    ensures ParseOrderState("partially_filled") == PartiallyFilled
    ensures OkxConversion.StatusOf("partially_filled") == Open
    ensures state !in {"partially_filled", "mmp", "failed"} ==>
      ParseOrderState(state) == OkxConversion.StatusOf(state)
  {
  }
}
