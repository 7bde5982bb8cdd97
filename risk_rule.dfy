/** The common vocabulary of the risk rules: the actions a triggered rule asks for, the context
    every rule is checked against, and the rule configuration. */
module RiskRules {
  import opened Wrappers
  import opened Text
  import opened TradeTypes
  import opened Floats

  /** `RiskAction`, in increasing severity. */
  datatype RiskAction = LogOnly | Notify | PauseStrategy | ClosePositions | EmergencyStop

  /** `severity()`. */
  function Severity(a: RiskAction): (s: nat)
    ensures s <= 4
  {
    match a
      case LogOnly => 0
      case Notify => 1
      case PauseStrategy => 2
      case ClosePositions => 3
      case EmergencyStop => 4
  }

  /** `stops_trading()`. */
  predicate StopsTrading(a: RiskAction) {
    a == PauseStrategy || a == ClosePositions || a == EmergencyStop
  }

  /** `closes_positions()`. */
  predicate ClosesPositions(a: RiskAction) {
    a == ClosePositions || a == EmergencyStop
  }

  /** Severity orders the actions without ties; an action stops trading from severity 2 on and
      closes positions from severity 3 on, so every closing action also stops trading. */
  lemma SeverityOrder(a: RiskAction, b: RiskAction)
    ensures Severity(a) == Severity(b) ==> a == b
    ensures StopsTrading(a) <==> Severity(a) >= 2
    ensures ClosesPositions(a) <==> Severity(a) >= 3
    ensures ClosesPositions(a) ==> StopsTrading(a)
  {
  }

  /** `Display`: the snake-case name. */
  function ActionText(a: RiskAction): (s: string)
    ensures forall i :: 0 <= i < |s| ==> IsLowerAscii(s[i]) || s[i] == '_'
  {
    match a
      case LogOnly => "log_only"
      case Notify => "notify"
      case PauseStrategy => "pause_strategy"
      case ClosePositions => "close_positions"
      case EmergencyStop => "emergency_stop"
  }

  /** The spellings `from_str` accepts for an action, once lower-cased: with `_`, with `-` or
      with no separator. */
  function Spellings(a: RiskAction): set<string> {
    match a
      case LogOnly => {"log_only", "log-only", "logonly"}
      case Notify => {"notify"}
      case PauseStrategy => {"pause_strategy", "pause-strategy", "pausestrategy"}
      case ClosePositions => {"close_positions", "close-positions", "closepositions"}
      case EmergencyStop => {"emergency_stop", "emergency-stop", "emergencystop"}
  }

  /** `from_str`: the lower-cased text must be one of the spellings. */
  function ParseAction(s: string): (r: Result<RiskAction, string>)
    ensures r.Ok? ==> Lower(s) in Spellings(r.value)
    ensures r.Err? ==> r.error == "Invalid risk action: " + s
  {
    var t := Lower(s);
    if t in {"log_only", "log-only", "logonly"} then Ok(LogOnly)
    else if t == "notify" then Ok(Notify)
    else if t in {"pause_strategy", "pause-strategy", "pausestrategy"} then Ok(PauseStrategy)
    else if t in {"close_positions", "close-positions", "closepositions"} then Ok(ClosePositions)
    else if t in {"emergency_stop", "emergency-stop", "emergencystop"} then Ok(EmergencyStop)
    else Err("Invalid risk action: " + s)
  }

  /** A text parses exactly when its lower-case form is a spelling of some action. */
  lemma ParseActionExact(s: string, a: RiskAction)
    ensures Lower(s) in Spellings(a) ==> ParseAction(s) == Ok(a)
    ensures ParseAction(s).Err? <==> forall b: RiskAction :: Lower(s) !in Spellings(b)
  {
  }

  /** Parsing the displayed name gives the action back. */
  lemma ParseDisplayRoundTrip(a: RiskAction)
    ensures ParseAction(ActionText(a)) == Ok(a)
  {
    var t := ActionText(a);
    LowerFixed(t);
    assert t in Spellings(a) by {
      match a
      case LogOnly =>
      case Notify =>
      case PauseStrategy =>
      case ClosePositions =>
      case EmergencyStop =>
    }
    ParseActionExact(t, a);
  }

  /** `RiskRuleConfig`. */
  datatype RiskRuleConfig = RiskRuleConfig(enabled: bool, action: RiskAction, notifyMethods: seq<string>)

  /** `log_only()`, which is also the default configuration. */
  function LogOnlyConfig(): (c: RiskRuleConfig)
    ensures c.enabled && c.action == LogOnly && c.notifyMethods == ["log"]
    ensures !StopsTrading(c.action)
  {
    RiskRuleConfig(true, LogOnly, ["log"])
  }

  /** `notify_only(methods)`. */
  function NotifyOnlyConfig(methods: seq<string>): (c: RiskRuleConfig)
    ensures c.enabled && c.action == Notify && c.notifyMethods == methods
    ensures !StopsTrading(c.action)
  {
    RiskRuleConfig(true, Notify, methods)
  }

  /** `RiskContext`. */
  datatype RiskContext = RiskContext(positions: seq<Position>, orders: seq<Order>, balance: real,
                                     todayPnl: real, instanceId: string)

  /** `RiskContext::empty()`. */
  function EmptyContext(): RiskContext {
    RiskContext([], [], 0.0, 0.0, "")
  }

  /** The value of one position: quantity times entry price. */
  function PositionValue(p: Position): real {
    p.quantity * p.entryPrice
  }

  /** `Σ quantity · entry_price`, summed front to back. */
  function TotalValue(ps: seq<Position>): real {
    if ps == [] then 0.0 else TotalValue(ps[..|ps| - 1]) + PositionValue(ps[|ps| - 1])
  }

  /** `Σ unrealized_pnl`. */
  function TotalUpnl(ps: seq<Position>): real {
    if ps == [] then 0.0 else TotalUpnl(ps[..|ps| - 1]) + ps[|ps| - 1].unrealizedPnl
  }

  /** `total_position_value()`. */
  function TotalPositionValue(ctx: RiskContext): real { TotalValue(ctx.positions) }

  /** `total_unrealized_pnl()`. */
  function TotalUnrealizedPnl(ctx: RiskContext): real { TotalUpnl(ctx.positions) }

  /** `position_count()` and `order_count()`. */
  function PositionCount(ctx: RiskContext): nat { |ctx.positions| }

  function OrderCount(ctx: RiskContext): nat { |ctx.orders| }

  /** The empty context counts nothing and sums to zero. */
  lemma EmptyContextIsZero()
    ensures PositionCount(EmptyContext()) == 0 && OrderCount(EmptyContext()) == 0
    ensures TotalPositionValue(EmptyContext()) == 0.0 && TotalUnrealizedPnl(EmptyContext()) == 0.0
  {
  }

  /** The sums are additive over a split of the positions. */
  lemma {:induction false} TotalsAppend(a: seq<Position>, b: seq<Position>)
    ensures TotalValue(a + b) == TotalValue(a) + TotalValue(b)
    ensures TotalUpnl(a + b) == TotalUpnl(a) + TotalUpnl(b)
    decreases |b|
  {
    if b == [] {
      assert a + b == a;
    } else {
      var c := b[..|b| - 1];
      assert (a + b)[..|a + b| - 1] == a + c;
      assert (a + b)[|a + b| - 1] == b[|b| - 1];
      TotalsAppend(a, c);
    }
  }

  /** With non-negative quantities and prices the total value is non-negative. */
  lemma {:induction false} TotalValueNonNegative(ps: seq<Position>)
    requires forall i :: 0 <= i < |ps| ==> ps[i].quantity >= 0.0 && ps[i].entryPrice >= 0.0
    ensures TotalValue(ps) >= 0.0
  {
    if ps != [] {
      TotalValueNonNegative(ps[..|ps| - 1]);
      ProductNonNegative(ps[|ps| - 1].quantity, ps[|ps| - 1].entryPrice);
    }
  }

}
