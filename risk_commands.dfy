/** The risk commands the front end calls: the risk overview with its rule statuses, the
    validation of a rule update, and the filtering and paging of the alert history. Database
    reads are inputs: the position rows, today's profit and the realized profit are given. */
module RiskCommands {
  import opened Wrappers
  import opened Text
  import opened Response
  import JsValues

  // ---------------- overview ----------------

  /** A row of open positions as read, with the nullable columns the value is computed from. */
  datatype PositionRow = PositionRow(quantity: Option<real>, entryPrice: Option<real>)

  /** The simulated base balance. */
  const BaseBalance: real := 10000.0

  function RowValue(r: PositionRow): real {
    r.quantity.GetOr(0.0) * r.entryPrice.GetOr(0.0)
  }

  /** `Σ quantity · entry_price`, a missing column counting as zero, summed front to back. */
  function RowsValue(rows: seq<PositionRow>): real {
    if rows == [] then 0.0 else RowsValue(rows[..|rows| - 1]) + RowValue(rows[|rows| - 1])
  }

  /** `f64::round`: to the nearest integer, halves away from zero. */
  function Round(x: real): (n: int)
    ensures x >= 0.0 ==> n as real <= x + 0.5 < n as real + 1.0
    ensures x < 0.0 ==> n as real - 1.0 < x - 0.5 <= n as real
  {
    if x >= 0.0 then (x + 0.5).Floor else -((-x + 0.5).Floor)
  }

  /** The status texts of a rule. */
  const Ok_ := "ok"
  const Warning := "warning"
  const Danger := "danger"

  /** Position use in percent: over 80 is danger, over 60 a warning. */
  function PositionStatus(ratio: real): (s: string)
    ensures s == Danger <==> ratio > 80.0
    ensures s == Warning <==> 60.0 < ratio <= 80.0
    ensures s == Ok_ <==> ratio <= 60.0
  {
    if ratio > 80.0 then Danger else if ratio > 60.0 then Warning else Ok_
  }

  /** Drawdown in percent: over 15 is danger, over 10 a warning. */
  function DrawdownStatus(pct: real): (s: string)
    ensures s == Danger <==> pct > 15.0
    ensures s == Warning <==> 10.0 < pct <= 15.0
    ensures s == Ok_ <==> pct <= 10.0
  {
    if pct > 15.0 then Danger else if pct > 10.0 then Warning else Ok_
  }

  /** Today's profit: under -500 is danger, under -200 a warning. */
  function LossStatus(pnl: real): (s: string)
    ensures s == Danger <==> pnl < -500.0
    ensures s == Warning <==> -500.0 <= pnl < -200.0
    ensures s == Ok_ <==> pnl >= -200.0
  {
    if pnl < -500.0 then Danger else if pnl < -200.0 then Warning else Ok_
  }

  /** `RiskOverview`. */
  datatype RiskOverview = RiskOverview(balance: real, todayPnl: real, totalPositionValue: real,
                                       currentDrawdownPct: real, peakEquity: real,
                                       activeAlertCount: int, ruleStatus: map<string, string>)

  /** The drawdown of the overview: the fall from the peak in percent, never negative, zero
      without a positive peak. Unlike the drawdown rule it is not capped for negative equity. */
  function OverviewDrawdown(equity: real, peak: real): (d: real)
    ensures d >= 0.0
    ensures peak <= 0.0 || equity >= peak ==> d == 0.0
    ensures peak > 0.0 && equity < peak ==> d * peak == (peak - equity) * 100.0
  {
    if peak > 0.0 then
      var raw := (peak - equity) / peak * 100.0;
      DrawdownSign(equity, peak);
      if raw >= 0.0 then raw else 0.0
    else 0.0
  }

  lemma DrawdownSign(equity: real, peak: real)
    requires peak > 0.0
    ensures (peak - equity) / peak * 100.0 * peak == (peak - equity) * 100.0
    ensures equity >= peak ==> (peak - equity) / peak * 100.0 <= 0.0
    ensures equity < peak ==> (peak - equity) / peak * 100.0 > 0.0
  {
  }

  /** `get_risk_overview`, past its database reads: the balance is the base plus the realized
      profit, the peak the larger of the equity and the base, the drawdown measured from that
      peak, and the three rule statuses follow the thresholds: position use as the rounded
      percentage of the balance (0 without a positive balance), the drawdown, and today's
      profit. */
  function Overview(rows: seq<PositionRow>, todayPnl: real, realizedPnl: real, activeAlerts: int): (o: RiskOverview)
    ensures o.balance == BaseBalance + realizedPnl && o.totalPositionValue == RowsValue(rows)
    ensures o.todayPnl == todayPnl && o.activeAlertCount == activeAlerts
    ensures o.peakEquity >= BaseBalance && o.peakEquity >= o.balance + o.totalPositionValue
    ensures o.peakEquity == BaseBalance || o.peakEquity == o.balance + o.totalPositionValue
    ensures o.currentDrawdownPct == OverviewDrawdown(o.balance + o.totalPositionValue, o.peakEquity)
    ensures o.ruleStatus.Keys == {"position_limit", "drawdown_limit", "loss_limit"}
    ensures o.balance > 0.0 ==>
      o.ruleStatus["position_limit"] == PositionStatus(Round(o.totalPositionValue / o.balance * 100.0) as real)
    ensures o.balance <= 0.0 ==> o.ruleStatus["position_limit"] == Ok_
    ensures o.ruleStatus["drawdown_limit"] == DrawdownStatus(o.currentDrawdownPct)
    ensures o.ruleStatus["loss_limit"] == LossStatus(todayPnl)
  {
    var total := RowsValue(rows);
    var balance := BaseBalance + realizedPnl;
    var equity := balance + total;
    var peak := if equity >= BaseBalance then equity else BaseBalance;
    var drawdown := OverviewDrawdown(equity, peak);
    var ratio := if balance > 0.0 then Round(total / balance * 100.0) as real else 0.0;
    RiskOverview(balance, todayPnl, total, drawdown, peak, activeAlerts,
                 map["position_limit" := PositionStatus(ratio),
                     "drawdown_limit" := DrawdownStatus(drawdown),
                     "loss_limit" := LossStatus(todayPnl)])
  }

  /** The peak is never below the base balance, so the "no positive peak" case of the drawdown
      cannot happen: the drawdown is zero while the equity is at least the base, and positive
      exactly when the equity is below it. */
  lemma OverviewDrawdownFacts(rows: seq<PositionRow>, todayPnl: real, realizedPnl: real, activeAlerts: int)
    ensures var o := Overview(rows, todayPnl, realizedPnl, activeAlerts);
      o.peakEquity > 0.0 && o.currentDrawdownPct >= 0.0 &&
      (o.currentDrawdownPct > 0.0 <==> o.balance + o.totalPositionValue < BaseBalance)
  {
  }

  // ---------------- rule updates ----------------

  /** `validate_rule_params(rule_name, params)`. */
  function ValidateRuleParams(ruleName: string, params: map<string, real>): (r: Result<(), string>)
    ensures ruleName == "position_limit" ==>
      (r.Ok? <==> "max_position_value" in params && "max_total_value" in params && "max_direction_ratio" in params &&
                  params["max_position_value"] > 0.0 && params["max_total_value"] > 0.0 &&
                  0.0 < params["max_direction_ratio"] <= 1.0)
    ensures ruleName == "drawdown_limit" ==>
      (r.Ok? <==> "max_drawdown_pct" in params && 0.0 < params["max_drawdown_pct"] <= 100.0)
    ensures ruleName !in {"position_limit", "drawdown_limit"} ==> r == Err("Unknown rule type: " + ruleName)
  {
    if ruleName == "position_limit" then
      if "max_position_value" !in params then Err("Missing max_position_value")
      else if "max_total_value" !in params then Err("Missing max_total_value")
      else if "max_direction_ratio" !in params then Err("Missing max_direction_ratio")
      else if params["max_position_value"] <= 0.0 then Err("max_position_value must be positive")
      else if params["max_total_value"] <= 0.0 then Err("max_total_value must be positive")
      else if params["max_direction_ratio"] <= 0.0 || params["max_direction_ratio"] > 1.0 then
        Err("max_direction_ratio must be between 0 and 1")
      else Ok(())
    else if ruleName == "drawdown_limit" then
      if "max_drawdown_pct" !in params then Err("Missing max_drawdown_pct")
      else if params["max_drawdown_pct"] <= 0.0 || params["max_drawdown_pct"] > 100.0 then
        Err("max_drawdown_pct must be between 0 and 100")
      else Ok(())
    else Err("Unknown rule type: " + ruleName)
  }

  /** The parameter sets the tests use: 0.7 is an accepted ratio and 1.5 is not; 15 % is an
      accepted drawdown and 150 % is not. */
  lemma RuleParamsExamples()
    ensures ValidateRuleParams("position_limit",
      map["max_position_value" := 10000.0, "max_total_value" := 50000.0, "max_direction_ratio" := 0.7]).Ok?
    ensures ValidateRuleParams("position_limit",
      map["max_position_value" := 10000.0, "max_total_value" := 50000.0, "max_direction_ratio" := 1.5]) ==
      Err("max_direction_ratio must be between 0 and 1")
    ensures ValidateRuleParams("drawdown_limit", map["max_drawdown_pct" := 15.0]).Ok?
    ensures ValidateRuleParams("drawdown_limit", map["max_drawdown_pct" := 150.0]).Err?
  {
  }

  /** The actions the front end may choose. */
  const FrontendActions: set<string> := {"warning", "stop_strategy", "emergency_close"}

  /** The checks `update_risk_rule` makes before writing: the action first, then the
      parameters, whose message is reported under the rule's name. */
  function UpdateRuleCheck(ruleName: string, action: string, params: map<string, real>): (r: Result<(), ApiError>)
    ensures action !in FrontendActions ==> r == Err(InvalidParameter("action"))
    ensures action in FrontendActions ==>
      (r.Ok? <==> ValidateRuleParams(ruleName, params).Ok?) &&
      (r.Err? ==> r.error == ValidationFailed(ruleName, ValidateRuleParams(ruleName, params).error))
  {
    if action !in FrontendActions then Err(InvalidParameter("action"))
    else match ValidateRuleParams(ruleName, params)
      case Err(e) => Err(ValidationFailed(ruleName, e))
      case Ok(_) => Ok(())
  }

  // ---------------- alert notes ----------------

  /** Rust's `char::is_whitespace`: the Unicode White_Space characters. */
  predicate IsRustSpace(c: char) {
    ('\t' <= c <= '\r') || c == ' ' || c == '\U{85}' || c == '\U{A0}' || c == '\U{1680}' ||
    ('\U{2000}' <= c <= '\U{200A}') || c == '\U{2028}' || c == '\U{2029}' || c == '\U{202F}' ||
    c == '\U{205F}' || c == '\U{3000}'
  }

  /** `add_alert_note`'s check: a note that is empty once trimmed is refused. */
  function NoteCheck(note: string): (r: Result<(), ApiError>)
    ensures r.Err? <==> forall i :: 0 <= i < |note| ==> IsRustSpace(note[i])
    ensures r.Err? ==> r.error == ValidationFailed("note", "不能为空")
  {
    if forall i :: 0 <= i < |note| ==> IsRustSpace(note[i]) then Err(ValidationFailed("note", "不能为空")) else Ok(())
  }

  // ---------------- alert history ----------------

  /** `AlertHistoryFilter`. */
  datatype AlertHistoryFilter = AlertHistoryFilter(startDate: Option<int>, endDate: Option<int>,
                                                   severity: Option<string>, status: Option<string>,
                                                   ruleName: Option<string>, searchText: Option<string>,
                                                   page: Option<int>, pageSize: Option<int>)

  const I32Min: int := -0x8000_0000
  const I32Max: int := 0x7FFF_FFFF

  predicate InI32(x: int) { I32Min <= x <= I32Max }

  /** Two's-complement wrap-around of a product to 32 bits, as a release build computes it. */
  function WrapI32(x: int): (w: int)
    ensures InI32(w)
    ensures InI32(x) ==> w == x
  {
    (x + 0x8000_0000) % 0x1_0000_0000 - 0x8000_0000
  }

  /** The page, at least 1. */
  function PageOf(f: AlertHistoryFilter): (p: int)
    ensures p >= 1
    ensures f.page.Some? && f.page.value >= 1 ==> p == f.page.value
  {
    var p := f.page.GetOr(1);
    if p >= 1 then p else 1
  }

  /** The page size, clamped to 1..100 and 20 by default. */
  function PageSizeOf(f: AlertHistoryFilter): (n: int)
    ensures 1 <= n <= 100
    ensures f.pageSize.None? ==> n == 20
    ensures f.pageSize.Some? && 1 <= f.pageSize.value <= 100 ==> n == f.pageSize.value
  {
    var n := f.pageSize.GetOr(20);
    if n < 1 then 1 else if n > 100 then 100 else n
  }

  /** The offset as written: `(page - 1) * page_size` in 32-bit arithmetic. */
  function OffsetAsWritten(f: AlertHistoryFilter): int {
    WrapI32((PageOf(f) - 1) * PageSizeOf(f))
  }

  /** A large page makes the 32-bit offset wrap to a negative number. */
  lemma OffsetOverflows()
    ensures OffsetAsWritten(AlertHistoryFilter(None, None, None, None, None, None, Some(21474838), Some(100))) == -2147483596
  {
  }

  /** The offset the paging intends: the rows of the earlier pages, never negative. */
  function Offset(f: AlertHistoryFilter): (o: int)
    ensures o >= 0
    ensures o == (PageOf(f) - 1) * PageSizeOf(f)
  {
    var p := PageOf(f);
    var n := PageSizeOf(f);
    ProductNonNegative(p - 1, n);
    (p - 1) * n
  }

  lemma ProductNonNegative(a: int, b: int)
    requires a >= 0 && b >= 1
    ensures a * b >= 0
  {
  }

  /** On pages whose offset fits in 32 bits the written and intended offsets agree. */
  lemma OffsetAgrees(f: AlertHistoryFilter)
    requires InI32((PageOf(f) - 1) * PageSizeOf(f))
    ensures OffsetAsWritten(f) == Offset(f)
  {
  }

  /** A condition of the WHERE clause, as the text around its `?` placeholders, with the
      values bound to them. */
  datatype Condition = Condition(fragments: seq<string>, params: seq<string>)

  /** The SQL text of a condition: its fragments joined by `?`. */
  function Sql(c: Condition): string {
    Join(c.fragments, "?")
  }

  /** One fragment more than values, and no `?` inside a fragment. */
  predicate Balanced(c: Condition) {
    |c.fragments| == |c.params| + 1 && forall i :: 0 <= i < |c.fragments| ==> '?' !in c.fragments[i]
  }

  /** In a balanced condition the number of `?` placeholders is the number of bound values. */
  lemma BalancedPlaceholders(c: Condition)
    requires Balanced(c)
    ensures Count(Sql(c), '?') == |c.params|
  {
    FragmentsJoined(c.fragments);
  }

  lemma {:induction false} FragmentsJoined(parts: seq<string>)
    requires |parts| >= 1 && forall i :: 0 <= i < |parts| ==> '?' !in parts[i]
    ensures Count(Join(parts, "?"), '?') == |parts| - 1
  {
    if |parts| == 1 {
      CountAbsent(parts[0], '?');
    } else {
      var rest := parts[1..];
      FragmentsJoined(rest);
      CountAppend(parts[0] + "?", Join(rest, "?"), '?');
      CountAppend(parts[0], "?", '?');
      CountAbsent(parts[0], '?');
    }
  }

  function StartCondition(start: int): (c: Condition)
    ensures Balanced(c)
  {
    Condition(["created_at >= ", ""], [JsValues.NumText(start)])
  }

  function EndCondition(end: int): (c: Condition)
    ensures Balanced(c)
  {
    Condition(["created_at <= ", ""], [JsValues.NumText(end)])
  }

  function SeverityCondition(s: string): (c: Condition)
    ensures Balanced(c)
  {
    Condition(["severity = ", ""], [s])
  }

  function StatusCondition(s: string): (c: Condition)
    ensures Balanced(c)
  {
    Condition(["status = ", ""], [s])
  }

  function RuleCondition(s: string): (c: Condition)
    ensures Balanced(c)
  {
    Condition(["rule_id LIKE ", ""], ["%" + s + "%"])
  }

  function SearchCondition(s: string): (c: Condition)
    ensures Balanced(c)
  {
    var pattern := "%" + s + "%";
    Condition(["(message LIKE ", " OR title LIKE ", ")"], [pattern, pattern])
  }

  /** The condition texts are the ones the query uses. */
  lemma ConditionTexts(n: int, t: string)
    ensures Sql(StartCondition(n)) == "created_at >= ?" && Sql(EndCondition(n)) == "created_at <= ?"
    ensures Sql(SeverityCondition(t)) == "severity = ?" && Sql(StatusCondition(t)) == "status = ?"
  {
  }

  lemma PatternConditionTexts(t: string)
    ensures Sql(RuleCondition(t)) == "rule_id LIKE ?"
    ensures Sql(SearchCondition(t)) == "(message LIKE ? OR title LIKE ?)"
  {
    JoinPair("rule_id LIKE ", "", "?");
    JoinTriple("(message LIKE ", " OR title LIKE ", ")", "?");
    PatternTexts();
  }

  /** The literal texts of the two pattern conditions, put together. */
  lemma PatternTexts()
    ensures "rule_id LIKE " + "?" + "" == "rule_id LIKE ?"
    ensures "(message LIKE " + "?" + (" OR title LIKE " + "?" + ")") == "(message LIKE ? OR title LIKE ?)"
  {
  }

  lemma JoinPair(a: string, b: string, sep: string)
    ensures Join([a, b], sep) == a + sep + b
  {
    assert [a, b][1..] == [b];
  }

  lemma JoinTriple(a: string, b: string, c: string, sep: string)
    ensures Join([a, b, c], sep) == a + sep + (b + sep + c)
  {
    assert [a, b, c][1..] == [b, c];
    JoinPair(b, c, sep);
  }

  /** An optional text filter applies only when present and not empty. */
  function TextFilter(v: Option<string>, make: string -> Condition): seq<Condition> {
    if v.Some? && v.value != "" then [make(v.value)] else []
  }

  /** The conditions of a filter, in the order the command adds them. */
  function Conditions(f: AlertHistoryFilter): (cs: seq<Condition>)
    ensures forall i :: 0 <= i < |cs| ==> Balanced(cs[i])
    ensures |cs| <= 6
  {
    (if f.startDate.Some? then [StartCondition(f.startDate.value)] else []) +
    (if f.endDate.Some? then [EndCondition(f.endDate.value)] else []) +
    TextFilter(f.severity, SeverityCondition) +
    TextFilter(f.status, StatusCondition) +
    TextFilter(f.ruleName, RuleCondition) +
    TextFilter(f.searchText, SearchCondition)
  }

  function Sqls(cs: seq<Condition>): (r: seq<string>)
    ensures |r| == |cs|
  {
    if cs == [] then [] else [Sql(cs[0])] + Sqls(cs[1..])
  }

  function Params(cs: seq<Condition>): seq<string> {
    if cs == [] then [] else cs[0].params + Params(cs[1..])
  }

  /** The WHERE clause and the values bound to it: empty without conditions, otherwise the
      conditions joined with `AND`. */
  function WhereClause(f: AlertHistoryFilter): (w: (string, seq<string>))
    ensures Conditions(f) == [] ==> w == ("", [])
    ensures Conditions(f) != [] ==> StartsWith(w.0, "WHERE ")
  {
    var cs := Conditions(f);
    if cs == [] then ("", []) else ("WHERE " + Join(Sqls(cs), " AND "), Params(cs))
  }

  /** Every `?` of the clause has exactly one bound value. */
  lemma PlaceholdersMatch(f: AlertHistoryFilter)
    ensures Count(WhereClause(f).0, '?') == |WhereClause(f).1|
  {
    var cs := Conditions(f);
    if cs != [] {
      CountAppend("WHERE ", Join(Sqls(cs), " AND "), '?');
      assert Count("WHERE ", '?') == 0 by { CountAbsent("WHERE ", '?'); }
      JoinedPlaceholders(cs);
    }
  }

  lemma {:induction false} JoinedPlaceholders(cs: seq<Condition>)
    requires forall i :: 0 <= i < |cs| ==> Balanced(cs[i])
    ensures Count(Join(Sqls(cs), " AND "), '?') == |Params(cs)|
  {
    if |cs| == 1 {
      assert Sqls(cs) == [Sql(cs[0])];
      assert Params(cs) == cs[0].params + [];
      BalancedPlaceholders(cs[0]);
    } else if |cs| > 1 {
      var rest := cs[1..];
      JoinedPlaceholders(rest);
      BalancedPlaceholders(cs[0]);
      assert Sqls(cs)[1..] == Sqls(rest);
      assert Join(Sqls(cs), " AND ") == Sql(cs[0]) + " AND " + Join(Sqls(rest), " AND ");
      CountAppend(Sql(cs[0]) + " AND ", Join(Sqls(rest), " AND "), '?');
      CountAppend(Sql(cs[0]), " AND ", '?');
      CountAbsent(" AND ", '?');
    }
  }

  /** An empty text filter is the same as none. */
  lemma EmptyTextFiltersIgnored(f: AlertHistoryFilter)
    ensures WhereClause(f.(severity := Some(""), status := Some(""), ruleName := Some(""), searchText := Some(""))) ==
            WhereClause(f.(severity := None, status := None, ruleName := None, searchText := None))
  {
  }

  /** The page the history query asks for: the page size as LIMIT and the offset. */
  datatype PageWindow = PageWindow(limit: int, offset: int)

  function HistoryPage(f: AlertHistoryFilter): (w: PageWindow)
    ensures 1 <= w.limit <= 100 && w.offset >= 0
    ensures w.offset == (PageOf(f) - 1) * w.limit
  {
    PageWindow(PageSizeOf(f), Offset(f))
  }
}
