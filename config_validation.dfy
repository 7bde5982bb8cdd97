/** The front end's configuration rules (`CONFIG_VALIDATION_RULES`), its defaults
    (`DEFAULT_CONFIG`) and `validateConfig`, which checks one section of a settings form. The
    form data is a JavaScript value; a `TypeError` the check can raise is an `Err`. */
module ConfigValidation {
  import opened Wrappers
  import opened Text
  import opened JsValues

  /** The custom validators the rules use; each is a JavaScript arrow function in the source. */
  datatype Validator =
    | OneOf(options: seq<string>)   // `[...].includes(value)`
    | DbPath                        // `value.endsWith('.db')`
    | OptionalHttps                 // `!value || value.startsWith('https://')`
    | OptionalPort                  // `!value || (value >= 1 && value <= 65535)`
    | OptionalEmails                // `!value || value.split(',').every(...)`

  /** One `ConfigValidationRule`; `pattern` stands for `pattern.test`. */
  datatype Rule = Rule(field: string, required: bool, min: Option<int>, max: Option<int>,
                       pattern: Option<string -> bool>, validator: Option<Validator>,
                       message: Option<string>)

  function AppRules(): seq<Rule> {
    [Rule("language", true, None, None, None, Some(OneOf(["zh-CN", "en-US"])),
          Some("语言必须是 zh-CN 或 en-US")),
     Rule("theme", true, None, None, None, Some(OneOf(["light", "dark", "auto"])),
          Some("主题必须是 light、dark 或 auto")),
     Rule("auto_save_interval", true, Some(10), Some(3600), None, None,
          Some("自动保存间隔必须在 10-3600 秒之间"))]
  }

  function DatabaseRules(): seq<Rule> {
    [Rule("path", true, None, None, None, Some(DbPath), Some("数据库文件必须以 .db 结尾")),
     Rule("backup_interval_hours", true, Some(1), Some(168), None, None,
          Some("备份间隔必须在 1-168 小时之间")),
     Rule("backup_retention_days", true, Some(1), Some(365), None, None,
          Some("备份保留天数必须在 1-365 天之间"))]
  }

  function RiskRules(): seq<Rule> {
    [Rule("default_action", true, None, None, None,
          Some(OneOf(["alert", "close_position", "stop_strategy"])),
          Some("风控动作必须是 alert、close_position 或 stop_strategy"))]
  }

  function NotificationRules(): seq<Rule> {
    [Rule("dingtalk_webhook", false, None, None, None, Some(OptionalHttps),
          Some("钉钉 Webhook 必须是 HTTPS URL")),
     Rule("smtp_port", false, None, None, None, Some(OptionalPort),
          Some("SMTP 端口必须在 1-65535 之间")),
     Rule("notification_emails", false, None, None, None, Some(OptionalEmails),
          Some("邮箱格式不正确，多个邮箱请用逗号分隔"))]
  }

  /** The four sections with rules are not names every object inherits. */
  lemma SectionsNotInherited()
    ensures "app" !in PrototypeNames && "database" !in PrototypeNames
    ensures "risk" !in PrototypeNames && "notifications" !in PrototypeNames
  {
  }

  /** `CONFIG_VALIDATION_RULES[section] || []`, then `.forEach`: an unknown section has no rules,
      but an inherited name finds an object without `forEach`. */
  function RulesFor(section: string): (r: Result<seq<Rule>, string>)
    ensures r.Err? <==> section in PrototypeNames
  {
    SectionsNotInherited();
    match section
    case "app" => Ok(AppRules())
    case "database" => Ok(DatabaseRules())
    case "risk" => Ok(RiskRules())
    case "notifications" => Ok(NotificationRules())
    case _ => if section in PrototypeNames then Err("rules.forEach is not a function") else Ok([])
  }

  /** `value === undefined || value === null || value === ''`. */
  predicate IsEmpty(value: Option<Json>) {
    value == None || value == Some(JNull) || value == Some(JStr(""))
  }

  // JavaScript's conversion of a value to a number, on the integers.

  /** The value of an optionally signed run of decimal digits; `None` for anything else. */
  function IntegerText(t: string): (r: Option<int>)
    ensures r.Some? ==> t != []
  {
    var sign := if t != [] && (t[0] == '-' || t[0] == '+') then 1 else 0;
    var d := t[sign..];
    if d != [] && forall i :: 0 <= i < |d| ==> IsDigit(d[i]) then
      Some(if t[0] == '-' then -(DigitsValue(d) as int) else DigitsValue(d))
    else None
  }

  /** `Number(s)`: blank text is 0. */
  function StringToNumber(s: string): Option<int> {
    var t := Trim(s);
    if t == [] then Some(0) else IntegerText(t)
  }

  /** `Number(value)`, with `None` for `NaN` (and for the fractions the model leaves out). */
  function ToNumber(v: Json): Option<int> {
    match v
    case JNull => Some(0)
    case JBool(b) => Some(if b then 1 else 0)
    case JNum(n) => Some(n)
    case JStr(s) => StringToNumber(s)
    case JArr(_) => StringToNumber(JsonText(v))
    case JObj(_) => None
  }

  /** `value < bound` for a number `bound`: false when `value` is `NaN`. */
  predicate Below(v: Json, bound: int) {
    ToNumber(v).Some? && ToNumber(v).value < bound
  }

  /** `value > bound` for a number `bound`. */
  predicate Above(v: Json, bound: int) {
    ToNumber(v).Some? && ToNumber(v).value > bound
  }

  // The e-mail pattern `^[^\s@]+@[^\s@]+\.[^\s@]+$`.

  /** A non-empty run of `[^\s@]`. */
  predicate Plain(s: string) {
    s != [] && forall i :: 0 <= i < |s| ==> !IsJsSpace(s[i]) && s[i] != '@'
  }

  /** The pattern read directly: three plain runs joined by `@` and `.`. */
  ghost predicate EmailPattern(e: string) {
    exists a: string, b: string, c: string :: e == a + "@" + b + "." + c && Plain(a) && Plain(b) && Plain(c)
  }

  /** The index of the first `c` in `s`, or `|s|`. */
  function IndexOf(s: string, c: char): (i: nat)
    ensures i <= |s| && c !in s[..i]
    ensures i < |s| ==> s[i] == c
  {
    if s == [] then 0
    else if s[0] == c then 0
    else
      var i := 1 + IndexOf(s[1..], c);
      assert s[..i] == [s[0]] + s[1..][..i - 1];
      i
  }

  /** `emailRegex.test(e)`, decided: the text before the first `@` and the text after it are
      plain, and the latter has a `.` neither first nor last. */
  predicate IsEmail(e: string) {
    var i := IndexOf(e, '@');
    i < |e| && Plain(e[..i]) && Plain(e[i + 1..]) && InnerDot(e[i + 1..])
  }

  /** `d` has a `.` that is neither its first nor its last character. */
  predicate InnerDot(d: string) {
    exists j :: 0 < j < |d| - 1 && d[j] == '.'
  }

  /** Every comma-separated, trimmed part is an e-mail address. */
  predicate AllEmails(parts: seq<string>) {
    forall i :: 0 <= i < |parts| ==> IsEmail(Trim(parts[i]))
  }

  /** `value.split(',').every(...)`: every comma-separated, trimmed part is an e-mail address. */
  predicate EmailList(s: string) {
    AllEmails(Split(s, ','))
  }

  /** A validator run on a non-empty value: its boolean answer, or the `TypeError` it throws
      when it calls a string method on something that is not a string. */
  function RunValidator(v: Validator, value: Json): (r: Result<bool, string>)
    ensures r.Err? ==> !value.JStr?
  {
    match v
    case OneOf(options) => Ok(value.JStr? && value.s in options)
    case DbPath =>
      if value.JStr? then Ok(EndsWith(value.s, ".db")) else Err("value.endsWith is not a function")
    case OptionalHttps =>
      if !Truthy(Some(value)) then Ok(true)
      else if value.JStr? then Ok(StartsWith(value.s, "https://"))
      else Err("value.startsWith is not a function")
    case OptionalPort =>
      Ok(!Truthy(Some(value)) || (ToNumber(value).Some? && 1 <= ToNumber(value).value <= 65535))
    case OptionalEmails =>
      if !Truthy(Some(value)) then Ok(true)
      else if value.JStr? then Ok(EmailList(value.s))
      else Err("value.split is not a function")
  }

  /** `rule.message || fallback`: a missing or empty message is falsy and gives the fallback. */
  function MessageOrElse(rule: Rule, fallback: string): string {
    if rule.message.Some? && rule.message.value != "" then rule.message.value else fallback
  }

  /** The `TypeError` that `data[rule.field]` raises on `undefined` or `null`. */
  function ReadError(data: Option<Json>, field: string): string {
    "Cannot read properties of " + (if data.None? then "undefined" else "null") +
    " (reading '" + field + "')"
  }

  /** The message of the `min` check, if it fails. */
  function MinCheck(rule: Rule, v: Json): (r: seq<string>)
    ensures |r| <= 1
  {
    if rule.min.Some? && Below(v, rule.min.value)
    then [MessageOrElse(rule, rule.field + " 不能小于 " + NumText(rule.min.value))] else []
  }

  /** The message of the `max` check, if it fails. */
  function MaxCheck(rule: Rule, v: Json): (r: seq<string>)
    ensures |r| <= 1
  {
    if rule.max.Some? && Above(v, rule.max.value)
    then [MessageOrElse(rule, rule.field + " 不能大于 " + NumText(rule.max.value))] else []
  }

  /** The message of the `pattern` check, if it fails. */
  function PatternCheck(rule: Rule, v: Json): (r: seq<string>)
    ensures |r| <= 1
  {
    if rule.pattern.Some? && !rule.pattern.value(JsonText(v))
    then [MessageOrElse(rule, rule.field + " 格式不正确")] else []
  }

  /** The errors one rule adds for `data`, or the error the callback throws. */
  function RuleErrors(rule: Rule, data: Option<Json>): (r: Result<seq<string>, string>)
    ensures r.Ok? ==> |r.value| <= 4
  {
    if data.None? || data.value == JNull then Err(ReadError(data, rule.field))
    else
      var value := Field(data.value, rule.field);
      if rule.required && IsEmpty(value) then Ok([rule.field + " 是必填项"])
      else if IsEmpty(value) then Ok([])
      else
        var v := value.value;
        var checks := MinCheck(rule, v) + MaxCheck(rule, v) + PatternCheck(rule, v);
        if rule.validator.None? then Ok(checks)
        else match RunValidator(rule.validator.value, v)
          case Err(e) => Err(e)
          case Ok(true) => Ok(checks)
          case Ok(false) => Ok(checks + [MessageOrElse(rule, rule.field + " 验证失败")])
  }

  /** The errors of the rules in order; the first thrown error ends the walk. */
  function Collect(rules: seq<Rule>, data: Option<Json>): (r: Result<seq<string>, string>)
    ensures r.Ok? ==> |r.value| <= 4 * |rules|
  {
    if rules == [] then Ok([])
    else match RuleErrors(rules[0], data)
      case Err(e) => Err(e)
      case Ok(first) =>
        match Collect(rules[1..], data)
        case Err(e) => Err(e)
        case Ok(rest) => Ok(first + rest)
  }

  /** `validateConfig(section, data)` as a value. */
  function Validation(section: string, data: Option<Json>): Result<seq<string>, string> {
    match RulesFor(section)
    case Err(e) => Err(e)
    case Ok(rules) => Collect(rules, data)
  }

  /** `errors` followed by the outcome of the remaining rules. */
  function Prefixed(errors: seq<string>, r: Result<seq<string>, string>): Result<seq<string>, string> {
    match r
    case Err(e) => Err(e)
    case Ok(more) => Ok(errors + more)
  }

  /** The `forEach` callback for one rule: the messages it pushes, or the error it throws. */
  method ApplyRule(rule: Rule, data: Option<Json>) returns (r: Result<seq<string>, string>)
    ensures r == RuleErrors(rule, data)
  {
    if data.None? || data.value == JNull {
      return Err(ReadError(data, rule.field));
    }
    var value := Field(data.value, rule.field);
    if rule.required && IsEmpty(value) {
      return Ok([rule.field + " 是必填项"]);
    }
    if !rule.required && IsEmpty(value) {
      return Ok([]);
    }
    var pushed: seq<string> := [];
    if rule.min.Some? && Below(value.value, rule.min.value) {
      pushed := pushed + [MessageOrElse(rule, rule.field + " 不能小于 " + NumText(rule.min.value))];
    }
    assert pushed == MinCheck(rule, value.value);
    if rule.max.Some? && Above(value.value, rule.max.value) {
      pushed := pushed + [MessageOrElse(rule, rule.field + " 不能大于 " + NumText(rule.max.value))];
    }
    assert pushed == MinCheck(rule, value.value) + MaxCheck(rule, value.value);
    if rule.pattern.Some? && !rule.pattern.value(JsonText(value.value)) {
      pushed := pushed + [MessageOrElse(rule, rule.field + " 格式不正确")];
    }
    assert pushed == MinCheck(rule, value.value) + MaxCheck(rule, value.value) + PatternCheck(rule, value.value);
    if rule.validator.Some? {
      var result := RunValidator(rule.validator.value, value.value);
      if result.Err? {
        return Err(result.error);
      }
      if !result.value {
        pushed := pushed + [MessageOrElse(rule, rule.field + " 验证失败")];
      }
    }
    return Ok(pushed);
  }

  /** The `forEach` over a rule list. */
  method ApplyRules(rules: seq<Rule>, data: Option<Json>) returns (r: Result<seq<string>, string>)
    ensures r == Collect(rules, data)
  {
    var errors: seq<string> := [];
    var i := 0;
    assert rules[0..] == rules;
    assert Prefixed([], Collect(rules, data)) == Collect(rules, data) by {
      if Collect(rules, data).Ok? {
        assert [] + Collect(rules, data).value == Collect(rules, data).value;
      }
    }
    while i < |rules|
      invariant 0 <= i <= |rules|
      invariant Collect(rules, data) == Prefixed(errors, Collect(rules[i..], data))
    {
      assert rules[i..][1..] == rules[i + 1..];
      var step := ApplyRule(rules[i], data);
      if step.Err? {
        return Err(step.error);
      }
      var first := step.value;
      assert Collect(rules[i..], data) == Prefixed(first, Collect(rules[i + 1..], data));
      PrefixedTwice(errors, first, Collect(rules[i + 1..], data));
      errors := errors + first;
      i := i + 1;
    }
    assert rules[i..] == [] && errors + [] == errors;
    return Ok(errors);
  }

  lemma PrefixedTwice(a: seq<string>, b: seq<string>, r: Result<seq<string>, string>)
    ensures Prefixed(a, Prefixed(b, r)) == Prefixed(a + b, r)
  {
    if r.Ok? {
      assert a + (b + r.value) == (a + b) + r.value;
    }
  }

  /** `validateConfig(section, data)`. */
  method ValidateConfig(section: string, data: Option<Json>) returns (r: Result<seq<string>, string>)
    ensures r == Validation(section, data)
  {
    var found := RulesFor(section);
    if found.Err? {
      return Err(found.error);
    }
    r := ApplyRules(found.value, data);
  }

  /** `DEFAULT_CONFIG`, section by section; the notification fields are all `undefined`. */
  function DefaultSection(section: string): Json {
    match section
    case "app" => JObj([("language", JStr("zh-CN")), ("theme", JStr("dark")),
                        ("auto_save_interval", JNum(60))])
    case "database" => JObj([("path", JStr("ai-lot.db")), ("backup_interval_hours", JNum(24)),
                             ("backup_retention_days", JNum(30))])
    case "risk" => JObj([("enabled", JBool(true)), ("default_action", JStr("alert"))])
    case _ => JObj([])
  }

  function DefaultConfig(): Json {
    JObj([("app", DefaultSection("app")), ("database", DefaultSection("database")),
          ("risk", DefaultSection("risk")), ("notifications", DefaultSection("notifications"))])
  }

  // Properties.

  /** A section without rules accepts anything, even `undefined`. */
  lemma UnknownSectionAccepts(section: string, data: Option<Json>)
    requires section !in {"app", "database", "risk", "notifications"} && section !in PrototypeNames
    ensures Validation(section, data) == Ok([])
  {
  }

  /** An empty required field yields exactly the "is required" message; no other check runs. */
  lemma RequiredEmptyField(rule: Rule, data: Json)
    requires data != JNull && rule.required && IsEmpty(Field(data, rule.field))
    ensures RuleErrors(rule, Some(data)) == Ok([rule.field + " 是必填项"])
  {
  }

  /** An empty optional field yields no error, whatever its checks. */
  lemma OptionalEmptyField(rule: Rule, data: Json)
    requires data != JNull && !rule.required && IsEmpty(Field(data, rule.field))
    ensures RuleErrors(rule, Some(data)) == Ok([])
  {
  }

  /** For a non-empty value each of the min, max, pattern and validator checks adds at most one
      message, in that order: the errors are a sub-list of the four candidate messages. */
  lemma ChecksInOrder(rule: Rule, data: Json)
    requires data != JNull && !IsEmpty(Field(data, rule.field))
    requires RuleErrors(rule, Some(data)).Ok?
    ensures var v := Field(data, rule.field).value;
      RuleErrors(rule, Some(data)).value ==
        MinCheck(rule, v) + MaxCheck(rule, v) + PatternCheck(rule, v) +
        (if rule.validator.Some? && RunValidator(rule.validator.value, v) == Ok(false)
         then [MessageOrElse(rule, rule.field + " 验证失败")] else [])
  {
  }

  /** A rule list each of whose rules passes `data` yields no error. */
  lemma {:induction false} CollectPasses(rules: seq<Rule>, data: Option<Json>)
    requires forall i :: 0 <= i < |rules| ==> RuleErrors(rules[i], data) == Ok([])
    ensures Collect(rules, data) == Ok([])
  {
    if rules != [] {
      CollectPasses(rules[1..], data);
    }
  }

  /** Each section of the defaults passes its own section's rules. */
  lemma AppDefaultsValidate()
    ensures Validation("app", Some(DefaultSection("app"))) == Ok([])
  {
    var rules := AppRules();
    DefaultLanguagePasses();
    DefaultThemePasses();
    DefaultIntervalPasses();
    ThreeRulesPass(rules[0], rules[1], rules[2], Some(DefaultSection("app")));
    assert rules == [rules[0], rules[1], rules[2]];
  }

  /** Three rules each of which passes `data` yield no error together. */
  lemma ThreeRulesPass(r0: Rule, r1: Rule, r2: Rule, data: Option<Json>)
    requires RuleErrors(r0, data) == Ok([]) && RuleErrors(r1, data) == Ok([]) && RuleErrors(r2, data) == Ok([])
    ensures Collect([r0, r1, r2], data) == Ok([])
  {
    CollectPasses([r0, r1, r2], data);
  }

  lemma DefaultLanguagePasses()
    ensures RuleErrors(AppRules()[0], Some(DefaultSection("app"))) == Ok([])
  {
  }

  lemma DefaultThemePasses()
    ensures RuleErrors(AppRules()[1], Some(DefaultSection("app"))) == Ok([])
  {
  }

  lemma DefaultIntervalPasses()
    ensures RuleErrors(AppRules()[2], Some(DefaultSection("app"))) == Ok([])
  {
  }

  lemma DatabaseDefaultsValidate()
    ensures Validation("database", Some(DefaultSection("database"))) == Ok([])
  {
    var rules := DatabaseRules();
    DefaultPathPasses();
    DefaultBackupIntervalPasses();
    DefaultRetentionPasses();
    ThreeRulesPass(rules[0], rules[1], rules[2], Some(DefaultSection("database")));
    assert rules == [rules[0], rules[1], rules[2]];
  }

  lemma DefaultPathPasses()
    ensures RuleErrors(DatabaseRules()[0], Some(DefaultSection("database"))) == Ok([])
  {
    assert "ai-lot.db"[|"ai-lot.db"| - |".db"|..] == ".db";
  }

  lemma DefaultBackupIntervalPasses()
    ensures RuleErrors(DatabaseRules()[1], Some(DefaultSection("database"))) == Ok([])
  {
  }

  lemma DefaultRetentionPasses()
    ensures RuleErrors(DatabaseRules()[2], Some(DefaultSection("database"))) == Ok([])
  {
  }

  lemma RiskDefaultsValidate()
    ensures Validation("risk", Some(DefaultSection("risk"))) == Ok([])
  {
    var data := Some(DefaultSection("risk"));
    assert RuleErrors(RiskRules()[0], data) == Ok([]);
    CollectPasses(RiskRules(), data);
  }

  lemma NotificationDefaultsValidate()
    ensures Validation("notifications", Some(DefaultSection("notifications"))) == Ok([])
  {
    CollectPasses(NotificationRules(), Some(DefaultSection("notifications")));
  }

  /** The decision procedure agrees with the pattern. */
  lemma IsEmailMatchesPattern(e: string)
    ensures IsEmail(e) <==> EmailPattern(e)
  {
    if IsEmail(e) {
      EmailWitness(e);
    }
    if EmailPattern(e) {
      var a, b, c :| e == a + "@" + b + "." + c && Plain(a) && Plain(b) && Plain(c);
      PatternDecided(e, a, b, c);
    }
  }

  lemma EmailWitness(e: string)
    requires IsEmail(e)
    ensures EmailPattern(e)
  {
    var i := IndexOf(e, '@');
    var d := e[i + 1..];
    var j :| 0 < j < |d| - 1 && d[j] == '.';
    assert e == e[..i] + "@" + d[..j] + "." + d[j + 1..];
    assert Plain(d[..j]) && Plain(d[j + 1..]);
  }

  lemma PatternDecided(e: string, a: string, b: string, c: string)
    requires e == a + "@" + b + "." + c && Plain(a) && Plain(b) && Plain(c)
    ensures IsEmail(e)
  {
    var i := IndexOf(e, '@');
    assert e[|a|] == '@' && e[..|a|] == a;
    assert i == |a|;
    var d := e[i + 1..];
    assert d == b + "." + c;
    assert d[|b|] == '.';
  }

  /** Every part, trimmed, matches the e-mail pattern. */
  ghost predicate PartsMatchPattern(parts: seq<string>) {
    forall i :: 0 <= i < |parts| ==> EmailPattern(Trim(parts[i]))
  }

  /** The notification e-mail field is accepted exactly when it is empty or every
      comma-separated part, trimmed, matches the pattern. */
  lemma EmailsAccepted(s: string)
    ensures RunValidator(OptionalEmails, JStr(s)) == Ok(true) <==> s == "" || PartsMatchPattern(Split(s, ','))
  {
    EmailsRun(s);
    AllEmailsMatchPattern(Split(s, ','));
    assert EmailList(s) == AllEmails(Split(s, ','));
  }

  lemma EmailsRun(s: string)
    ensures RunValidator(OptionalEmails, JStr(s)) == if s == "" then Ok(true) else Ok(EmailList(s))
  {
  }

  lemma AllEmailsMatchPattern(parts: seq<string>)
    ensures AllEmails(parts) <==> PartsMatchPattern(parts)
  {
    forall i | 0 <= i < |parts| {
      IsEmailMatchesPattern(Trim(parts[i]));
    }
  }

  /** Text an integer prints as converts back to that integer, so `"60"` and `60` compare alike. */
  lemma NumberOfNumText(n: int)
    ensures StringToNumber(NumText(n)) == Some(n)
  {
    var m := if n < 0 then -n else n;
    DigitsValueOf(m);
    var d := Digits(m);
    IntegerTextOfDigits(d);
    DigitNotSpace(d[|d| - 1]);
    if n < 0 {
      assert NumText(n) == "-" + d;
      TrimUnspaced("-" + d);
    } else {
      DigitNotSpace(d[0]);
      TrimUnspaced(d);
    }
  }

  lemma IntegerTextOfDigits(d: string)
    requires d != [] && forall i :: 0 <= i < |d| ==> IsDigit(d[i])
    ensures IntegerText(d) == Some(DigitsValue(d) as int)
    ensures IntegerText("-" + d) == Some(-(DigitsValue(d) as int))
  {
    assert d[0..] == d && ("-" + d)[1..] == d;
  }

  lemma DigitNotSpace(c: char)
    requires IsDigit(c)
    ensures !IsJsSpace(c)
  {
  }

  /** Text that neither starts nor ends with white space is its own trim. */
  lemma TrimUnspaced(t: string)
    requires t != [] && !IsJsSpace(t[0]) && !IsJsSpace(t[|t| - 1])
    ensures Trim(t) == t
  {
    assert TrimStart(t) == t;
  }
}
