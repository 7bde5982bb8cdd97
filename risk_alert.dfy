/** Risk alert records: the severity and status enumerations with their texts, and the alert
    whose status moves from active to handled or ignored. Alert ids and clock readings are
    parameters. */
module RiskAlerts {
  import opened Wrappers
  import opened Text

  datatype AlertSeverity = Low | Medium | High | Critical

  /** `AlertSeverity::as_str`. */
  function SeverityText(s: AlertSeverity): (t: string)
    ensures forall i :: 0 <= i < |t| ==> IsLowerAscii(t[i])
  {
    match s
      case Low => "low"
      case Medium => "medium"
      case High => "high"
      case Critical => "critical"
  }

  /** `AlertSeverity::from_str`: the lower-cased text must be a severity's name. */
  function ParseSeverity(s: string): (r: Result<AlertSeverity, string>)
    ensures r.Ok? ==> SeverityText(r.value) == Lower(s)
    ensures r.Err? ==> r.error == "Invalid severity: " + s
  {
    var t := Lower(s);
    if t == "low" then Ok(Low)
    else if t == "medium" then Ok(Medium)
    else if t == "high" then Ok(High)
    else if t == "critical" then Ok(Critical)
    else Err("Invalid severity: " + s)
  }

  /** Parsing the text of a severity gives it back, and parsing ignores letter case. */
  lemma SeverityRoundTrip(x: AlertSeverity, s: string)
    ensures ParseSeverity(SeverityText(x)) == Ok(x)
    ensures ParseSeverity(Upper(SeverityText(x))) == Ok(x)
    ensures ParseSeverity(s).Ok? <==> ParseSeverity(Lower(s)).Ok?
    ensures ParseSeverity(s).Ok? ==> ParseSeverity(s) == ParseSeverity(Lower(s))
  {
    var t := SeverityText(x);
    SeverityParses(x);
    LowerOfUpper(t);
    LowerFixed(t);
    SeverityByLower(t, Upper(t));
    LowerIdempotent(s);
    SeverityByLower(s, Lower(s));
  }

  /** Each severity text parses back to its severity. */
  lemma SeverityParses(x: AlertSeverity)
    ensures ParseSeverity(SeverityText(x)) == Ok(x)
  {
    match x
      case Low => SeverityOfLowerCase("low");
      case Medium => SeverityOfLowerCase("medium");
      case High => SeverityOfLowerCase("high");
      case Critical => SeverityOfLowerCase("critical");
  }

  /** Text without capitals is compared with the names as it stands. */
  lemma SeverityOfLowerCase(t: string)
    requires forall i :: 0 <= i < |t| ==> !IsUpperAscii(t[i])
    ensures ParseSeverity(t) == (if t == "low" then Ok(Low) else if t == "medium" then Ok(Medium)
      else if t == "high" then Ok(High) else if t == "critical" then Ok(Critical)
      else Err("Invalid severity: " + t))
  {
    LowerFixed(t);
  }

  /** Parsing a severity reads only the lower-case form of the text. */
  lemma SeverityByLower(s: string, u: string)
    requires Lower(s) == Lower(u)
    ensures ParseSeverity(s).Ok? <==> ParseSeverity(u).Ok?
    ensures ParseSeverity(s).Ok? ==> ParseSeverity(s) == ParseSeverity(u)
  {
  }

  /** Lower-casing undoes upper-casing on lower-case text. */
  lemma LowerOfUpper(t: string)
    requires forall i :: 0 <= i < |t| ==> IsLowerAscii(t[i])
    ensures Lower(Upper(t)) == t
  {
    var u := Upper(t);
    forall i | 0 <= i < |t| ensures Lower(u)[i] == t[i] {
      LowerOfUpperChar(t[i]);
    }
  }

  lemma LowerOfUpperChar(c: char)
    requires IsLowerAscii(c)
    ensures LowerChar(UpperChar(c)) == c
  {
  }

  /** Only the four names parse. */
  lemma SeverityRejects()
    ensures ParseSeverity("invalid").Err?
  {
    LowerFixed("invalid");
  }

  datatype AlertStatus = Active | Handled | Ignored

  /** `AlertStatus::as_str`. */
  function StatusText(s: AlertStatus): (t: string)
    ensures forall i :: 0 <= i < |t| ==> IsLowerAscii(t[i])
  {
    match s
      case Active => "active"
      case Handled => "handled"
      case Ignored => "ignored"
  }

  /** `AlertStatus::from_str`. */
  function ParseStatus(s: string): (r: Result<AlertStatus, string>)
    ensures r.Ok? ==> StatusText(r.value) == Lower(s)
    ensures r.Err? ==> r.error == "Invalid status: " + s
  {
    var t := Lower(s);
    if t == "active" then Ok(Active)
    else if t == "handled" then Ok(Handled)
    else if t == "ignored" then Ok(Ignored)
    else Err("Invalid status: " + s)
  }

  lemma StatusRoundTrip(x: AlertStatus, s: string)
    ensures ParseStatus(StatusText(x)) == Ok(x)
    ensures ParseStatus(Upper(StatusText(x))) == Ok(x)
    ensures ParseStatus(s).Ok? <==> ParseStatus(Lower(s)).Ok?
    ensures ParseStatus(s).Ok? ==> ParseStatus(s) == ParseStatus(Lower(s))
  {
    var t := StatusText(x);
    StatusParses(x);
    LowerOfUpper(t);
    LowerFixed(t);
    StatusByLower(t, Upper(t));
    LowerIdempotent(s);
    StatusByLower(s, Lower(s));
  }

  /** Each status text parses back to its status. */
  lemma StatusParses(x: AlertStatus)
    ensures ParseStatus(StatusText(x)) == Ok(x)
  {
    match x
      case Active => StatusOfLowerCase("active");
      case Handled => StatusOfLowerCase("handled");
      case Ignored => StatusOfLowerCase("ignored");
  }

  /** Text without capitals is compared with the names as it stands. */
  lemma StatusOfLowerCase(t: string)
    requires forall i :: 0 <= i < |t| ==> !IsUpperAscii(t[i])
    ensures ParseStatus(t) == (if t == "active" then Ok(Active) else if t == "handled" then Ok(Handled)
      else if t == "ignored" then Ok(Ignored)
      else Err("Invalid status: " + t))
  {
    LowerFixed(t);
  }

  /** Parsing a status reads only the lower-case form of the text. */
  lemma StatusByLower(s: string, u: string)
    requires Lower(s) == Lower(u)
    ensures ParseStatus(s).Ok? <==> ParseStatus(u).Ok?
    ensures ParseStatus(s).Ok? ==> ParseStatus(s) == ParseStatus(u)
  {
  }

  /** Different enumerators have different texts. */
  lemma TextsInjective(a: AlertSeverity, b: AlertSeverity, c: AlertStatus, d: AlertStatus)
    ensures SeverityText(a) == SeverityText(b) ==> a == b
    ensures StatusText(c) == StatusText(d) ==> c == d
  {
  }

  /** `CreateAlertRequest`. */
  datatype CreateAlertRequest = CreateAlertRequest(ruleId: string, userId: string, severity: string,
                                                   title: string, message: string,
                                                   strategyInstanceId: Option<string>, symbol: Option<string>,
                                                   currentValue: real, thresholdValue: real)

  /** `RiskAlert`: the status and handling fields change in place. */
  class RiskAlert {
    const id: string
    const ruleId: string
    const userId: string
    const severity: string
    const title: string
    const message: string
    const strategyInstanceId: Option<string>
    const symbol: Option<string>
    const currentValue: real
    const thresholdValue: real
    var status: string
    var handledBy: Option<string>
    var handledAt: Option<int>
    const createdAt: int

    /** `new(req)`: an active, unhandled alert carrying the request's fields. */
    constructor (req: CreateAlertRequest, newId: string, now: int)
      ensures id == newId && createdAt == now
      ensures ruleId == req.ruleId && userId == req.userId && severity == req.severity
      ensures title == req.title && message == req.message
      ensures strategyInstanceId == req.strategyInstanceId && symbol == req.symbol
      ensures currentValue == req.currentValue && thresholdValue == req.thresholdValue
      ensures status == "active" && handledBy == None && handledAt == None
      ensures IsActive() && !IsHandled()
    {
      id := newId;
      ruleId := req.ruleId;
      userId := req.userId;
      severity := req.severity;
      title := req.title;
      message := req.message;
      strategyInstanceId := req.strategyInstanceId;
      symbol := req.symbol;
      currentValue := req.currentValue;
      thresholdValue := req.thresholdValue;
      status := StatusText(Active);
      handledBy := None;
      handledAt := None;
      createdAt := now;
    }

    /** `mark_handled(handled_by)`. */
    method MarkHandled(handler: string, now: int)
      modifies this
      ensures status == "handled" && handledBy == Some(handler) && handledAt == Some(now)
      ensures IsHandled() && !IsActive()
    {
      status := StatusText(Handled);
      handledBy := Some(handler);
      handledAt := Some(now);
    }

    /** `mark_ignored()`: only the status changes. */
    method MarkIgnored()
      modifies this
      ensures status == "ignored" && handledBy == old(handledBy) && handledAt == old(handledAt)
      ensures !IsActive() && !IsHandled()
    {
      status := StatusText(Ignored);
    }

    /** `is_active()`. */
    function IsActive(): (b: bool)
      reads this
      ensures b <==> status == StatusText(Active)
      ensures b ==> !IsHandled()
    {
      status == "active"
    }

    /** `is_handled()`. */
    function IsHandled(): (b: bool)
      reads this
      ensures b <==> status == StatusText(Handled)
    {
      status == "handled"
    }

    /** `is_critical()`. */
    function IsCritical(): (b: bool)
      reads this
      ensures b <==> ParseSeverity(severity) == Ok(Critical) && severity == SeverityText(Critical)
    {
      severity == "critical"
    }
  }
}
