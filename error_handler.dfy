/** The front end's `ErrorHandler`: turns whatever a call threw into `{code, message, details,
    original}`, reading back the `"[CODE] message"` strings that the back end produces. */
module ErrorHandler {
  import opened Wrappers
  import opened Text
  import AppErrors
  import Response

  /** What can reach `handle`. Objects (including `Error` instances) are described by the
      properties `handle` reads: `message`, `stack`, `details`, and `String(value)`. */
  datatype Thrown =
    | StringThrown(s: string)
    | ObjectThrown(message: Option<string>, stack: Option<string>, details: Option<string>, asString: string)
    | OtherThrown(asString: string)   // numbers, booleans, null, undefined

  datatype HandledError = HandledError(code: string, message: string, details: string, original: Option<Thrown>)

  /** JavaScript truthiness of an optional string property. */
  predicate Truthy(p: Option<string>) { p.Some? && p.value != "" }

  /** `ERROR_MESSAGES`, in declaration order. */
  const ErrorMessages: seq<(string, string)> := [
    ("DATABASE_ERROR", "数据库操作失败，请稍后重试"),
    ("EXCHANGE_ERROR", "交易所连接失败，请检查网络设置"),
    ("STRATEGY_ERROR", "策略执行出错，请检查策略配置"),
    ("AUTH_ERROR", "身份验证失败，请重新登录"),
    ("PERMISSION_ERROR", "权限不足，无法执行此操作"),
    ("VALIDATION_ERROR", "输入数据验证失败，请检查输入内容"),
    ("IO_ERROR", "文件操作失败"),
    ("SERIALIZATION_ERROR", "数据处理失败"),
    ("NETWORK_ERROR", "网络连接失败，请检查网络"),
    ("RISK_LIMIT_ERROR", "超出风险限制，操作被拒绝"),
    ("GENERIC_ERROR", "操作失败，请稍后重试")
  ]

  const GenericMessage: string := "操作失败，请稍后重试"

  predicate NoLineTerminator(s: string) {
    forall i :: 0 <= i < |s| ==> !IsLineTerminator(s[i])
  }

  predicate AllJsSpace(s: string) {
    forall i :: 0 <= i < |s| ==> IsJsSpace(s[i])
  }

  /** Length of the longest prefix of `s` made of `[A-Z_]`. */
  function CodeRun(s: string): (n: nat)
    ensures n <= |s|
    ensures forall i :: 0 <= i < n ==> AppErrors.IsCodeChar(s[i])
    ensures n < |s| ==> !AppErrors.IsCodeChar(s[n])
  {
    if s != [] && AppErrors.IsCodeChar(s[0]) then 1 + CodeRun(s[1..]) else 0
  }

  /** Whether the text after `]` matches `\s*(.+)$` (no flags): some all-whitespace prefix is
      followed by a non-empty rest without line terminators. */
  predicate RestMatches(r: string) {
    |r| > 0 && (NoLineTerminator(r) || (IsJsSpace(r[0]) && RestMatches(r[1..])))
  }

  /** `RestMatches` is exactly the existence of the split the regular expression looks for. */
  lemma {:induction false} RestMatchesIffSplit(r: string)
    ensures RestMatches(r) <==>
      exists j :: 0 <= j < |r| && AllJsSpace(r[..j]) && NoLineTerminator(r[j..])
  {
    if |r| == 0 {
    } else if NoLineTerminator(r) {
      assert AllJsSpace(r[..0]) && r[0..] == r;
    } else {
      if RestMatches(r) {
        RestMatchesIffSplit(r[1..]);
        var j :| 0 <= j < |r[1..]| && AllJsSpace(r[1..][..j]) && NoLineTerminator(r[1..][j..]);
        assert r[..j + 1] == [r[0]] + r[1..][..j];
        assert r[j + 1..] == r[1..][j..];
      }
      if exists j :: 0 <= j < |r| && AllJsSpace(r[..j]) && NoLineTerminator(r[j..]) {
        var j :| 0 <= j < |r| && AllJsSpace(r[..j]) && NoLineTerminator(r[j..]);
        assert j > 0 by { assert r[0..] == r; }
        assert IsJsSpace(r[..j][0]);
        RestMatchesIffSplit(r[1..]);
        assert r[1..][..j - 1] == r[..j][1..];
        assert r[1..][j - 1..] == r[j..];
      }
    }
  }

  /** Leading whitespace does not change what `trim` returns, so trimming the whole rest gives
      the same message as trimming the regular expression's second group. */
  lemma {:induction false} TrimSkipsLeadingSpace(w: string, m: string)
    requires AllJsSpace(w)
    ensures Trim(w + m) == Trim(m)
  {
    TrimStartSkipsSpace(w, m);
  }

  lemma {:induction false} TrimStartSkipsSpace(w: string, m: string)
    requires AllJsSpace(w)
    ensures TrimStart(w + m) == TrimStart(m)
  {
    if w != [] {
      assert (w + m)[0] == w[0];
      assert (w + m)[1..] == w[1..] + m;
      TrimStartSkipsSpace(w[1..], m);
    } else {
      assert w + m == m;
    }
  }

  /** `errorStr.match(/^\[([A-Z_]+)\]\s*(.+)$/)`: the code in brackets and the text after `]`. */
  function MatchBracketed(s: string): (r: Option<(string, string)>)
    ensures r.Some? ==> AppErrors.IsCode(r.value.0) && s == "[" + r.value.0 + "]" + r.value.1
    ensures r.Some? ==> RestMatches(r.value.1)
  {
    if |s| >= 1 && s[0] == '[' then
      var k := 1 + CodeRun(s[1..]);
      if k > 1 && k < |s| && s[k] == ']' && RestMatches(s[k + 1..]) then
        assert s == "[" + s[1..k] + "]" + s[k + 1..];
        Some((s[1..k], s[k + 1..]))
      else None
    else None
  }

  /** The `for ... of Object.entries(ERROR_MESSAGES)` scan: the first code whose name or
      message occurs in the string, compared in lower case. */
  function ScanForCode(lower: string, table: seq<(string, string)>): (r: Option<string>)
    ensures r.Some? ==> exists i :: 0 <= i < |table| && table[i].0 == r.value &&
                                    (Contains(lower, Lower(table[i].0)) || Contains(lower, Lower(table[i].1)))
    ensures r.None? ==> forall i :: 0 <= i < |table| ==>
      !Contains(lower, Lower(table[i].0)) && !Contains(lower, Lower(table[i].1))
  {
    if table == [] then None
    else if Contains(lower, Lower(table[0].0)) || Contains(lower, Lower(table[0].1)) then
      Some(table[0].0)
    else
      var r := ScanForCode(lower, table[1..]);
      assert r.Some? ==> exists i :: 0 <= i < |table[1..]| && table[1..][i].0 == r.value &&
                                     (Contains(lower, Lower(table[1..][i].0)) || Contains(lower, Lower(table[1..][i].1)));
      r
  }

  /** `parseStringError`, scanning the given code/message table when the bracket form does
      not match (`ParseString` passes `ERROR_MESSAGES`). */
  function ParseStringWith(s: string, table: seq<(string, string)>): (e: HandledError)
    ensures e.details == s && e.original.None?
    ensures MatchBracketed(s).Some? ==>
      e.code == MatchBracketed(s).value.0 && e.message == Trim(MatchBracketed(s).value.1)
    ensures MatchBracketed(s).None? && ScanForCode(Lower(s), table).Some? ==>
      e.code == ScanForCode(Lower(s), table).value && e.message == s
    ensures MatchBracketed(s).None? && ScanForCode(Lower(s), table).None? ==>
      e.code == "GENERIC_ERROR" && e.message == (if s == "" then GenericMessage else s)
  {
    match MatchBracketed(s)
    case Some((code, rest)) => HandledError(code, Trim(rest), s, None)
    case None =>
      match ScanForCode(Lower(s), table)
      case Some(code) => HandledError(code, s, s, None)
      case None => HandledError("GENERIC_ERROR", if s == "" then GenericMessage else s, s, None)
  }

  function ParseString(s: string): HandledError {
    ParseStringWith(s, ErrorMessages)
  }

  /** `parseErrorObject`: parse `message || String(error)`, then take `stack || details ||
      message` as details and keep the original. */
  function ParseObject(t: Thrown): (e: HandledError)
    requires t.ObjectThrown?
    ensures var text := if Truthy(t.message) then t.message.value else t.asString;
      e.code == ParseString(text).code && e.message == ParseString(text).message &&
      e.details == (if Truthy(t.stack) then t.stack.value
                    else if Truthy(t.details) then t.details.value else text)
    ensures e.original == Some(t)
  {
    var text := if Truthy(t.message) then t.message.value else t.asString;
    var parsed := ParseString(text);
    parsed.(details := if Truthy(t.stack) then t.stack.value
                       else if Truthy(t.details) then t.details.value else text,
            original := Some(t))
  }

  /** `ErrorHandler.handle`. */
  function Handle(t: Thrown): (e: HandledError)
    ensures t.StringThrown? ==> e == ParseString(t.s)
    ensures t.ObjectThrown? ==> e.original == Some(t)
    ensures t.OtherThrown? ==> e == HandledError("GENERIC_ERROR", GenericMessage, t.asString, Some(t))
  {
    match t
    case StringThrown(s) => ParseString(s)
    case ObjectThrown(_, _, _, _) => ParseObject(t)
    case OtherThrown(text) => HandledError("GENERIC_ERROR", GenericMessage, text, Some(t))
  }

  function GetCode(t: Thrown): string { Handle(t).code }

  /** `isErrorCode` and its fixed instances. */
  predicate IsErrorCode(t: Thrown, code: string) { GetCode(t) == code }
  predicate IsValidationError(t: Thrown) { IsErrorCode(t, "VALIDATION_ERROR") }
  predicate IsAuthError(t: Thrown) { IsErrorCode(t, "AUTH_ERROR") }
  predicate IsPermissionError(t: Thrown) { IsErrorCode(t, "PERMISSION_ERROR") }
  predicate IsNetworkError(t: Thrown) { IsErrorCode(t, "NETWORK_ERROR") }
  predicate IsRiskLimitError(t: Thrown) { IsErrorCode(t, "RISK_LIMIT_ERROR") }

  /** A bracketed code followed by `"] "` and a message without line terminators is read back
      as that code, with the trimmed message and the whole string as details. */
  lemma {:induction false} BracketedRoundTrip(code: string, msg: string)
    requires AppErrors.IsCode(code) && NoLineTerminator(msg)
    ensures var s := "[" + code + "] " + msg;
      ParseString(s) == HandledError(code, Trim(msg), s, None)
  {
    var s := "[" + code + "] " + msg;
    var tail := s[1..];
    assert tail == code + ("] " + msg);
    assert CodeRun(tail) == |code| by {
      CodeRunStops(code, "] " + msg);
    }
    var rest := s[|code| + 2..];
    assert rest == " " + msg;
    assert NoLineTerminator(rest);
    assert s[1..|code| + 1] == code;
    assert s[|code| + 1] == ']';
    assert MatchBracketed(s) == Some((code, rest));
    TrimSkipsLeadingSpace(" ", msg);
    assert Trim(rest) == Trim(msg);
  }

  /** The code run of `code + t` stops at the end of `code` when `t` starts with `]`. */
  lemma {:induction false} CodeRunStops(code: string, t: string)
    requires AppErrors.IsCode(code) || code == []
    requires t != [] && t[0] == ']'
    ensures CodeRun(code + t) == |code|
  {
    if code == [] {
      assert code + t == t;
    } else {
      assert (code + t)[1..] == code[1..] + t;
      CodeRunStops(code[1..], t);
    }
  }

  /** Round trip with the back end: the string a Tauri command returns for an `AppError`
      (`"[CODE] user message"`) is read back with the same code and the trimmed user message,
      whenever the user message has no line terminator. */
  lemma AppErrorRoundTrip(e: AppErrors.AppError)
    requires NoLineTerminator(AppErrors.UserMessage(e))
    ensures var s := AppErrors.ToCommandString(e);
      Handle(StringThrown(s)) == HandledError(AppErrors.Code(e), Trim(AppErrors.UserMessage(e)), s, None)
  {
    BracketedRoundTrip(AppErrors.Code(e), AppErrors.UserMessage(e));
  }

  /** `isErrorCode(error, c)` on a back-end error string holds exactly when `c` is the code of
      the error's own variant. */
  lemma RecognisesCode(e: AppErrors.AppError, c: string)
    requires NoLineTerminator(AppErrors.UserMessage(e)) && AppErrors.VariantOfCode(c).Some?
    ensures IsErrorCode(StringThrown(AppErrors.ToCommandString(e)), c) <==>
      AppErrors.VariantOfCode(c) == Some(AppErrors.VariantIndex(e))
  {
    AppErrorRoundTrip(e);
    AppErrors.CodeOfVariant(e, c);
  }

  /* Each fixed instance of `isErrorCode` recognises exactly the back-end variant whose
     command string it is given. */

  lemma IsValidationErrorRecognises(e: AppErrors.AppError)
    requires NoLineTerminator(AppErrors.UserMessage(e))
    ensures IsValidationError(StringThrown(AppErrors.ToCommandString(e))) <==> e.Validation?
  {
    assert AppErrors.CodeOfIndex(5) == "VALIDATION_ERROR";
    AppErrors.CodeReadsBack(5);
    RecognisesCode(e, "VALIDATION_ERROR");
  }

  lemma IsAuthErrorRecognises(e: AppErrors.AppError)
    requires NoLineTerminator(AppErrors.UserMessage(e))
    ensures IsAuthError(StringThrown(AppErrors.ToCommandString(e))) <==> e.Auth?
  {
    assert AppErrors.CodeOfIndex(3) == "AUTH_ERROR";
    AppErrors.CodeReadsBack(3);
    RecognisesCode(e, "AUTH_ERROR");
  }

  lemma IsPermissionErrorRecognises(e: AppErrors.AppError)
    requires NoLineTerminator(AppErrors.UserMessage(e))
    ensures IsPermissionError(StringThrown(AppErrors.ToCommandString(e))) <==> e.Permission?
  {
    assert AppErrors.CodeOfIndex(4) == "PERMISSION_ERROR";
    AppErrors.CodeReadsBack(4);
    RecognisesCode(e, "PERMISSION_ERROR");
  }

  lemma IsNetworkErrorRecognises(e: AppErrors.AppError)
    requires NoLineTerminator(AppErrors.UserMessage(e))
    ensures IsNetworkError(StringThrown(AppErrors.ToCommandString(e))) <==> e.Network?
  {
    assert AppErrors.CodeOfIndex(8) == "NETWORK_ERROR";
    AppErrors.CodeReadsBack(8);
    RecognisesCode(e, "NETWORK_ERROR");
  }

  lemma IsRiskLimitErrorRecognises(e: AppErrors.AppError)
    requires NoLineTerminator(AppErrors.UserMessage(e))
    ensures IsRiskLimitError(StringThrown(AppErrors.ToCommandString(e))) <==> e.RiskLimit?
  {
    assert AppErrors.CodeOfIndex(9) == "RISK_LIMIT_ERROR";
    AppErrors.CodeReadsBack(9);
    RecognisesCode(e, "RISK_LIMIT_ERROR");
  }

  /** The back end's `ApiError` display string `"[code] message"` is read back the same way. */
  lemma ApiErrorRoundTrip(e: Response.ApiError)
    requires AppErrors.IsCode(e.code) && NoLineTerminator(e.message)
    ensures ParseString(Response.Display(e)).code == e.code
    ensures ParseString(Response.Display(e)).message == Trim(e.message)
  {
    BracketedRoundTrip(e.code, e.message);
  }
}
