/** The back end's unified error type (`AppError`), its machine codes, its user-facing
    messages and the `"[CODE] message"` string that Tauri commands hand to the front end. */
module AppErrors {
  import opened Text
  import opened Wrappers

  /** One constructor per variant. `Database`, `Io` and `Serialization` wrap a foreign error,
      represented here by its description `cause`; the others carry a message. */
  datatype AppError =
    | Database(cause: string)
    | Exchange(msg: string)
    | Strategy(msg: string)
    | Auth(msg: string)
    | Permission(msg: string)
    | Validation(msg: string)
    | Io(cause: string)
    | Serialization(cause: string)
    | Network(msg: string)
    | RiskLimit(msg: string)
    | Generic(msg: string)

  /** Characters allowed in a bracketed error code: `[A-Z_]`. */
  predicate IsCodeChar(c: char) { IsUpperAscii(c) || c == '_' }

  predicate IsCode(s: string) {
    |s| > 0 && forall i :: 0 <= i < |s| ==> IsCodeChar(s[i])
  }

  /** Position of the variant in the declaration, used to say that codes tell variants apart. */
  function VariantIndex(e: AppError): nat {
    match e
    case Database(_) => 0
    case Exchange(_) => 1
    case Strategy(_) => 2
    case Auth(_) => 3
    case Permission(_) => 4
    case Validation(_) => 5
    case Io(_) => 6
    case Serialization(_) => 7
    case Network(_) => 8
    case RiskLimit(_) => 9
    case Generic(_) => 10
  }

  /** The part of the code before `_ERROR` for the variant at position `k`: its name in upper
      snake case. */
  function StemOfIndex(k: nat): string {
    match k
    case 0 => "DATABASE"
    case 1 => "EXCHANGE"
    case 2 => "STRATEGY"
    case 3 => "AUTH"
    case 4 => "PERMISSION"
    case 5 => "VALIDATION"
    case 6 => "IO"
    case 7 => "SERIALIZATION"
    case 8 => "NETWORK"
    case 9 => "RISK_LIMIT"
    case _ => "GENERIC"
  }

  lemma {:induction false} StemShape(k: nat)
    ensures IsCode(StemOfIndex(k))
  {
    match k
    case 0 =>
    case 1 =>
    case 2 =>
    case 3 =>
    case 4 =>
    case 5 =>
    case 6 =>
    case 7 =>
    case 8 =>
    case 9 =>
    case _ =>
  }

  /** `AppError::code` (`DATABASE_ERROR`, `EXCHANGE_ERROR`, ...): the variant's name followed by
      `_ERROR`, so every code is made of `[A-Z_]` and ends in `_ERROR`. */
  function Code(e: AppError): (c: string)
    ensures IsCode(c) && EndsWith(c, "_ERROR")
  {
    StemShape(VariantIndex(e));
    assert IsCode("_ERROR");
    CodeOfIndex(VariantIndex(e))
  }

  /** The code of the variant at position `k`. */
  function CodeOfIndex(k: nat): string {
    StemOfIndex(k) + "_ERROR"
  }

  /** Reads a variant name back to its position; `None` for a string that names no variant. */
  function VariantOfStem(s: string): (r: Option<nat>)
    ensures r.Some? ==> r.value <= 10 && s == StemOfIndex(r.value)
  {
    if s == "DATABASE" then Some(0)
    else if s == "EXCHANGE" then Some(1)
    else if s == "STRATEGY" then Some(2)
    else if s == "AUTH" then Some(3)
    else if s == "PERMISSION" then Some(4)
    else if s == "VALIDATION" then Some(5)
    else if s == "IO" then Some(6)
    else if s == "SERIALIZATION" then Some(7)
    else if s == "NETWORK" then Some(8)
    else if s == "RISK_LIMIT" then Some(9)
    else if s == "GENERIC" then Some(10)
    else None
  }

  /** Reads a code back to the variant it names; `None` for a string that is no code. */
  function VariantOfCode(c: string): (r: Option<nat>)
    ensures r.Some? ==> r.value <= 10 && c == CodeOfIndex(r.value)
  {
    if EndsWith(c, "_ERROR") then
      var r := VariantOfStem(c[..|c| - 6]);
      if r.Some? then assert c == c[..|c| - 6] + "_ERROR"; r else None
    else None
  }

  /** Each variant name reads back to its position. */
  lemma StemReadsBack(k: nat)
    requires k <= 10
    ensures VariantOfStem(StemOfIndex(k)) == Some(k)
  {
  }

  /** Reading the code at position `k` back gives `k`. */
  lemma CodeReadsBack(k: nat)
    requires k <= 10
    ensures VariantOfCode(CodeOfIndex(k)) == Some(k)
  {
    var c := CodeOfIndex(k);
    assert c[..|c| - 6] == StemOfIndex(k);
    StemReadsBack(k);
  }

  /** The code names its variant: reading it back gives the variant's position. */
  lemma CodeNamesVariant(e: AppError)
    ensures VariantOfCode(Code(e)) == Some(VariantIndex(e))
  {
    CodeReadsBack(VariantIndex(e));
  }

  /** The eleven variants have eleven distinct codes. */
  lemma {:induction false} CodeIdentifiesVariant(a: AppError, b: AppError)
    ensures Code(a) == Code(b) <==> VariantIndex(a) == VariantIndex(b)
  {
    CodeNamesVariant(a);
    CodeNamesVariant(b);
  }

  /** A string that is some variant's code is the code of exactly the errors of that variant. */
  lemma {:induction false} CodeOfVariant(e: AppError, c: string)
    requires VariantOfCode(c).Some?
    ensures Code(e) == c <==> VariantOfCode(c) == Some(VariantIndex(e))
  {
    CodeNamesVariant(e);
    assert Code(e) == CodeOfIndex(VariantIndex(e));
  }

  /** `AppError::user_message`: the wrapped foreign errors get a fixed text, the others a
      fixed Chinese prefix followed by their message (`Generic` shows the message alone). */
  function UserMessage(e: AppError): (m: string)
    ensures e.Generic? ==> m == e.msg
    ensures !e.Database? && !e.Io? && !e.Serialization? ==> EndsWith(m, e.msg)
  {
    match e
    case Database(_) => "数据库操作失败，请稍后重试"
    case Exchange(m) => "交易所错误: " + m
    case Strategy(m) => "策略执行错误: " + m
    case Auth(m) => "认证失败: " + m
    case Permission(m) => "权限不足: " + m
    case Validation(m) => "输入验证失败: " + m
    case Io(_) => "文件操作失败"
    case Serialization(_) => "数据序列化失败"
    case Network(m) => "网络错误: " + m
    case RiskLimit(m) => "风险限制: " + m
    case Generic(m) => m
  }

  /** The wrapped foreign error never reaches the user: two causes give the same text. */
  lemma UserMessageHidesCause(x: string, y: string)
    ensures UserMessage(Database(x)) == UserMessage(Database(y))
    ensures UserMessage(Io(x)) == UserMessage(Io(y))
    ensures UserMessage(Serialization(x)) == UserMessage(Serialization(y))
  {
  }

  /** `From<AppError> for String`: `"[" + code + "] " + user message`. */
  function ToCommandString(e: AppError): (s: string)
    ensures StartsWith(s, "[" + Code(e) + "] ")
    ensures s[|Code(e)| + 3..] == UserMessage(e)
  {
    "[" + Code(e) + "] " + UserMessage(e)
  }

  /** `From<anyhow::Error> for AppError`: the error's text becomes a `Generic` error, so the
      command string shows that text unchanged after the code. */
  function FromAnyhow(text: string): (e: AppError)
    ensures Code(e) == "GENERIC_ERROR" && UserMessage(e) == text
  {
    Generic(text)
  }
}
