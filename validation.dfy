/** Input validation for command parameters: the string and number validators and the checks
    of symbols, kline intervals, limits and ids. Lengths are Rust byte lengths of the UTF-8
    text. A validator's `panic!` is the error `Panic(message)`. */
module Validation {
  import opened Wrappers
  import opened Text
  import opened Response
  import JsValues

  /** The outcome of a builder step: the validator, or the panic it raises. */
  datatype Step<T> = Continue(validator: T) | Panic(message: string)

  datatype StringValidator = StringValidator(value: string, fieldName: string)

  /** `StringValidator::validate`: only an empty value fails, as a missing parameter. */
  function ValidateString(v: StringValidator): (r: Result<(), ApiError>)
    ensures r.Ok? <==> v.value != []
    ensures r.Err? ==> r.error.code == "MISSING_PARAMETER" && r.error.message == "缺少必需参数: " + v.fieldName
  {
    if v.value != [] then Ok(()) else Err(MissingParameter(v.fieldName))
  }

  /** `min_length(min)`. */
  function MinLength(v: StringValidator, min: nat): (r: Step<StringValidator>)
    ensures r.Continue? <==> Utf8Length(v.value) >= min
    ensures r.Continue? ==> r.validator == v
  {
    if Utf8Length(v.value) < min then Panic("Validation failed: " + v.fieldName + " length < " + JsValues.NumText(min))
    else Continue(v)
  }

  /** `max_length(max)`. */
  function MaxLength(v: StringValidator, max: nat): (r: Step<StringValidator>)
    ensures r.Continue? <==> Utf8Length(v.value) <= max
    ensures r.Continue? ==> r.validator == v
  {
    if Utf8Length(v.value) > max then Panic("Validation failed: " + v.fieldName + " length > " + JsValues.NumText(max))
    else Continue(v)
  }

  /** `length(min, max)`: the minimum is checked first. */
  function Length(v: StringValidator, min: nat, max: nat): (r: Step<StringValidator>)
    ensures r.Continue? <==> min <= Utf8Length(v.value) <= max
    ensures Utf8Length(v.value) < min ==> r == MinLength(v, min)
  {
    match MinLength(v, min)
      case Continue(w) => MaxLength(w, max)
      case Panic(m) => Panic(m)
  }

  /** `one_of(options)`. */
  function OneOf(v: StringValidator, options: seq<string>): (r: Step<StringValidator>)
    ensures r.Continue? <==> v.value in options
  {
    if v.value !in options then Panic("Validation failed: " + v.fieldName + " not in options")
    else Continue(v)
  }

  /** The characters `[A-Z0-9_]`. */
  predicate IsSymbolChar(c: char) { IsUpperAscii(c) || IsDigit(c) || c == '_' }

  /** `^[A-Z]+[A-Z0-9_]+$` as the regular expression reads: a non-empty run of capitals, then a
      non-empty run of symbol characters. */
  ghost predicate SymbolRegex(s: string) {
    exists k :: 1 <= k < |s| && CapitalsBefore(s, k) && SymbolCharsFrom(s, k)
  }

  predicate CapitalsBefore(s: string, k: nat)
    requires k <= |s|
  {
    forall i :: 0 <= i < k ==> IsUpperAscii(s[i])
  }

  predicate SymbolCharsFrom(s: string, k: nat)
    requires k <= |s|
  {
    forall i :: k <= i < |s| ==> IsSymbolChar(s[i])
  }

  /** The same pattern, decided character by character. */
  predicate SymbolShape(s: string) {
    |s| >= 2 && IsUpperAscii(s[0]) && forall i :: 1 <= i < |s| ==> IsSymbolChar(s[i])
  }

  /** The character test decides the regular expression. */
  lemma SymbolShapeIsRegex(s: string)
    ensures SymbolShape(s) <==> SymbolRegex(s)
  {
    if SymbolShape(s) {
      assert CapitalsBefore(s, 1) && SymbolCharsFrom(s, 1);
    }
    if SymbolRegex(s) {
      var k :| 1 <= k < |s| && CapitalsBefore(s, k) && SymbolCharsFrom(s, k);
      assert IsUpperAscii(s[0]);
      forall i | 1 <= i < |s| ensures IsSymbolChar(s[i]) {
        if i < k {
          assert IsUpperAscii(s[i]);
        }
      }
    }
  }

  /** `symbol()`: the symbol pattern. */
  function SymbolStep(v: StringValidator): (r: Step<StringValidator>)
    ensures r.Continue? <==> SymbolShape(v.value)
  {
    if !SymbolShape(v.value) then
      Panic("Validation failed: " + v.fieldName + " does not match pattern ^[A-Z]+[A-Z0-9_]+$")
    else Continue(v)
  }

  /** `^[a-zA-Z0-9_]{3,20}$`: three to twenty characters (not bytes). */
  predicate UsernameShape(s: string) {
    3 <= |s| <= 20 && forall i :: 0 <= i < |s| ==> IsUpperAscii(s[i]) || IsLowerAscii(s[i]) || IsDigit(s[i]) || s[i] == '_'
  }

  /** `username()`. */
  function UsernameStep(v: StringValidator): (r: Step<StringValidator>)
    ensures r.Continue? <==> UsernameShape(v.value)
  {
    if !UsernameShape(v.value) then
      Panic("Validation failed: " + v.fieldName + " does not match pattern ^[a-zA-Z0-9_]{3,20}$")
    else Continue(v)
  }

  /** `NumberValidator` over integers; its `validate` always succeeds. */
  datatype NumberValidator = NumberValidator(value: int, fieldName: string)

  function ValidateNumber(v: NumberValidator): (r: Result<(), ApiError>)
    ensures r.Ok?
  {
    Ok(())
  }

  /** `min(min)`, `max(max)`, `range(min, max)` and `positive()`. */
  function NumberMin(v: NumberValidator, min: int): (r: Step<NumberValidator>)
    ensures r.Continue? <==> v.value >= min
  {
    if v.value < min then Panic("Validation failed: " + v.fieldName + " < " + JsValues.NumText(min))
    else Continue(v)
  }

  function NumberMax(v: NumberValidator, max: int): (r: Step<NumberValidator>)
    ensures r.Continue? <==> v.value <= max
  {
    if v.value > max then Panic("Validation failed: " + v.fieldName + " > " + JsValues.NumText(max))
    else Continue(v)
  }

  function NumberRange(v: NumberValidator, min: int, max: int): (r: Step<NumberValidator>)
    ensures r.Continue? <==> min <= v.value <= max
  {
    match NumberMin(v, min)
      case Continue(w) => NumberMax(w, max)
      case Panic(m) => Panic(m)
  }

  function Positive(v: NumberValidator): (r: Step<NumberValidator>)
    ensures r.Continue? <==> v.value > 0
  {
    if v.value <= 0 then Panic("Validation failed: " + v.fieldName + " is not positive") else Continue(v)
  }

  /** `validate_symbol`: byte length 3 to 20, then the symbol pattern. */
  function ValidateSymbol(symbol: string): (r: Result<(), ApiError>)
    ensures Utf8Length(symbol) < 3 ==> r == Err(ValidationFailed("symbol", "长度不能小于3"))
    ensures Utf8Length(symbol) > 20 ==> r == Err(ValidationFailed("symbol", "长度不能大于20"))
  {
    if Utf8Length(symbol) < 3 then Err(ValidationFailed("symbol", "长度不能小于3"))
    else if Utf8Length(symbol) > 20 then Err(ValidationFailed("symbol", "长度不能大于20"))
    else if !SymbolShape(symbol) then Err(ValidationFailed("symbol", "格式不正确，必须为大写字母、数字或下划线"))
    else Ok(())
  }

  /** A symbol is accepted exactly when it has 3 to 20 characters, a capital first and
      capitals, digits or underscores after it. */
  lemma SymbolAccepted(symbol: string)
    ensures ValidateSymbol(symbol).Ok? <==>
      3 <= |symbol| <= 20 && IsUpperAscii(symbol[0]) && forall i :: 1 <= i < |symbol| ==> IsSymbolChar(symbol[i])
  {
    if SymbolShape(symbol) {
      AsciiLength(symbol);
    }
    if 3 <= |symbol| <= 20 && IsUpperAscii(symbol[0]) && forall i :: 1 <= i < |symbol| ==> IsSymbolChar(symbol[i]) {
      assert SymbolShape(symbol);
      AsciiLength(symbol);
    }
  }

  /** Three capitals are a valid symbol: `BTC` passes. */
  lemma ThreeLetterSymbol()
    ensures ValidateSymbol("BTC") == Ok(())
    ensures ValidateSymbol("ETH-USDT").Err?
  {
    AsciiLength("BTC");
    AsciiLength("ETH-USDT");
    assert !IsSymbolChar("ETH-USDT"[3]);
  }

  /** `VALID_INTERVALS`. */
  function ValidIntervals(): seq<string> {
    ["1m", "3m", "5m", "15m", "30m", "1h", "2h", "4h", "6h", "8h", "12h", "1d", "3d", "1w", "1M"]
  }

  /** `validate_interval`. */
  function ValidateInterval(interval: string): (r: Result<(), ApiError>)
    ensures r.Ok? <==> interval in ValidIntervals()
    ensures r.Err? ==> r == Err(ValidationFailed("interval", "必须是以下之一: " + Join(ValidIntervals(), ", ")))
  {
    if interval !in ValidIntervals() then
      Err(ValidationFailed("interval", "必须是以下之一: " + Join(ValidIntervals(), ", ")))
    else Ok(())
  }

  /** `2h` is among the accepted intervals and `1H` is not. */
  lemma TwoHourInterval()
    ensures ValidateInterval("2h").Ok? && ValidateInterval("1h").Ok?
    ensures ValidateInterval("1H").Err?
  {
    assert "2h" == ValidIntervals()[6] && "1h" == ValidIntervals()[5];
  }

  /** `validate_limit`: the limit back, unchanged, when it lies in 1..1000. */
  function ValidateLimit(limit: nat): (r: Result<nat, ApiError>)
    ensures r.Ok? <==> 1 <= limit <= 1000
    ensures r.Ok? ==> r.value == limit
    ensures limit < 1 ==> r == Err(ValidationFailed("limit", "不能小于1"))
    ensures limit > 1000 ==> r == Err(ValidationFailed("limit", "不能大于1000"))
  {
    if limit < 1 then Err(ValidationFailed("limit", "不能小于1"))
    else if limit > 1000 then Err(ValidationFailed("limit", "不能大于1000"))
    else Ok(limit)
  }

  /** `validate_id(id, field_name)`: non-empty and at most 100 bytes. */
  function ValidateId(id: string, fieldName: string): (r: Result<(), ApiError>)
    ensures r.Ok? <==> id != [] && Utf8Length(id) <= 100
    ensures id == [] ==> r == Err(ValidationFailed(fieldName, "不能为空"))
  {
    if id == [] then Err(ValidationFailed(fieldName, "不能为空"))
    else if Utf8Length(id) > 100 then Err(ValidationFailed(fieldName, "长度不能大于100"))
    else Ok(())
  }

  /** The byte bound is stricter than a character bound: 34 three-byte characters are refused
      while 100 ASCII characters pass. */
  lemma IdBytesNotCharacters(id: string)
    requires |id| == 34 && forall i :: 0 <= i < |id| ==> id[i] == '中'
    ensures ValidateId(id, "id").Err?
  {
    WideLength(id);
  }

  lemma {:induction false} WideLength(s: string)
    requires forall i :: 0 <= i < |s| ==> s[i] == '中'
    ensures Utf8Length(s) == 3 * |s|
  {
    if s != [] {
      WideLength(s[1..]);
    }
  }
}
