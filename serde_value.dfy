/** `serde_json::Value` as the Rust back end reads exchange replies, with the accessors and the
    text-to-number parsers the converters use. Integers are unbounded and checked against the
    `i64` range where Rust would; floats are exact reals. */
module SerdeValues {
  import opened Wrappers
  import opened Text
  import JsValues

  /** A JSON value. A number is `Int` when it was written as an integer and `Float` otherwise;
      an object maps each key to its value. */
  datatype Value =
    | Null
    | Bool(b: bool)
    | Int(i: int)
    | Float(x: real)
    | Str(s: string)
    | Array(items: seq<Value>)
    | Object(fields: map<string, Value>)

  const I64Min: int := -0x8000_0000_0000_0000
  const I64Max: int := 0x7FFF_FFFF_FFFF_FFFF

  predicate InI64(n: int) { I64Min <= n <= I64Max }

  /** `value.get(key)`: the field of an object, nothing for any other value. */
  function Get(v: Value, key: string): (r: Option<Value>)
    ensures r.Some? <==> v.Object? && key in v.fields
    ensures r.Some? ==> r.value == v.fields[key]
  {
    if v.Object? && key in v.fields then Some(v.fields[key]) else None
  }

  /** `value.get(key).unwrap_or(&Value::Null)`. */
  function GetOrNull(v: Value, key: string): (r: Value)
    ensures Get(v, key).None? ==> r == Null
    ensures Get(v, key).Some? ==> r == Get(v, key).value
  {
    match Get(v, key)
      case Some(x) => x
      case None => Null
  }

  /** `as_str`. */
  function AsStr(v: Value): (r: Option<string>)
    ensures r.Some? <==> v.Str?
  {
    if v.Str? then Some(v.s) else None
  }

  /** `as_i64`: an integer number within the `i64` range. */
  function AsI64(v: Value): (r: Option<int>)
    ensures r.Some? <==> v.Int? && InI64(v.i)
  {
    if v.Int? && InI64(v.i) then Some(v.i) else None
  }

  /** `as_f64`: any number. */
  function AsF64(v: Value): (r: Option<real>)
    ensures r.Some? <==> v.Int? || v.Float?
  {
    match v
      case Int(i) => Some(i as real)
      case Float(x) => Some(x)
      case _ => None
  }

  /** `as_array`. */
  function AsArray(v: Value): (r: Option<seq<Value>>)
    ensures r.Some? <==> v.Array?
  {
    if v.Array? then Some(v.items) else None
  }

  predicate AllDigits(s: string) { forall i :: 0 <= i < |s| ==> IsDigit(s[i]) }

  /** A leading `+` or `-`. */
  predicate Signed(s: string) { |s| > 0 && (s[0] == '+' || s[0] == '-') }

  /** `s.parse::<i64>()`: an optional sign, then at least one digit, within range. */
  function ParseI64Text(s: string): (r: Option<int>)
    ensures r.Some? ==> InI64(r.value)
    ensures r.Some? ==> AllDigits(if Signed(s) then s[1..] else s)
  {
    var body := if Signed(s) then s[1..] else s;
    if body == [] || !AllDigits(body) then None
    else
      var d: int := JsValues.DigitsValue(body);
      var n := if s[0] == '-' then -d else d;
      if InI64(n) then Some(n) else None
  }

  /** Parsing the decimal text of an `i64` gives it back. */
  lemma ParseI64OfText(n: int)
    requires InI64(n)
    ensures ParseI64Text(JsValues.NumText(n)) == Some(n)
  {
    var t := JsValues.NumText(n);
    if n < 0 {
      var d := JsValues.Digits(-n);
      assert t == "-" + d;
      assert t[1..] == d;
      JsValues.DigitsValueOf(-n);
    } else {
      var d := JsValues.Digits(n);
      assert t == d && !Signed(t);
      JsValues.DigitsValueOf(n);
    }
  }

  /** Parsing fails on empty text, on a bare sign and on anything that is not a digit. */
  lemma ParseI64Rejects()
    ensures ParseI64Text("") == None && ParseI64Text("-") == None && ParseI64Text("+") == None
    ensures ParseI64Text("1.5") == None && ParseI64Text(" 1") == None
  {
    assert !IsDigit("1.5"[1]);
    assert !IsDigit(" 1"[0]);
  }

  /** `10^k`. */
  function Pow10(k: nat): (p: nat)
    ensures p >= 1
  {
    if k == 0 then 1 else 10 * Pow10(k - 1)
  }

  /** The value of a run of digits with a fractional part `frac`. */
  function DecimalValue(whole: string, frac: string): (x: real)
    requires AllDigits(whole) && AllDigits(frac)
    ensures x >= 0.0
  {
    JsValues.DigitsValue(whole) as real + JsValues.DigitsValue(frac) as real / Pow10(|frac|) as real
  }

  /** Position of the first `.` in `s`, or `|s|`. */
  function DotAt(s: string): (k: nat)
    ensures k <= |s|
    ensures forall i :: 0 <= i < k ==> s[i] != '.'
    ensures k < |s| ==> s[k] == '.'
  {
    if s == [] || s[0] == '.' then 0 else 1 + DotAt(s[1..])
  }

  /** `s.parse::<f64>()` on plain decimal text: an optional sign, digits, an optional `.` and
      digits, with at least one digit in all. */
  function ParseF64Text(s: string): (r: Option<real>)
    ensures r.Some? ==> s != [] && (r.value < 0.0 ==> s[0] == '-')
    ensures r.Some? ==> forall i :: 0 < i < |s| ==> IsDigit(s[i]) || s[i] == '.'
  {
    var body := if Signed(s) then s[1..] else s;
    var k := DotAt(body);
    var whole := body[..k];
    var frac := if k < |body| then body[k + 1..] else "";
    if !AllDigits(whole) || !AllDigits(frac) || |whole| + |frac| == 0 then None
    else
      var x := DecimalValue(whole, frac);
      assert forall i :: 0 <= i < |body| ==> IsDigit(body[i]) || body[i] == '.' by {
        forall i | 0 <= i < |body| ensures IsDigit(body[i]) || body[i] == '.' {
          if i < k {
            assert body[i] == whole[i];
          } else if i > k {
            assert body[i] == frac[i - k - 1];
          }
        }
      }
      assert forall i :: 0 < i < |s| ==> IsDigit(s[i]) || s[i] == '.' by {
        forall i | 0 < i < |s| ensures IsDigit(s[i]) || s[i] == '.' {
          if Signed(s) {
            assert s[i] == body[i - 1];
          } else {
            assert s[i] == body[i];
          }
        }
      }
      Some(if s[0] == '-' then -x else x)
  }

  /** Whole numbers and halves parse to their value. */
  lemma ParseF64Examples()
    ensures ParseF64Text("25") == Some(25.0)
    ensures ParseF64Text("-0.5") == Some(-0.5)
    ensures ParseF64Text(".") == None && ParseF64Text("") == None
  {
    ParseWhole();
    ParseHalf();
  }

  lemma ParseWhole()
    ensures ParseF64Text("25") == Some(25.0)
  {
    assert DotAt("25") == 2 by {
      assert "25"[1..] == "5" && "5"[1..] == "";
    }
    assert "25"[..2] == "25";
    assert JsValues.DigitsValue("25") == 25 by {
      JsValues.DigitsValueOf(25);
      assert JsValues.Digits(25) == "25";
    }
  }

  lemma ParseHalf()
    ensures ParseF64Text("-0.5") == Some(-0.5)
  {
    var b := "-0.5"[1..];
    assert b == "0.5";
    assert DotAt(b) == 1 by {
      assert b[1..] == ".5";
    }
    assert b[..1] == "0" && b[2..] == "5";
    assert JsValues.DigitsValue("0") == 0 by {
      JsValues.DigitsValueOf(0);
      assert JsValues.Digits(0) == "0";
    }
    assert JsValues.DigitsValue("5") == 5 by {
      JsValues.DigitsValueOf(5);
      assert JsValues.Digits(5) == "5";
    }
  }
}
