/** JavaScript values as they cross the Tauri bridge (JSON), with the conversions the front end
    applies to them: truthiness, `String(value)` and `JSON.stringify`. */
module JsValues {
  import opened Wrappers
  import opened Text

  /** A JSON value. Numbers are integers; object fields keep their insertion order. */
  datatype Json =
    | JNull
    | JBool(b: bool)
    | JNum(n: int)
    | JStr(s: string)
    | JArr(items: seq<Json>)
    | JObj(fields: seq<(string, Json)>)

  /** Property access `obj[key]` on a JSON value: `None` stands for `undefined`. */
  function Field(v: Json, key: string): (r: Option<Json>)
    ensures r.Some? ==> v.JObj? && exists i :: 0 <= i < |v.fields| && v.fields[i] == (key, r.value)
    ensures r.None? ==> !v.JObj? || forall i :: 0 <= i < |v.fields| ==> v.fields[i].0 != key
  {
    if v.JObj? then FieldIn(v.fields, key) else None
  }

  function FieldIn(fields: seq<(string, Json)>, key: string): (r: Option<Json>)
    ensures r.Some? ==> exists i :: 0 <= i < |fields| && fields[i] == (key, r.value)
    ensures r.None? ==> forall i :: 0 <= i < |fields| ==> fields[i].0 != key
  {
    if fields == [] then None
    else if fields[0].0 == key then Some(fields[0].1)
    else
      var r := FieldIn(fields[1..], key);
      assert r.Some? ==> fields[1..][0..] == fields[1..];
      r
  }

  /** The `in` operator: `key in obj`. */
  predicate HasKey(v: Json, key: string) { Field(v, key).Some? }

  /** The names every plain JavaScript object inherits from `Object.prototype`; looking one of
      them up on a record finds a function (or, for `__proto__`, the prototype itself). */
  const PrototypeNames: set<string> :=
    {"constructor", "__proto__", "hasOwnProperty", "isPrototypeOf", "propertyIsEnumerable",
     "toString", "toLocaleString", "valueOf", "__defineGetter__", "__defineSetter__",
     "__lookupGetter__", "__lookupSetter__"}

  /** JavaScript truthiness of a possibly-undefined value. */
  predicate Truthy(v: Option<Json>) {
    match v
    case None => false
    case Some(JNull) => false
    case Some(JBool(b)) => b
    case Some(JNum(n)) => n != 0
    case Some(JStr(s)) => s != ""
    case Some(_) => true
  }

  function DigitChar(d: nat): char
    requires d < 10
  {
    ('0' as int + d) as char
  }

  function Digits(n: nat): (r: string)
    ensures |r| > 0 && forall i :: 0 <= i < |r| ==> IsDigit(r[i])
  {
    if n < 10 then [DigitChar(n)] else Digits(n / 10) + [DigitChar(n % 10)]
  }

  /** The decimal text of an integer, as `String(n)` prints it. */
  function NumText(n: int): string {
    if n < 0 then "-" + Digits(-n) else Digits(n)
  }

  /** `String(value)`. */
  function ToText(v: Option<Json>): string {
    match v
    case None => "undefined"
    case Some(j) => JsonText(j)
  }

  function JsonText(j: Json): string {
    match j
    case JNull => "null"
    case JBool(b) => if b then "true" else "false"
    case JNum(n) => NumText(n)
    case JStr(s) => s
    // Array.prototype.toString joins the elements, showing null as the empty string.
    case JArr(items) => Join(seq(|items|, i requires 0 <= i < |items| =>
                              if items[i].JNull? then "" else JsonText(items[i])), ",")
    case JObj(_) => "[object Object]"
  }

  function HexDigit(d: nat): char
    requires d < 16
  {
    if d < 10 then DigitChar(d) else ('a' as int + d - 10) as char
  }

  /** How `JSON.stringify` writes one character inside a string literal. */
  function EscapeChar(c: char): (r: string)
    ensures |r| >= 1
    ensures r == [c] <==> (c != '"' && c != '\\' && c >= ' ')
  {
    if c == '"' then "\\\""
    else if c == '\\' then "\\\\"
    else if c == '\U{8}' then "\\b"
    else if c == '\t' then "\\t"
    else if c == '\n' then "\\n"
    else if c == '\U{C}' then "\\f"
    else if c == '\r' then "\\r"
    else if c < ' ' then "\\u00" + [HexDigit(c as int / 16), HexDigit(c as int % 16)]
    else [c]
  }

  function EscapeString(s: string): string {
    if s == [] then "" else EscapeChar(s[0]) + EscapeString(s[1..])
  }

  function Quote(s: string): string { "\"" + EscapeString(s) + "\"" }

  /** `JSON.stringify(value)`: fields in insertion order, no white space. */
  function Stringify(j: Json): string
    decreases j
  {
    match j
    case JNull => "null"
    case JBool(b) => if b then "true" else "false"
    case JNum(n) => NumText(n)
    case JStr(s) => Quote(s)
    case JArr(items) => "[" + ItemsText(items) + "]"
    case JObj(fields) => "{" + FieldsText(fields) + "}"
  }

  /** The array elements, separated by commas. */
  function ItemsText(items: seq<Json>): string
    decreases items
  {
    if items == [] then ""
    else if |items| == 1 then Stringify(items[0])
    else Stringify(items[0]) + "," + ItemsText(items[1..])
  }

  /** One object member, `"key":value`. */
  function MemberText(m: (string, Json)): string
    decreases m
  {
    Quote(m.0) + ":" + Stringify(m.1)
  }

  /** The object members, separated by commas. */
  function FieldsText(fields: seq<(string, Json)>): string
    decreases fields
  {
    if fields == [] then ""
    else if |fields| == 1 then MemberText(fields[0])
    else MemberText(fields[0]) + "," + FieldsText(fields[1..])
  }

  // A reader for the text `Stringify` writes; it shows that no two values share a text.

  function DigitValue(c: char): nat
    requires IsDigit(c)
  {
    c as int - '0' as int
  }

  /** The number of leading decimal digits. */
  function DigitRun(s: string): (n: nat)
    ensures n <= |s|
    ensures forall i :: 0 <= i < n ==> IsDigit(s[i])
    ensures n < |s| ==> !IsDigit(s[n])
  {
    if s != [] && IsDigit(s[0]) then 1 + DigitRun(s[1..]) else 0
  }

  function DigitsValue(s: string): nat
    requires forall i :: 0 <= i < |s| ==> IsDigit(s[i])
  {
    if s == [] then 0 else DigitsValue(s[..|s| - 1]) * 10 + DigitValue(s[|s| - 1])
  }

  function HexValue(c: char): Option<nat> {
    if IsDigit(c) then Some(DigitValue(c))
    else if 'a' <= c <= 'f' then Some(c as int - 'a' as int + 10)
    else None
  }

  /** The character a two-character escape `\x` stands for. */
  function Unescape(x: char): Option<char> {
    match x
    case '"' => Some('"')
    case '\\' => Some('\\')
    case 'b' => Some('\U{8}')
    case 't' => Some('\t')
    case 'n' => Some('\n')
    case 'f' => Some('\U{C}')
    case 'r' => Some('\r')
    case _ => None
  }

  /** A run of decimal digits and its value. */
  function ParseNatural(s: string): (r: Option<(nat, string)>)
    ensures r.Some? ==> |r.value.1| < |s|
  {
    var n := DigitRun(s);
    if n == 0 then None else Some((DigitsValue(s[..n]), s[n..]))
  }

  /** The body of a string literal up to its closing quote: the characters and what follows. */
  function ParseChars(s: string): (r: Option<(string, string)>)
    ensures r.Some? ==> |r.value.1| < |s|
  {
    if s == [] then None
    else if s[0] == '"' then Some(("", s[1..]))
    else if s[0] == '\\' then
      if |s| < 2 then None
      else
        var c := Unescape(s[1]);
        if c.Some? then
          match ParseChars(s[2..])
          case Some((body, rest)) => Some(([c.value] + body, rest))
          case None => None
        else if |s| >= 6 && s[1..4] == "u00" && HexValue(s[4]).Some? && HexValue(s[5]).Some? &&
                HexValue(s[4]).value < 2 then
          match ParseChars(s[6..])
          case Some((body, rest)) =>
            Some(([(HexValue(s[4]).value * 16 + HexValue(s[5]).value) as char] + body, rest))
          case None => None
        else None
    else
      match ParseChars(s[1..])
      case Some((body, rest)) => Some(([s[0]] + body, rest))
      case None => None
  }

  /** `null`, a boolean, a string or a number at the start of `s`. */
  function ParseScalar(s: string): (r: Option<(Json, string)>)
    requires s != []
    ensures r.Some? ==> |r.value.1| < |s|
  {
    match s[0]
    case 'n' => if StartsWith(s, "null") then Some((JNull, s[4..])) else None
    case 't' => if StartsWith(s, "true") then Some((JBool(true), s[4..])) else None
    case 'f' => if StartsWith(s, "false") then Some((JBool(false), s[5..])) else None
    case '"' =>
      (match ParseChars(s[1..])
       case Some((body, rest)) => Some((JStr(body), rest))
       case None => None)
    case '-' =>
      (match ParseNatural(s[1..])
       case Some((n, rest)) => Some((JNum(-(n as int)), rest))
       case None => None)
    case _ =>
      (match ParseNatural(s)
       case Some((n, rest)) => Some((JNum(n), rest))
       case None => None)
  }

  /** One value at the start of `s`, and the text after it. */
  function ParseValue(s: string): (r: Option<(Json, string)>)
    ensures r.Some? ==> |r.value.1| < |s|
    decreases |s|, 1
  {
    if s == [] then None
    else if s[0] == '[' then ParseArray(s)
    else if s[0] == '{' then ParseObject(s)
    else ParseScalar(s)
  }

  function ParseArray(s: string): (r: Option<(Json, string)>)
    requires s != []
    ensures r.Some? ==> |r.value.1| < |s|
    decreases |s|, 0
  {
    if |s| >= 2 && s[1] == ']' then Some((JArr([]), s[2..]))
    else
      match ParseItems(s[1..])
      case Some((items, rest)) => Some((JArr(items), rest))
      case None => None
  }

  function ParseObject(s: string): (r: Option<(Json, string)>)
    requires s != []
    ensures r.Some? ==> |r.value.1| < |s|
    decreases |s|, 0
  {
    if |s| >= 2 && s[1] == '}' then Some((JObj([]), s[2..]))
    else
      match ParseFields(s[1..])
      case Some((fields, rest)) => Some((JObj(fields), rest))
      case None => None
  }

  /** Array elements up to and including the closing bracket. */
  function ParseItems(s: string): (r: Option<(seq<Json>, string)>)
    ensures r.Some? ==> |r.value.1| < |s|
    decreases |s|, 2
  {
    match ParseValue(s)
    case None => None
    case Some((v, rest)) =>
      if rest == [] then None
      else if rest[0] == ']' then Some(([v], rest[1..]))
      else if rest[0] == ',' then
        match ParseItems(rest[1..])
        case Some((more, after)) => Some(([v] + more, after))
        case None => None
      else None
  }

  /** One `"key":value` member. */
  function ParseMember(s: string): (r: Option<((string, Json), string)>)
    ensures r.Some? ==> |r.value.1| < |s|
    decreases |s|, 2
  {
    if s == [] || s[0] != '"' then None
    else
      match ParseChars(s[1..])
      case None => None
      case Some((key, afterKey)) =>
        if afterKey == [] || afterKey[0] != ':' then None
        else
          match ParseValue(afterKey[1..])
          case None => None
          case Some((v, rest)) => Some(((key, v), rest))
  }

  /** Object members up to and including the closing brace. */
  function ParseFields(s: string): (r: Option<(seq<(string, Json)>, string)>)
    ensures r.Some? ==> |r.value.1| < |s|
    decreases |s|, 3
  {
    match ParseMember(s)
    case None => None
    case Some((m, rest)) =>
      if rest == [] then None
      else if rest[0] == '}' then Some(([m], rest[1..]))
      else if rest[0] == ',' then
        match ParseFields(rest[1..])
        case Some((more, after)) => Some(([m] + more, after))
        case None => None
      else None
  }

  /** What may follow a value inside `Stringify`'s text. */
  predicate Delimited(rest: string) {
    rest == [] || rest[0] == ',' || rest[0] == ']' || rest[0] == '}'
  }

  lemma {:induction false} DigitsValueOf(n: nat)
    ensures DigitsValue(Digits(n)) == n
  {
    if n >= 10 {
      DigitsValueOf(n / 10);
      var d := Digits(n);
      assert d[..|d| - 1] == Digits(n / 10);
    }
  }

  lemma {:induction false} DigitRunPrefix(d: string, rest: string)
    requires forall i :: 0 <= i < |d| ==> IsDigit(d[i])
    requires rest == [] || !IsDigit(rest[0])
    ensures DigitRun(d + rest) == |d|
  {
    if d == [] {
      assert d + rest == rest;
    } else {
      assert (d + rest)[1..] == d[1..] + rest;
      DigitRunPrefix(d[1..], rest);
    }
  }

  lemma {:induction false} EscapeRoundTrip(s: string, rest: string)
    ensures ParseChars(EscapeString(s) + "\"" + rest) == Some((s, rest))
  {
    if s == [] {
      ClosingQuote(rest);
      assert EscapeString(s) + "\"" + rest == "\"" + rest;
    } else {
      var t := EscapeString(s[1..]) + "\"" + rest;
      EscapeRoundTrip(s[1..], rest);
      EscapeFirst(s, rest);
      EscapeCharRoundTrip(s[0], t);
      assert [s[0]] + s[1..] == s;
    }
  }

  /** A closing quote ends the string with nothing read. */
  lemma ClosingQuote(rest: string)
    ensures ParseChars("\"" + rest) == Some(([], rest))
  {
    assert ("\"" + rest)[1..] == rest;
  }

  /** The escaped text starts with the first character's escape. */
  lemma EscapeFirst(s: string, rest: string)
    requires s != []
    ensures EscapeString(s) + "\"" + rest == EscapeChar(s[0]) + (EscapeString(s[1..]) + "\"" + rest)
  {
  }

  lemma EscapeCharRoundTrip(c: char, t: string)
    requires ParseChars(t).Some?
    ensures ParseChars(EscapeChar(c) + t) == Some(([c] + ParseChars(t).value.0, ParseChars(t).value.1))
  {
    var s := EscapeChar(c) + t;
    if c == '"' || c == '\\' || c == '\U{8}' || c == '\t' || c == '\n' || c == '\U{C}' || c == '\r' {
      NamedEscape(c, t);
    } else if c < ' ' {
      ControlEscape(c, t);
    } else {
      assert EscapeChar(c) == [c];
      assert s[1..] == t;
    }
  }

  lemma NamedEscape(c: char, t: string)
    requires c == '"' || c == '\\' || c == '\U{8}' || c == '\t' || c == '\n' || c == '\U{C}' || c == '\r'
    requires ParseChars(t).Some?
    ensures ParseChars(EscapeChar(c) + t) == Some(([c] + ParseChars(t).value.0, ParseChars(t).value.1))
  {
    var s := EscapeChar(c) + t;
    assert |EscapeChar(c)| == 2 && EscapeChar(c)[0] == '\\';
    assert Unescape(EscapeChar(c)[1]) == Some(c);
    assert s[0] == '\\' && s[1] == EscapeChar(c)[1];
    assert s[2..] == t;
  }

  lemma ControlEscape(c: char, t: string)
    requires c < ' ' && c != '\U{8}' && c != '\t' && c != '\n' && c != '\U{C}' && c != '\r'
    requires ParseChars(t).Some?
    ensures ParseChars(EscapeChar(c) + t) == Some(([c] + ParseChars(t).value.0, ParseChars(t).value.1))
  {
    var hi, lo := c as int / 16, c as int % 16;
    var s := EscapeChar(c) + t;
    assert EscapeChar(c) == "\\u00" + [HexDigit(hi), HexDigit(lo)];
    assert Unescape(s[1]) == None;
    assert s[1..4] == "u00" && s[6..] == t;
    assert HexValue(s[4]) == Some(hi);
    assert HexValue(s[5]) == Some(lo);
    assert (hi * 16 + lo) as char == c;
  }

  lemma NaturalRoundTrip(n: nat, rest: string)
    requires rest == [] || !IsDigit(rest[0])
    ensures ParseNatural(Digits(n) + rest) == Some((n, rest))
  {
    var d := Digits(n);
    DigitsValueOf(n);
    DigitRunPrefix(d, rest);
    assert (d + rest)[..|d|] == d;
    assert (d + rest)[|d|..] == rest;
  }

  /** Reading back what `Stringify` wrote gives the value and leaves the rest of the text. */
  lemma {:induction false} ParseStringify(j: Json, rest: string)
    requires Delimited(rest)
    ensures ParseValue(Stringify(j) + rest) == Some((j, rest))
    decreases j
  {
    match j
    case JArr(items) => ParseArrayText(items, rest);
    case JObj(fields) => ParseObjectText(fields, rest);
    case _ => ParseScalarText(j, rest);
  }

  lemma ParseScalarText(j: Json, rest: string)
    requires !j.JArr? && !j.JObj? && Delimited(rest)
    ensures ParseValue(Stringify(j) + rest) == Some((j, rest))
  {
    var s := Stringify(j) + rest;
    match j
    case JNull => assert s[..4] == "null";
    case JBool(b) =>
      if b { assert s[..4] == "true"; } else { assert s[..5] == "false"; }
    case JNum(n) => ParseNumText(n, rest);
    case JStr(str) => ParseStrText(str, rest);
  }

  lemma ParseNumText(n: int, rest: string)
    requires Delimited(rest)
    ensures ParseValue(Stringify(JNum(n)) + rest) == Some((JNum(n), rest))
  {
    if n < 0 {
      NegativeText(-n, rest);
      NegativeNumText(n, rest);
    } else {
      NaturalText(n, rest);
    }
  }

  /** A negative number is written as a minus sign before the digits of its magnitude. */
  lemma NegativeNumText(n: int, rest: string)
    requires n < 0
    ensures Stringify(JNum(n)) + rest == "-" + (Digits(-n) + rest)
  {
  }

  /** A minus sign and the digits of `m` read back as `-m`. */
  lemma NegativeText(m: nat, rest: string)
    requires rest == [] || !IsDigit(rest[0])
    ensures ParseValue("-" + (Digits(m) + rest)) == Some((JNum(-(m as int)), rest))
  {
    NaturalRoundTrip(m, rest);
    NegativeStep(Digits(m) + rest, m, rest);
  }

  /** The digits of `n` read back as `n`. */
  lemma NaturalText(n: nat, rest: string)
    requires rest == [] || !IsDigit(rest[0])
    ensures ParseValue(Digits(n) + rest) == Some((JNum(n), rest))
  {
    NaturalRoundTrip(n, rest);
    NaturalStep(Digits(n) + rest);
  }

  lemma NegativeStep(t: string, m: nat, rest: string)
    requires ParseNatural(t) == Some((m, rest))
    ensures ParseValue("-" + t) == Some((JNum(-(m as int)), rest))
  {
    assert ("-" + t)[0] == '-' && ("-" + t)[1..] == t;
  }

  lemma NaturalStep(s: string)
    requires ParseNatural(s).Some?
    ensures ParseValue(s) == Some((JNum(ParseNatural(s).value.0), ParseNatural(s).value.1))
  {
    assert IsDigit(s[0]);
  }

  lemma ParseStrText(str: string, rest: string)
    ensures ParseValue(Stringify(JStr(str)) + rest) == Some((JStr(str), rest))
  {
    var t := EscapeString(str) + "\"" + rest;
    EscapeRoundTrip(str, rest);
    StringStep("\"" + t);
    Enclosed(JStr(str), rest);
  }

  /** A string, array or object is written as its opening delimiter and its body; what follows
      the opening delimiter is the body, the closing delimiter and the rest of the text. */
  lemma Enclosed(j: Json, rest: string)
    ensures j.JStr? ==> Stringify(j) + rest == "\"" + (EscapeString(j.s) + "\"" + rest)
    ensures j.JArr? ==> Stringify(j) + rest == "[" + (ItemsText(j.items) + "]" + rest)
    ensures j.JObj? ==> Stringify(j) + rest == "{" + (FieldsText(j.fields) + "}" + rest)
  {
  }

  lemma StringStep(s: string)
    requires s != [] && s[0] == '"' && ParseChars(s[1..]).Some?
    ensures ParseValue(s) == Some((JStr(ParseChars(s[1..]).value.0), ParseChars(s[1..]).value.1))
  {
  }

  lemma {:induction false} ParseArrayText(items: seq<Json>, rest: string)
    requires Delimited(rest)
    ensures ParseValue(Stringify(JArr(items)) + rest) == Some((JArr(items), rest))
    decreases items, 1
  {
    if items == [] {
      assert Stringify(JArr(items)) + rest == "[]" + rest;
      BracketsStep("[]" + rest);
    } else {
      var t := ItemsText(items) + "]" + rest;
      assert ParseItems(t) == Some((items, rest)) by { ParseItemsText(items, rest); }
      assert t[0] != ']' by { ItemsTextStart(items); }
      ArrayStep("[" + t);
      Enclosed(JArr(items), rest);
    }
  }

  lemma BracketsStep(s: string)
    requires |s| >= 2 && ((s[0] == '[' && s[1] == ']') || (s[0] == '{' && s[1] == '}'))
    ensures ParseValue(s) == Some((if s[0] == '[' then JArr([]) else JObj([]), s[2..]))
  {
  }

  lemma ArrayStep(s: string)
    requires |s| >= 2 && s[0] == '[' && s[1] != ']' && ParseItems(s[1..]).Some?
    ensures ParseValue(s) == Some((JArr(ParseItems(s[1..]).value.0), ParseItems(s[1..]).value.1))
  {
  }

  lemma {:induction false} ParseObjectText(fields: seq<(string, Json)>, rest: string)
    requires Delimited(rest)
    ensures ParseValue(Stringify(JObj(fields)) + rest) == Some((JObj(fields), rest))
    decreases fields, 1
  {
    if fields == [] {
      assert Stringify(JObj(fields)) + rest == "{}" + rest;
      BracketsStep("{}" + rest);
    } else {
      var t := FieldsText(fields) + "}" + rest;
      assert ParseFields(t) == Some((fields, rest)) by { ParseFieldsText(fields, rest); }
      assert t[0] == '"';
      ObjectStep("{" + t);
      Enclosed(JObj(fields), rest);
    }
  }

  lemma ObjectStep(s: string)
    requires |s| >= 2 && s[0] == '{' && s[1] != '}' && ParseFields(s[1..]).Some?
    ensures ParseValue(s) == Some((JObj(ParseFields(s[1..]).value.0), ParseFields(s[1..]).value.1))
  {
  }

  /** A value's text never starts with a closing bracket. */
  lemma StringifyStart(j: Json)
    ensures |Stringify(j)| > 0 && Stringify(j)[0] != ']'
  {
    match j
    case JNum(n) =>
      if n >= 0 { assert Stringify(j)[0] == Digits(n)[0]; }
    case _ =>
  }

  lemma ItemsTextStart(items: seq<Json>)
    requires items != []
    ensures |ItemsText(items)| > 0 && ItemsText(items)[0] != ']'
  {
    StringifyStart(items[0]);
    assert ItemsText(items)[0] == Stringify(items[0])[0];
  }

  lemma {:induction false} ParseItemsText(items: seq<Json>, rest: string)
    requires items != [] && Delimited(rest)
    ensures ParseItems(ItemsText(items) + "]" + rest) == Some((items, rest))
    decreases items, 0
  {
    var s := ItemsText(items) + "]" + rest;
    if |items| == 1 {
      assert ParseValue(s) == Some((items[0], "]" + rest)) by {
        ItemsTextSplit(items, rest);
        ParseStringify(items[0], "]" + rest);
      }
      ItemsLast(s, items[0], rest);
      assert [items[0]] == items;
    } else {
      var t := ItemsText(items[1..]) + "]" + rest;
      assert ParseValue(s) == Some((items[0], "," + t)) by {
        ItemsTextSplit(items, rest);
        ParseStringify(items[0], "," + t);
      }
      ParseItemsText(items[1..], rest);
      ItemsMore(s, items[0], t, items[1..], rest);
      assert [items[0]] + items[1..] == items;
    }
  }

  lemma ItemsTextSplit(items: seq<Json>, rest: string)
    requires items != []
    ensures |items| == 1 ==> ItemsText(items) + "]" + rest == Stringify(items[0]) + ("]" + rest)
    ensures |items| > 1 ==>
              ItemsText(items) + "]" + rest == Stringify(items[0]) + ("," + (ItemsText(items[1..]) + "]" + rest))
  {
    if |items| > 1 {
      var a, b := Stringify(items[0]), ItemsText(items[1..]);
      assert ItemsText(items) == a + "," + b;
      Regroup(a, ",", b, "]", rest);
    }
  }

  lemma ItemsLast(s: string, v: Json, rest: string)
    requires ParseValue(s) == Some((v, "]" + rest))
    ensures ParseItems(s) == Some(([v], rest))
  {
    assert ("]" + rest)[1..] == rest;
  }

  lemma ItemsMore(s: string, v: Json, t: string, more: seq<Json>, after: string)
    requires ParseValue(s) == Some((v, "," + t)) && ParseItems(t) == Some((more, after))
    ensures ParseItems(s) == Some(([v] + more, after))
  {
    assert ("," + t)[1..] == t;
  }

  lemma {:induction false} ParseMemberText(m: (string, Json), after: string)
    requires Delimited(after)
    ensures ParseMember(MemberText(m) + after) == Some((m, after))
    decreases m
  {
    ParseStringify(m.1, after);
    MemberTextSplit(m, after);
    MemberStep(m.0, Stringify(m.1) + after);
  }

  lemma MemberTextSplit(m: (string, Json), after: string)
    ensures MemberText(m) + after == Quote(m.0) + ":" + (Stringify(m.1) + after)
  {
  }

  lemma MemberStep(key: string, u: string)
    requires ParseValue(u).Some?
    ensures ParseMember(Quote(key) + ":" + u) == Some(((key, ParseValue(u).value.0), ParseValue(u).value.1))
  {
    var s := Quote(key) + ":" + u;
    EscapeRoundTrip(key, ":" + u);
    QuotedKey(key, u);
    assert (":" + u)[1..] == u;
  }

  /** After the opening quote of a member comes the escaped key, its closing quote and the colon. */
  lemma QuotedKey(key: string, u: string)
    ensures (Quote(key) + ":" + u)[0] == '"'
    ensures (Quote(key) + ":" + u)[1..] == EscapeString(key) + "\"" + (":" + u)
  {
  }

  lemma {:induction false} ParseFieldsText(fields: seq<(string, Json)>, rest: string)
    requires fields != [] && Delimited(rest)
    ensures ParseFields(FieldsText(fields) + "}" + rest) == Some((fields, rest))
    decreases fields, 0
  {
    var s := FieldsText(fields) + "}" + rest;
    if |fields| == 1 {
      assert ParseMember(s) == Some((fields[0], "}" + rest)) by {
        FieldsTextSplit(fields, rest);
        ParseMemberText(fields[0], "}" + rest);
      }
      FieldsLast(s, fields[0], rest);
      assert [fields[0]] == fields;
    } else {
      var t := FieldsText(fields[1..]) + "}" + rest;
      assert ParseMember(s) == Some((fields[0], "," + t)) by {
        FieldsTextSplit(fields, rest);
        ParseMemberText(fields[0], "," + t);
      }
      ParseFieldsText(fields[1..], rest);
      FieldsMore(s, fields[0], t, fields[1..], rest);
      assert [fields[0]] + fields[1..] == fields;
    }
  }

  lemma FieldsTextSplit(fields: seq<(string, Json)>, rest: string)
    requires fields != []
    ensures |fields| == 1 ==> FieldsText(fields) + "}" + rest == MemberText(fields[0]) + ("}" + rest)
    ensures |fields| > 1 ==>
              FieldsText(fields) + "}" + rest == MemberText(fields[0]) + ("," + (FieldsText(fields[1..]) + "}" + rest))
  {
    if |fields| > 1 {
      var a, b := MemberText(fields[0]), FieldsText(fields[1..]);
      assert FieldsText(fields) == a + "," + b;
      Regroup(a, ",", b, "}", rest);
    }
  }

  lemma Regroup(a: string, b: string, c: string, d: string, e: string)
    ensures a + b + c + d + e == a + (b + (c + d + e))
  {
  }

  lemma FieldsLast(s: string, m: (string, Json), rest: string)
    requires ParseMember(s) == Some((m, "}" + rest))
    ensures ParseFields(s) == Some(([m], rest))
  {
    assert ("}" + rest)[1..] == rest;
  }

  lemma FieldsMore(s: string, m: (string, Json), t: string, more: seq<(string, Json)>, after: string)
    requires ParseMember(s) == Some((m, "," + t)) && ParseFields(t) == Some((more, after))
    ensures ParseFields(s) == Some(([m] + more, after))
  {
    assert ("," + t)[1..] == t;
  }

  /** Different values have different JSON texts. */
  lemma StringifyInjective(a: Json, b: Json)
    ensures Stringify(a) == Stringify(b) <==> a == b
  {
    ParseStringify(a, "");
    ParseStringify(b, "");
    assert Stringify(a) + "" == Stringify(a);
    assert Stringify(b) + "" == Stringify(b);
  }

  /** Object spread `{...fields, [key]: v}`: an existing key keeps its place and takes the new
      value; a new key goes last. */
  function SetField(fields: seq<(string, Json)>, key: string, v: Json): (r: seq<(string, Json)>)
    ensures FieldIn(r, key) == Some(v)
    ensures forall k :: k != key ==> FieldIn(r, k) == FieldIn(fields, k)
  {
    if fields == [] then [(key, v)]
    else if fields[0].0 == key then [(key, v)] + fields[1..]
    else [fields[0]] + SetField(fields[1..], key, v)
  }
}
