/** The shared part of the market-data converters: the error type, the JSON field helpers, the
    timestamp and symbol normalisation, and the factory that picks a converter by exchange. */
module Converters {
  import opened Wrappers
  import opened Text
  import opened SerdeValues

  /** The exchanges the back end talks to. */
  datatype ExchangeName = Binance | OKX | Bybit

  datatype SymbolFormat = NoSeparator | Slash | Dash | Underscore

  /** What an `InvalidValue` error shows: a text as read, or a JSON value (shown as its
      serialisation). */
  datatype Shown = Raw(text: string) | JsonOf(v: Value)

  datatype ConversionError =
    | MissingField(field: string)
    | InvalidValue(field: string, value: Shown)
    | ParseError(message: string)
    | UnsupportedFormat
    | JsonError(message: string)

  /** `helpers::parse_str`: only a JSON string is accepted. */
  function ParseStr(v: Value, field: string): (r: Result<string, ConversionError>)
    ensures r.Ok? <==> v.Str?
    ensures r.Ok? ==> r.value == v.s
    ensures r.Err? ==> r.error == InvalidValue(field, JsonOf(v))
  {
    match AsStr(v)
      case Some(s) => Ok(s)
      case None => Err(InvalidValue(field, JsonOf(v)))
  }

  /** `helpers::parse_i64`: a string holding an `i64`, else an integer number in range. */
  function ParseI64(v: Value, field: string): (r: Result<int, ConversionError>)
    ensures r.Ok? ==> InI64(r.value)
    ensures r.Err? ==> r.error == InvalidValue(field, JsonOf(v))
  {
    var fromText := if v.Str? then ParseI64Text(v.s) else None;
    match fromText
      case Some(n) => Ok(n)
      case None =>
        match AsI64(v)
          case Some(n) => Ok(n)
          case None => Err(InvalidValue(field, JsonOf(v)))
  }

  /** What `parse_i64` accepts: the text of an `i64` inside a string, or an `i64` number. */
  lemma ParseI64Accepts(v: Value, field: string)
    ensures ParseI64(v, field).Ok? <==> (v.Str? && ParseI64Text(v.s).Some?) || (v.Int? && InI64(v.i))
    ensures v.Str? && ParseI64Text(v.s).Some? ==> ParseI64(v, field) == Ok(ParseI64Text(v.s).value)
    ensures v.Int? && InI64(v.i) ==> ParseI64(v, field) == Ok(v.i)
    ensures v.Float? || v.Bool? || v.Null? || v.Array? || v.Object? ==> ParseI64(v, field).Err?
  {
  }

  /** `helpers::parse_f64`: a string holding a decimal number, else any number. */
  function ParseF64(v: Value, field: string): (r: Result<real, ConversionError>)
    ensures r.Ok? <==> (v.Str? && ParseF64Text(v.s).Some?) || v.Int? || v.Float?
    ensures r.Err? ==> r.error == InvalidValue(field, JsonOf(v))
  {
    var fromText := if v.Str? then ParseF64Text(v.s) else None;
    match fromText
      case Some(x) => Ok(x)
      case None =>
        match AsF64(v)
          case Some(x) => Ok(x)
          case None => Err(InvalidValue(field, JsonOf(v)))
  }

  /** `helpers::get_field`: the field, or `MissingField` exactly when it is absent. */
  function GetField(v: Value, field: string): (r: Result<Value, ConversionError>)
    ensures r.Err? <==> Get(v, field).None?
    ensures r.Err? ==> r.error == MissingField(field)
    ensures r.Ok? ==> v.Object? && field in v.fields && r.value == v.fields[field]
  {
    match Get(v, field)
      case Some(x) => Ok(x)
      case None => Err(MissingField(field))
  }

  /** 2000-01-01T00:00:00Z in milliseconds. */
  const MillisThreshold: int := 946_684_800_000

  /** `helpers::normalize_timestamp`: a value below the threshold is taken as seconds and
      scaled to milliseconds. */
  function NormalizeTimestamp(v: Value, field: string): (r: Result<int, ConversionError>)
    ensures r.Err? <==> ParseI64(v, field).Err?
    ensures r.Ok? ==> var ts := ParseI64(v, field).value;
      (ts >= MillisThreshold ==> r.value == ts) && (ts < MillisThreshold ==> r.value == ts * 1000)
  {
    match ParseI64(v, field)
      case Err(e) => Err(e)
      case Ok(ts) => if ts < MillisThreshold then Ok(ts * 1000) else Ok(ts)
  }

  /** A seconds value from 2000 onwards becomes a millisecond value that a second
      normalisation leaves alone. */
  lemma NormalizeTimestampSettles(v: Value, field: string)
    requires ParseI64(v, field).Ok?
    requires MillisThreshold / 1000 <= ParseI64(v, field).value
    requires ParseI64(v, field).value * 1000 <= I64Max
    ensures NormalizeTimestamp(v, field).Ok?
    ensures NormalizeTimestamp(Int(NormalizeTimestamp(v, field).value), field) == NormalizeTimestamp(v, field)
  {
  }

  /** Symbol separators. */
  predicate IsSeparator(c: char) { c == '/' || c == '-' || c == '_' }

  /** `helpers::normalize_symbol_raw`: every `/`, `-` and `_` removed, then upper-cased. */
  function NormalizeSymbolRaw(symbol: string): (r: string)
    ensures forall i :: 0 <= i < |r| ==> !IsSeparator(r[i]) && !IsLowerAscii(r[i])
  {
    var r := Upper(Remove(Remove(Remove(symbol, '/'), '-'), '_'));
    assert forall i :: 0 <= i < |r| ==> !IsSeparator(r[i]) && !IsLowerAscii(r[i]) by {
      var x := Remove(Remove(Remove(symbol, '/'), '-'), '_');
      forall i | 0 <= i < |r| ensures !IsSeparator(r[i]) && !IsLowerAscii(r[i]) {
        assert x[i] in x;
        UpperCharKeeps(x[i]);
      }
    }
    r
  }

  /** Normalising a normalised symbol changes nothing. */
  lemma NormalizeSymbolRawIdempotent(symbol: string)
    ensures NormalizeSymbolRaw(NormalizeSymbolRaw(symbol)) == NormalizeSymbolRaw(symbol)
  {
    var n := NormalizeSymbolRaw(symbol);
    SeparatorFree(n);
    UpperFixed(n);
  }

  /** Text without separators or lower-case letters is already normalised. */
  lemma SeparatorFree(s: string)
    requires forall i :: 0 <= i < |s| ==> !IsSeparator(s[i]) && !IsLowerAscii(s[i])
    ensures NormalizeSymbolRaw(s) == s
  {
    assert '/' !in s && '-' !in s && '_' !in s;
    RemoveAbsent(s, '/');
    RemoveAbsent(s, '-');
    RemoveAbsent(s, '_');
    UpperFixed(s);
  }

  /** Text that needs no normalising: no separators and no lower-case letters. */
  predicate Clean(s: string) {
    forall i :: 0 <= i < |s| ==> !IsSeparator(s[i]) && !IsLowerAscii(s[i])
  }

  /** A separator between two clean parts is dropped: `BTC/USDT`, `BTC-USDT` and `BTC_USDT`
      all become `BTCUSDT`. */
  lemma JoinedSymbol(base: string, sep: char, quote: string)
    requires Clean(base) && Clean(quote) && IsSeparator(sep)
    ensures NormalizeSymbolRaw(base + [sep] + quote) == base + quote
  {
    var s := base + [sep] + quote;
    var j := base + quote;
    NoSeparatorIn(base);
    NoSeparatorIn(quote);
    RemoveAbsent(j, '-');
    RemoveAbsent(j, '_');
    if sep == '/' {
      DropSeparator(base, sep, quote);
    } else if sep == '-' {
      RemoveAbsent(s, '/');
      DropSeparator(base, sep, quote);
    } else {
      RemoveAbsent(s, '/');
      RemoveAbsent(s, '-');
      DropSeparator(base, sep, quote);
    }
    assert Remove(Remove(Remove(s, '/'), '-'), '_') == j;
    UpperFixed(j);
  }

  lemma NoSeparatorIn(s: string)
    requires Clean(s)
    ensures '/' !in s && '-' !in s && '_' !in s
  {
  }

  /** Removing `c` from `a + [c] + b`, where `c` occurs in neither part, leaves `a + b`. */
  lemma DropSeparator(a: string, c: char, b: string)
    requires c !in a && c !in b
    ensures Remove(a + [c] + b, c) == a + b
  {
    var t := [c] + b;
    assert a + [c] + b == a + t;
    RemoveAppend(a, t, c);
    assert t[0] == c && t[1..] == b;
    assert Remove(t, c) == Remove(b, c);
    RemoveAbsent(a, c);
    RemoveAbsent(b, c);
  }

  /** Without separators, normalising is upper-casing: `btcusdt` becomes `BTCUSDT`. */
  lemma LowerCaseSymbol(s: string)
    requires forall i :: 0 <= i < |s| ==> !IsSeparator(s[i])
    ensures NormalizeSymbolRaw(s) == Upper(s)
  {
    assert '/' !in s && '-' !in s && '_' !in s;
    RemoveAbsent(s, '/');
    RemoveAbsent(s, '-');
    RemoveAbsent(s, '_');
  }

  /** The converters `ConverterFactory::create` can build. */
  datatype Converter = BinanceConverter | OkxConverter | BybitConverter

  /** `exchange_name()` of each converter. */
  function ConverterExchange(c: Converter): ExchangeName {
    match c
      case BinanceConverter => Binance
      case OkxConverter => OKX
      case BybitConverter => Bybit
  }

  /** `ConverterFactory::create`: the converter for the exchange. */
  function Create(name: ExchangeName): (c: Converter)
    ensures ConverterExchange(c) == name
  {
    match name
      case Binance => BinanceConverter
      case OKX => OkxConverter
      case Bybit => BybitConverter
  }

  /** Each converter is the one created for its own exchange. */
  lemma CreateInverts(c: Converter)
    ensures Create(ConverterExchange(c)) == c
  {
  }
}
