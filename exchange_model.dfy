/** The stored exchange account record and the exchange names it refers to, with their
    lower-case text form. */
module ExchangeModels {
  import opened Wrappers

  /** `models::ExchangeName`. */
  datatype ExchangeName = Binance | OKX | Bybit

  /** `as_str`. */
  function AsStr(e: ExchangeName): (s: string)
    ensures s in {"binance", "okx", "bybit"}
  {
    match e
      case Binance => "binance"
      case OKX => "okx"
      case Bybit => "bybit"
  }

  /** `from_str`: an exact, case-sensitive match of one of the three names. */
  function FromStr(s: string): (r: Option<ExchangeName>)
    ensures r.Some? ==> AsStr(r.value) == s
  {
    if s == "binance" then Some(Binance)
    else if s == "okx" then Some(OKX)
    else if s == "bybit" then Some(Bybit)
    else None
  }

  /** Parsing the text of a name gives the name back. */
  lemma NameRoundTrip(e: ExchangeName)
    ensures FromStr(AsStr(e)) == Some(e)
  {
  }

  /** Exactly the three lower-case names are accepted; other spellings are not. */
  lemma FromStrExact(s: string)
    ensures FromStr(s).Some? <==> s in {"binance", "okx", "bybit"}
    ensures FromStr(s).Some? <==> exists e :: AsStr(e) == s
  {
    if exists e :: AsStr(e) == s {
      var e :| AsStr(e) == s;
      NameRoundTrip(e);
    }
  }

  lemma FromStrIsCaseSensitive()
    ensures FromStr("Binance") == None && FromStr("OKX") == None && FromStr("BYBIT") == None
  {
  }

  /** `Display`: the same text as `as_str`. */
  function Display(e: ExchangeName): (s: string)
    ensures FromStr(s) == Some(e)
  {
    NameRoundTrip(e);
    AsStr(e)
  }

  /** `From<String>`: the parsed name, and Binance for any text that is not a name. */
  function FromString(s: string): (e: ExchangeName)
    ensures FromStr(s).Some? ==> Some(e) == FromStr(s)
    ensures FromStr(s).None? ==> e == Binance
  {
    match FromStr(s)
      case Some(e) => e
      case None => Binance
  }

  /** Converting the display text of a name gives the name back; every unknown text becomes
      Binance, so the conversion is not one to one. */
  lemma FromStringOfDisplay(e: ExchangeName, unknown: string)
    requires unknown !in {"binance", "okx", "bybit"}
    ensures FromString(Display(e)) == e
    ensures FromString(unknown) == Binance == FromString("binance")
  {
    FromStrExact(unknown);
  }

  /** `ExchangeConfig`, the stored account record; the key fields hold encrypted text. */
  datatype ExchangeConfig = ExchangeConfig(
    id: string, userId: string, exchangeName: string, displayName: string,
    apiKeyEncrypted: string, apiSecretEncrypted: string, passphraseEncrypted: Option<string>,
    isTestnet: bool, status: string, createdAt: int, updatedAt: int)

  /** `is_active`. */
  predicate IsActive(c: ExchangeConfig) {
    c.status == "active"
  }

  /** Only the exact status `active` counts: other spellings and other statuses do not, and the
      other fields play no part. */
  lemma ActiveOnlyByStatus(c: ExchangeConfig, d: ExchangeConfig)
    requires c.status == d.status
    ensures IsActive(c) <==> IsActive(d)
    ensures IsActive(c.(status := "Active")) == false && IsActive(c.(status := "inactive")) == false
    ensures IsActive(c.(status := "active"))
  {
  }
}
