/**
 * `CurrencyService`: a second, shape-only round of validation, the three request
 * URLs built with `String.format`, and the fetch through which every upstream
 * failure becomes one `ApiCallException`.
 */
module CurrencyService {

  import opened Errors
  import opened JavaText
  import opened IsoDate
  import opened Models
  import QueryString

  /** The injected configuration: the API key and the three endpoint URLs. */
  datatype Config = Config(apiKey: string, latestUrl: string, historicalUrl: string, convertUrl: string)

  const CurrencyLengthMessage := "Currency must be a 3-letter code"
  const DateShapeMessage := "Date must be in YYYY-MM-DD format"
  const AmountMessage := "Amount must be greater than 0"
  const ApiCallMessage := "Failed to fetch data from API"

  // ----------------- validators -----------------

  /** `validateCurrency`: any text of exactly three UTF-16 code units, of any kind and case, passes. */
  function ValidateCurrency(c: string): (r: Outcome)
    ensures r == Pass <==> Utf16Length(c) == 3
    ensures r != Pass ==> r == Fail(InvalidBaseCurrency(CurrencyLengthMessage))
  {
    if Utf16Length(c) != 3 then Fail(InvalidBaseCurrency(CurrencyLengthMessage)) else Pass
  }

  /** One position of a regular expression without repetition: `\d` or a literal character. */
  datatype CharClass = Digit | Literal(c: char)

  predicate ClassMatches(k: CharClass, c: char)
  {
    match k
    case Digit => IsDigit(c)
    case Literal(l) => c == l
  }

  /** `String.matches`: the whole text matches, one character per position. */
  predicate Matches(pattern: seq<CharClass>, s: string)
  {
    |s| == |pattern| && forall i | 0 <= i < |s| :: ClassMatches(pattern[i], s[i])
  }

  /** `\d{4}-\d{2}-\d{2}` with its repetitions written out (`\d` is the ASCII digits). */
  const DatePattern: seq<CharClass> :=
    [Digit, Digit, Digit, Digit, Literal('-'), Digit, Digit, Literal('-'), Digit, Digit]

  /** `validateDate`: the shape `dddd-dd-dd` passes whether or not it names a day. */
  function ValidateDate(s: string): (r: Outcome)
    ensures r == Pass <==> HasDateShape(s)
    ensures r != Pass ==> r == Fail(InvalidDate(DateShapeMessage))
  {
    if !Matches(DatePattern, s) then Fail(InvalidDate(DateShapeMessage)) else Pass
  }

  /** `validateAmount`: amounts below 1 are refused. */
  function ValidateAmount(amount: real): (r: Outcome)
    ensures r == Pass <==> amount >= 1.0
    ensures r != Pass ==> r == Fail(InvalidAmount(AmountMessage))
  {
    if amount < 1.0 then Fail(InvalidAmount(AmountMessage)) else Pass
  }

  // ----------------- request URLs -----------------

  /** The literal text of each `String.format` template, between its `%s` conversions. */
  const LatestPieces: seq<string> := ["", "?base=", "&api_key=", ""]
  const HistoricalPieces: seq<string> := ["", "?base=", "&date=", "&symbols=", "&api_key=", ""]
  const ConvertPieces: seq<string> := ["", "?from=", "&to=", "&amount=", "&api_key=", ""]

  const LatestTemplate := Template(LatestPieces)
  const HistoricalTemplate := Template(HistoricalPieces)
  const ConvertTemplate := Template(ConvertPieces)

  /** Each template is the format string of the source, checked one piece at a time from the right. */
  lemma LatestTemplateText()
    ensures LatestTemplate == "%s?base=%s&api_key=%s"
  {
    TemplateOfFour("", "?base=", "&api_key=", "");
    assert "&api_key=" + "%s" + "" == "&api_key=%s";
    assert "?base=" + "%s" + "&api_key=%s" == "?base=%s&api_key=%s";
    assert "" + "%s" + "?base=%s&api_key=%s" == "%s?base=%s&api_key=%s";
  }

  lemma HistoricalTemplateText()
    ensures HistoricalTemplate == "%s?base=%s&date=%s&symbols=%s&api_key=%s"
  {
    TemplateOfSix("", "?base=", "&date=", "&symbols=", "&api_key=", "");
    HistoricalTemplateTail();
    HistoricalTemplateHead();
    HistoricalTemplateWhole();
  }

  lemma HistoricalTemplateHead()
    ensures "?base=" + "%s" + "&date=%s&symbols=%s&api_key=%s" == "?base=%s&date=%s&symbols=%s&api_key=%s"
  {
  }

  lemma HistoricalTemplateWhole()
    ensures "" + "%s" + "?base=%s&date=%s&symbols=%s&api_key=%s" == "%s?base=%s&date=%s&symbols=%s&api_key=%s"
  {
  }

  lemma HistoricalTemplateTail()
    ensures "&date=" + "%s" + ("&symbols=" + "%s" + ("&api_key=" + "%s" + "")) == "&date=%s&symbols=%s&api_key=%s"
  {
    assert "&api_key=" + "%s" + "" == "&api_key=%s";
    assert "&symbols=" + "%s" + "&api_key=%s" == "&symbols=%s&api_key=%s";
  }

  lemma ConvertTemplateText()
    ensures ConvertTemplate == "%s?from=%s&to=%s&amount=%s&api_key=%s"
  {
    TemplateOfSix("", "?from=", "&to=", "&amount=", "&api_key=", "");
    ConvertTemplateTail();
    ConvertTemplateHead();
    ConvertTemplateWhole();
  }

  lemma ConvertTemplateHead()
    ensures "?from=" + "%s" + "&to=%s&amount=%s&api_key=%s" == "?from=%s&to=%s&amount=%s&api_key=%s"
  {
  }

  lemma ConvertTemplateWhole()
    ensures "" + "%s" + "?from=%s&to=%s&amount=%s&api_key=%s" == "%s?from=%s&to=%s&amount=%s&api_key=%s"
  {
  }

  lemma ConvertTemplateTail()
    ensures "&to=" + "%s" + ("&amount=" + "%s" + ("&api_key=" + "%s" + "")) == "&to=%s&amount=%s&api_key=%s"
  {
    assert "&api_key=" + "%s" + "" == "&api_key=%s";
    assert "&amount=" + "%s" + "&api_key=%s" == "&amount=%s&api_key=%s";
  }

  /** No literal piece holds a `%`, so only the `%s` between pieces are conversions. */
  predicate HasNoPercent(pieces: seq<string>)
  {
    forall i | 0 <= i < |pieces| :: '%' !in pieces[i]
  }

  /** Formatting the latest-rates template fills its pieces. */
  lemma FormatLatestTemplate(args: seq<string>)
    requires |args| == 3
    ensures Conversions(LatestTemplate) == 3 && Format(LatestTemplate, args) == Fill(LatestPieces, args)
  {
    assert HasNoPercent(LatestPieces);
    FormatFillsTemplate(LatestPieces, args);
  }

  /** Formatting the historical-rates template fills its pieces. */
  lemma FormatHistoricalTemplate(args: seq<string>)
    requires |args| == 5
    ensures Conversions(HistoricalTemplate) == 5 && Format(HistoricalTemplate, args) == Fill(HistoricalPieces, args)
  {
    assert HasNoPercent(HistoricalPieces);
    FormatFillsTemplate(HistoricalPieces, args);
  }

  /** Formatting the conversion template fills its pieces. */
  lemma FormatConvertTemplate(args: seq<string>)
    requires |args| == 5
    ensures Conversions(ConvertTemplate) == 5 && Format(ConvertTemplate, args) == Fill(ConvertPieces, args)
  {
    assert HasNoPercent(ConvertPieces);
    FormatFillsTemplate(ConvertPieces, args);
  }

  /** The latest-rates URL: the configured endpoint, then `base` and `api_key`, substituted verbatim. */
  function LatestUrl(cfg: Config, base: string): (url: string)
    ensures url == cfg.latestUrl + "?base=" + base + "&api_key=" + cfg.apiKey
  {
    FormatLatestTemplate([cfg.latestUrl, base, cfg.apiKey]);
    FillOfThree("", "?base=", "&api_key=", "", cfg.latestUrl, base, cfg.apiKey);
    assert "" + cfg.latestUrl == cfg.latestUrl;
    Format(LatestTemplate, [cfg.latestUrl, base, cfg.apiKey])
  }

  /** The historical-rates URL: `base`, `date` and the whole `symbols` text, then `api_key`. */
  function HistoricalUrl(cfg: Config, base: string, date: string, symbols: string): (url: string)
    ensures url == cfg.historicalUrl + "?base=" + base + "&date=" + date + "&symbols=" + symbols + "&api_key=" + cfg.apiKey
  {
    FormatHistoricalTemplate([cfg.historicalUrl, base, date, symbols, cfg.apiKey]);
    FillOfFive("", "?base=", "&date=", "&symbols=", "&api_key=", "", cfg.historicalUrl, base, date, symbols, cfg.apiKey);
    assert "" + cfg.historicalUrl == cfg.historicalUrl;
    Format(HistoricalTemplate, [cfg.historicalUrl, base, date, symbols, cfg.apiKey])
  }

  /** The conversion URL; `amountText` is the `%s` rendering of the `double` amount. */
  function ConvertUrl(cfg: Config, from: string, to: string, amountText: string): (url: string)
    ensures url == cfg.convertUrl + "?from=" + from + "&to=" + to + "&amount=" + amountText + "&api_key=" + cfg.apiKey
  {
    FormatConvertTemplate([cfg.convertUrl, from, to, amountText, cfg.apiKey]);
    FillOfFive("", "?from=", "&to=", "&amount=", "&api_key=", "", cfg.convertUrl, from, to, amountText, cfg.apiKey);
    assert "" + cfg.convertUrl == cfg.convertUrl;
    Format(ConvertTemplate, [cfg.convertUrl, from, to, amountText, cfg.apiKey])
  }

  /** A configured endpoint and API key that the query syntax reads back unchanged. */
  predicate IsSafeEndpoint(endpoint: string, apiKey: string)
  {
    '?' !in endpoint && QueryString.IsSafeValue(apiKey)
  }

  /** The literal pieces in front of each value are `&` (or `?`), the parameter name and `=`. */
  lemma PieceNames()
    ensures "?base=" == "?" + "base" + "=" && "&api_key=" == "&" + "api_key" + "="
    ensures "&date=" == "&" + "date" + "=" && "&symbols=" == "&" + "symbols" + "="
    ensures "?from=" == "?" + "from" + "=" && "&to=" == "&" + "to" + "=" && "&amount=" == "&" + "amount" + "="
    ensures forall n | n in ["base", "api_key", "date", "symbols", "from", "to", "amount"] :: QueryString.IsSafeName(n)
  {
  }

  /** The upstream reads `base` and then `api_key` from the latest-rates URL, exactly as given. */
  lemma LatestUrlParameters(cfg: Config, base: string)
    requires IsSafeEndpoint(cfg.latestUrl, cfg.apiKey) && QueryString.IsSafeValue(base)
    ensures QueryString.ParseQuery(QueryString.QueryOf(LatestUrl(cfg, base))) ==
      [QueryString.Param("base", base), QueryString.Param("api_key", cfg.apiKey)]
  {
    var ps := [QueryString.Param("base", base), QueryString.Param("api_key", cfg.apiKey)];
    PieceNames();
    QueryString.UrlOfTwo(cfg.latestUrl, "?base=", "base", base, "&api_key=", "api_key", cfg.apiKey);
    QueryString.ParametersOfUrl(cfg.latestUrl, ps);
  }

  /** The upstream reads `base`, `date`, `symbols` and last `api_key` from the historical URL. */
  lemma HistoricalUrlParameters(cfg: Config, base: string, date: string, symbols: string)
    requires IsSafeEndpoint(cfg.historicalUrl, cfg.apiKey)
    requires QueryString.IsSafeValue(base) && QueryString.IsSafeValue(date) && QueryString.IsSafeValue(symbols)
    ensures QueryString.ParseQuery(QueryString.QueryOf(HistoricalUrl(cfg, base, date, symbols))) ==
      [QueryString.Param("base", base), QueryString.Param("date", date),
       QueryString.Param("symbols", symbols), QueryString.Param("api_key", cfg.apiKey)]
  {
    var ps := [QueryString.Param("base", base), QueryString.Param("date", date),
               QueryString.Param("symbols", symbols), QueryString.Param("api_key", cfg.apiKey)];
    PieceNames();
    var p0, p1, p2, p3 := QueryString.Param("base", base), QueryString.Param("date", date), QueryString.Param("symbols", symbols), QueryString.Param("api_key", cfg.apiKey);
    QueryString.UrlOfTwo(cfg.historicalUrl, "?base=", "base", base, "&date=", "date", date);
    QueryString.UrlAppend(cfg.historicalUrl, [p0, p1], "&symbols=", "symbols", symbols);
    assert [p0, p1] + [p2] == [p0, p1, p2];
    QueryString.UrlAppend(cfg.historicalUrl, [p0, p1, p2], "&api_key=", "api_key", cfg.apiKey);
    assert [p0, p1, p2] + [p3] == ps;
    QueryString.ParametersOfUrl(cfg.historicalUrl, ps);
  }

  /** The upstream reads `from`, `to`, `amount` and last `api_key` from the conversion URL. */
  lemma ConvertUrlParameters(cfg: Config, from: string, to: string, amountText: string)
    requires IsSafeEndpoint(cfg.convertUrl, cfg.apiKey)
    requires QueryString.IsSafeValue(from) && QueryString.IsSafeValue(to) && QueryString.IsSafeValue(amountText)
    ensures QueryString.ParseQuery(QueryString.QueryOf(ConvertUrl(cfg, from, to, amountText))) ==
      [QueryString.Param("from", from), QueryString.Param("to", to),
       QueryString.Param("amount", amountText), QueryString.Param("api_key", cfg.apiKey)]
  {
    var ps := [QueryString.Param("from", from), QueryString.Param("to", to),
               QueryString.Param("amount", amountText), QueryString.Param("api_key", cfg.apiKey)];
    PieceNames();
    var p0, p1, p2, p3 := QueryString.Param("from", from), QueryString.Param("to", to), QueryString.Param("amount", amountText), QueryString.Param("api_key", cfg.apiKey);
    QueryString.UrlOfTwo(cfg.convertUrl, "?from=", "from", from, "&to=", "to", to);
    QueryString.UrlAppend(cfg.convertUrl, [p0, p1], "&amount=", "amount", amountText);
    assert [p0, p1] + [p2] == [p0, p1, p2];
    QueryString.UrlAppend(cfg.convertUrl, [p0, p1, p2], "&api_key=", "api_key", cfg.apiKey);
    assert [p0, p1, p2] + [p3] == ps;
    QueryString.ParametersOfUrl(cfg.convertUrl, ps);
  }

  // ----------------- the upstream call -----------------

  /** Why `fetchFromApi` can fail: a bad URL, the connection, the read, or the JSON decoding. */
  datatype FailureCause = MalformedUrl | ConnectionFailed | ReadFailed | DecodeFailed

  /** What the upstream does with one URL: it answers with a decoded body, or it fails. */
  datatype FetchOutcome<+T> = Fetched(payload: T) | FetchFailed(cause: FailureCause)

  /** `fetchFromApi`: the decoded body, or one `ApiCallException` whatever the cause. */
  function FetchFromApi<T>(outcome: FetchOutcome<T>): (r: Result<T>)
    ensures r.Ok? <==> outcome.Fetched?
    ensures r.Ok? ==> r.value == outcome.payload
    ensures r.Err? ==> r.error == ApiCall(ApiCallMessage)
  {
    match outcome
    case Fetched(payload) => Ok(payload)
    case FetchFailed(_) => Err(ApiCall(ApiCallMessage))
  }

  /** No caller can tell two failure causes apart. */
  lemma FetchFailuresAreIndistinguishable<T>(c1: FailureCause, c2: FailureCause)
    ensures FetchFromApi<T>(FetchFailed(c1)) == FetchFromApi<T>(FetchFailed(c2))
  {
  }

  /** A request's result together with the URLs it sent upstream, in order. */
  datatype Exchange<+T> = Exchange(result: Result<T>, fetched: seq<string>)

  /** A request refused by a validator: the error, and nothing sent upstream. */
  function Rejected<T>(e: ApiError): Exchange<T>
  {
    Exchange(Err(e), [])
  }

  /** One call of `fetchFromApi` on `url`. */
  function Fetch<T>(upstream: string -> FetchOutcome<T>, url: string): Exchange<T>
  {
    Exchange(FetchFromApi(upstream(url)), [url])
  }

  // ----------------- the three operations -----------------

  /** `getLatestRates`: the length check, then one fetch of the latest-rates URL. */
  function GetLatestRates(cfg: Config, upstream: string -> FetchOutcome<RatesResponse>, base: string): (x: Exchange<RatesResponse>)
    ensures Utf16Length(base) != 3 ==> x == Rejected(InvalidBaseCurrency(CurrencyLengthMessage))
    ensures Utf16Length(base) == 3 ==> x == Fetch(upstream, LatestUrl(cfg, base))
  {
    match ValidateCurrency(base)
    case Fail(e) => Rejected(e)
    case Pass => Fetch(upstream, LatestUrl(cfg, base))
  }

  /** `getHistoricalRates`: the base is checked, then the date's shape, then one fetch. */
  function GetHistoricalRates(cfg: Config, upstream: string -> FetchOutcome<RatesResponse>, base: string, date: string, symbols: string): (x: Exchange<RatesResponse>)
    ensures Utf16Length(base) != 3 ==> x == Rejected(InvalidBaseCurrency(CurrencyLengthMessage))
    ensures Utf16Length(base) == 3 && !HasDateShape(date) ==> x == Rejected(InvalidDate(DateShapeMessage))
    ensures Utf16Length(base) == 3 && HasDateShape(date) ==> x == Fetch(upstream, HistoricalUrl(cfg, base, date, symbols))
  {
    match ValidateCurrency(base)
    case Fail(e) => Rejected(e)
    case Pass =>
      match ValidateDate(date)
      case Fail(e) => Rejected(e)
      case Pass => Fetch(upstream, HistoricalUrl(cfg, base, date, symbols))
  }

  /** `convertAmount`: `from`, then `to`, then the amount, then one fetch; `render` is `%s` on a `double`. */
  function ConvertAmount(cfg: Config, upstream: string -> FetchOutcome<ConversionResponse>, from: string, to: string, amount: real, render: real -> string): (x: Exchange<ConversionResponse>)
    ensures Utf16Length(from) != 3 ==> x == Rejected(InvalidBaseCurrency(CurrencyLengthMessage))
    ensures Utf16Length(from) == 3 && Utf16Length(to) != 3 ==> x == Rejected(InvalidBaseCurrency(CurrencyLengthMessage))
    ensures Utf16Length(from) == 3 && Utf16Length(to) == 3 && amount < 1.0 ==> x == Rejected(InvalidAmount(AmountMessage))
    ensures Utf16Length(from) == 3 && Utf16Length(to) == 3 && amount >= 1.0 ==> x == Fetch(upstream, ConvertUrl(cfg, from, to, render(amount)))
  {
    match ValidateCurrency(from)
    case Fail(e) => Rejected(e)
    case Pass =>
      match ValidateCurrency(to)
      case Fail(e) => Rejected(e)
      case Pass =>
        match ValidateAmount(amount)
        case Fail(e) => Rejected(e)
        case Pass => Fetch(upstream, ConvertUrl(cfg, from, to, render(amount)))
  }
}
