/**
 * `CurrencyController`: the three endpoints check their parameters against the
 * controller's table of supported symbols and the calendar, in a fixed order, and
 * forward the original parameters to the service only when every check passes.
 */
module CurrencyController {

  import opened Errors
  import opened JavaText
  import opened IsoDate
  import opened Currencies
  import opened Models
  import Service = CurrencyService

  const InvalidCurrencyPrefix := "Invalid currency: "
  const InvalidDatePrefix := "Invalid date format. Use YYYY-MM-DD: "
  const AmountMessage := "Amount must be at least 1."

  /** The controller's two fields: the injected service and the immutable symbol set. */
  datatype CurrencyController = CurrencyController(currencyService: Service.Config, supportedCurrencies: set<string>)

  /** A controller as constructed: its set is the `Set.of(...)` literal. */
  function NewCurrencyController(currencyService: Service.Config): (ctl: CurrencyController)
    ensures ctl.currencyService == currencyService
    ensures IsSymbolTable(ctl.supportedCurrencies) && HasFourLetterCodes(ctl.supportedCurrencies)
    ensures |ctl.supportedCurrencies| == 226
  {
    SupportedCurrenciesIsSymbolTable();
    SupportedCurrencyCount();
    CurrencyController(currencyService, SupportedCurrencies())
  }

  // ----------------- validators -----------------

  /** A symbol is supported when its upper-cased form is in the set. */
  predicate IsSupported(ctl: CurrencyController, c: string)
  {
    ToUpperCase(c) in ctl.supportedCurrencies
  }

  /** `validateCurrency`: the error names the symbol as it was given, not upper-cased. */
  function ValidateCurrency(ctl: CurrencyController, c: string): (r: Outcome)
    ensures r == Pass <==> IsSupported(ctl, c)
    ensures r != Pass ==> r == Fail(InvalidBaseCurrency(InvalidCurrencyPrefix + c))
  {
    if ToUpperCase(c) !in ctl.supportedCurrencies then Fail(InvalidBaseCurrency(InvalidCurrencyPrefix + c)) else Pass
  }

  /** `validateDate`: `LocalDate.parse` must accept the text. */
  function ValidateDate(s: string): (r: Outcome)
    ensures r == Pass <==> ParseIsoDate(s).Some?
    ensures r != Pass ==> r == Fail(InvalidDate(InvalidDatePrefix + s))
  {
    match ParseIsoDate(s)
    case None => Fail(InvalidDate(InvalidDatePrefix + s))
    case Some(_) => Pass
  }

  /** The tokens of the `symbols` parameter: `symbols.split(",")`. */
  function SymbolTokens(symbols: string): seq<string>
  {
    Split(symbols, ',')
  }

  /**
   * The loop over the tokens: each trimmed token is validated from left to right,
   * and the first that fails is the error.
   */
  function ValidateSymbols(ctl: CurrencyController, tokens: seq<string>): (r: Outcome)
    ensures r == Pass <==> forall i | 0 <= i < |tokens| :: IsSupported(ctl, Trim(tokens[i]))
    decreases |tokens|
  {
    if tokens == [] then Pass
    else
      match ValidateCurrency(ctl, Trim(tokens[0]))
      case Fail(e) => Fail(e)
      case Pass =>
        assert forall i | 1 <= i < |tokens| :: tokens[i] == tokens[1..][i - 1];
        ValidateSymbols(ctl, tokens[1..])
  }

  /** A failure of the loop is the error of the first token that is not supported, named as trimmed. */
  lemma {:induction false} FirstFailingToken(ctl: CurrencyController, tokens: seq<string>) returns (i: nat)
    requires ValidateSymbols(ctl, tokens) != Pass
    ensures i < |tokens| && !IsSupported(ctl, Trim(tokens[i]))
    ensures forall j | 0 <= j < i :: IsSupported(ctl, Trim(tokens[j]))
    ensures ValidateSymbols(ctl, tokens) == Fail(InvalidBaseCurrency(InvalidCurrencyPrefix + Trim(tokens[i])))
    decreases |tokens|
  {
    var t := Trim(tokens[0]);
    if !IsSupported(ctl, t) {
      i := 0;
    } else {
      var rest := tokens[1..];
      assert ValidateSymbols(ctl, tokens) == ValidateSymbols(ctl, rest);
      var k := FirstFailingToken(ctl, rest);
      i := k + 1;
      assert tokens[i] == rest[k];
      assert forall j | 1 <= j < i :: tokens[j] == rest[j - 1];
    }
  }

  // ----------------- the three endpoints -----------------

  /** `GET /latest`: the base is checked, then the service gets it as given. */
  function GetLatestRates(ctl: CurrencyController, upstream: string -> Service.FetchOutcome<RatesResponse>, base: string): (x: Service.Exchange<RatesResponse>)
    ensures !IsSupported(ctl, base) ==> x == Service.Rejected(InvalidBaseCurrency(InvalidCurrencyPrefix + base))
    ensures IsSupported(ctl, base) ==> x == Service.GetLatestRates(ctl.currencyService, upstream, base)
  {
    match ValidateCurrency(ctl, base)
    case Fail(e) => Service.Rejected(e)
    case Pass => Service.GetLatestRates(ctl.currencyService, upstream, base)
  }

  /**
   * `GET /historical`: the base, then the date, then each symbol token; the
   * service gets the three parameters as given, `symbols` still untrimmed and unsplit.
   */
  function GetHistoricalRates(ctl: CurrencyController, upstream: string -> Service.FetchOutcome<RatesResponse>, base: string, date: string, symbols: string): (x: Service.Exchange<RatesResponse>)
    ensures !IsSupported(ctl, base) ==> x == Service.Rejected(InvalidBaseCurrency(InvalidCurrencyPrefix + base))
    ensures IsSupported(ctl, base) && ParseIsoDate(date).None? ==> x == Service.Rejected(InvalidDate(InvalidDatePrefix + date))
    ensures IsSupported(ctl, base) && ParseIsoDate(date).Some? && ValidateSymbols(ctl, SymbolTokens(symbols)) != Pass ==>
      x == Service.Rejected(ValidateSymbols(ctl, SymbolTokens(symbols)).error)
    ensures IsSupported(ctl, base) && ParseIsoDate(date).Some? && ValidateSymbols(ctl, SymbolTokens(symbols)) == Pass ==>
      x == Service.GetHistoricalRates(ctl.currencyService, upstream, base, date, symbols)
  {
    match ValidateCurrency(ctl, base)
    case Fail(e) => Service.Rejected(e)
    case Pass =>
      match ValidateDate(date)
      case Fail(e) => Service.Rejected(e)
      case Pass =>
        match ValidateSymbols(ctl, SymbolTokens(symbols))
        case Fail(e) => Service.Rejected(e)
        case Pass => Service.GetHistoricalRates(ctl.currencyService, upstream, base, date, symbols)
  }

  /** `GET /convert`: `from`, then `to`, then the amount; the service gets all three as given. */
  function ConvertAmount(ctl: CurrencyController, upstream: string -> Service.FetchOutcome<ConversionResponse>, from: string, to: string, amount: real, render: real -> string): (x: Service.Exchange<ConversionResponse>)
    ensures !IsSupported(ctl, from) ==> x == Service.Rejected(InvalidBaseCurrency(InvalidCurrencyPrefix + from))
    ensures IsSupported(ctl, from) && !IsSupported(ctl, to) ==> x == Service.Rejected(InvalidBaseCurrency(InvalidCurrencyPrefix + to))
    ensures IsSupported(ctl, from) && IsSupported(ctl, to) && amount < 1.0 ==> x == Service.Rejected(InvalidAmount(AmountMessage))
    ensures IsSupported(ctl, from) && IsSupported(ctl, to) && amount >= 1.0 ==>
      x == Service.ConvertAmount(ctl.currencyService, upstream, from, to, amount, render)
  {
    match ValidateCurrency(ctl, from)
    case Fail(e) => Service.Rejected(e)
    case Pass =>
      match ValidateCurrency(ctl, to)
      case Fail(e) => Service.Rejected(e)
      case Pass =>
        if amount < 1.0 then Service.Rejected(InvalidAmount(AmountMessage))
        else Service.ConvertAmount(ctl.currencyService, upstream, from, to, amount, render)
  }

  // ----------------- properties of the checks -----------------

  /** The check ignores case: a symbol passes exactly when its upper-cased form does. */
  lemma ValidationIgnoresCase(ctl: CurrencyController, c: string)
    ensures ValidateCurrency(ctl, c) == Pass <==> ValidateCurrency(ctl, ToUpperCase(c)) == Pass
  {
    ToUpperCaseIdempotent(c);
  }

  /** Against a table of codes, an accepted symbol is three or four ASCII letters, in any case. */
  lemma SupportedSymbolShape(ctl: CurrencyController, c: string)
    requires IsSymbolTable(ctl.supportedCurrencies) && IsSupported(ctl, c)
    ensures |c| == 3 || |c| == 4
    ensures forall i | 0 <= i < |c| :: IsAsciiLetter(c[i])
  {
    assert IsCode(ToUpperCase(c));
    UpperCaseLettersComeFromLetters(c);
  }

  /** An accepted symbol is four characters long exactly when it spells one of the six four-letter codes. */
  lemma FourLetterSymbols(ctl: CurrencyController, c: string)
    requires HasFourLetterCodes(ctl.supportedCurrencies) && IsSupported(ctl, c)
    ensures |c| == 4 <==> ToUpperCase(c) in FourLetterCodes
  {
    FourLetterCodesAreFourLong();
  }

  /** The six four-letter codes are accepted as they are written. */
  lemma FourLetterCodesAreSupported(ctl: CurrencyController, c: string)
    requires IsSymbolTable(ctl.supportedCurrencies) && HasFourLetterCodes(ctl.supportedCurrencies)
    requires c in FourLetterCodes
    ensures IsSupported(ctl, c) && |c| == 4
  {
    assert c in ctl.supportedCurrencies;
    CodeIsUpperCase(c);
    FourLetterCodesAreFourLong();
  }

  /**
   * An accepted `symbols` parameter holds only commas, trimmable characters and
   * ASCII letters; in particular no `&` that could start another URL parameter.
   */
  lemma {:induction false} AcceptedSymbolsCharacters(ctl: CurrencyController, symbols: string)
    requires IsSymbolTable(ctl.supportedCurrencies)
    requires ValidateSymbols(ctl, SymbolTokens(symbols)) == Pass
    ensures forall k | 0 <= k < |symbols| :: symbols[k] == ',' || IsTrimmable(symbols[k]) || IsAsciiLetter(symbols[k])
    ensures '&' !in symbols
  {
    var tokens := SymbolTokens(symbols);
    SplitCoversText(symbols, ',');
    forall k | 0 <= k < |symbols| && symbols[k] != ',' && !IsTrimmable(symbols[k])
      ensures IsAsciiLetter(symbols[k])
    {
      var i :| 0 <= i < |tokens| && symbols[k] in tokens[i];
      AcceptedTokenCharacter(ctl, tokens[i], symbols[k]);
    }
  }

  /** A character of an accepted token is trimmable or an ASCII letter. */
  lemma AcceptedTokenCharacter(ctl: CurrencyController, token: string, ch: char)
    requires IsSymbolTable(ctl.supportedCurrencies) && IsSupported(ctl, Trim(token))
    requires ch in token
    ensures IsTrimmable(ch) || IsAsciiLetter(ch)
  {
    var t := Trim(token);
    TrimKeepsOthers(token);
    if !IsTrimmable(ch) {
      assert ch in t;
      SupportedSymbolShape(ctl, t);
    }
  }

  /** A non-empty run of commas splits into no tokens at all, so it is accepted. */
  lemma OnlyCommasAreAccepted(ctl: CurrencyController, symbols: string)
    requires symbols != [] && forall k | 0 <= k < |symbols| :: symbols[k] == ','
    ensures ValidateSymbols(ctl, SymbolTokens(symbols)) == Pass
  {
    SplitOfSeparatorsIsEmpty(symbols, ',');
  }

  /** An empty `symbols` is one empty token, which is no code. */
  lemma EmptySymbolsAreRejected(ctl: CurrencyController)
    requires IsSymbolTable(ctl.supportedCurrencies)
    ensures ValidateSymbols(ctl, SymbolTokens("")) == Fail(InvalidBaseCurrency(InvalidCurrencyPrefix))
  {
    var tokens := SymbolTokens("");
    assert tokens == [""];
    assert Trim(tokens[0]) == "" && ToUpperCase("") == "";
    assert !IsCode("");
    assert !IsSupported(ctl, Trim(tokens[0]));
    assert InvalidCurrencyPrefix + "" == InvalidCurrencyPrefix;
  }
}
