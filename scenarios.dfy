/**
 * The controller's test cases, and the splitting examples of the `symbols`
 * parameter. They hold for every controller whose table has the codes the tests
 * use, and the controller built with the `Set.of(...)` literal is one of them.
 */
module Scenarios {

  import opened Errors
  import opened JavaText
  import opened IsoDate
  import opened Currencies
  import opened Models
  import Service = CurrencyService
  import Controller = CurrencyController

  /** A table of codes in which `USD`, `EUR` and `GBP` are accepted and `XXX` is not. */
  predicate HoldsTestCodes(ctl: Controller.CurrencyController)
  {
    IsSymbolTable(ctl.supportedCurrencies) && HasFourLetterCodes(ctl.supportedCurrencies) &&
    "USD" in ctl.supportedCurrencies && "EUR" in ctl.supportedCurrencies && "GBP" in ctl.supportedCurrencies &&
    "XXX" !in ctl.supportedCurrencies
  }

  /** The constructed controller, around any service, has the test codes. */
  lemma NewControllerHoldsTestCodes(svc: Service.Config)
    ensures HoldsTestCodes(Controller.NewCurrencyController(svc))
  {
    ExampleCodesAreListed();
    XXXIsNotSupported();
  }

  /** The test codes as the controller's check sees them: `usd` passes as `USD` does. */
  lemma TestCodesAreChecked(ctl: Controller.CurrencyController)
    requires HoldsTestCodes(ctl)
    ensures Controller.IsSupported(ctl, "USD") && Controller.IsSupported(ctl, "usd")
    ensures Controller.IsSupported(ctl, "EUR") && Controller.IsSupported(ctl, "GBP")
    ensures !Controller.IsSupported(ctl, "XXX")
  {
    LowerCaseUsd();
    CodeIsUpperCase("USD");
    CodeIsUpperCase("EUR");
    CodeIsUpperCase("GBP");
    CodeIsUpperCase("XXX");
  }

  /** The test codes are three UTF-16 code units long, as the service's check demands. */
  lemma TestCodesAreThreeUnits()
    ensures Utf16Length("USD") == 3 && Utf16Length("usd") == 3 && Utf16Length("EUR") == 3
  {
    AsciiLettersLength("USD");
    AsciiLettersLength("usd");
    AsciiLettersLength("EUR");
  }

  /** `usd` upper-cases to `USD`. */
  lemma LowerCaseUsd()
    ensures ToUpperCase("usd") == "USD"
  {
    assert ToUpperCase("usd") == [UpperChar('u'), UpperChar('s'), UpperChar('d')];
  }

  /**
   * The service counts UTF-16 code units: `€` is one unit and `😀` two, so this
   * text of two characters passes the service's length check.
   */
  lemma ServiceCountsUtf16Units()
    ensures |"€😀"| == 2 && Utf16Length("€😀") == 3
    ensures Service.ValidateCurrency("€😀") == Pass
  {
    assert "€😀"[1..] == "😀" && "😀"[1..] == "";
  }

  // ----------------- splitting `symbols` -----------------

  /** `"EUR,GBP"` splits into its two codes. */
  lemma TokensOfTwoCodes()
    ensures Controller.SymbolTokens("EUR,GBP") == ["EUR", "GBP"]
  {
    assert "EUR,GBP" == "EUR" + [','] + "GBP";
    SplitTwo("EUR", "GBP", ',');
  }

  /** A trailing comma leaves a trailing empty piece, which `split` drops. */
  lemma TokensOfTrailingComma()
    ensures Controller.SymbolTokens("EUR,") == ["EUR"]
  {
    assert "EUR," == "EUR" + [','];
    SplitTrailing("EUR", ',');
  }

  /** Spaces around the codes stay in the tokens; trimming removes them later. */
  lemma TokensOfSpacedCodes()
    ensures Controller.SymbolTokens(" EUR , GBP") == [" EUR ", " GBP"]
  {
    assert " EUR , GBP" == " EUR " + [','] + " GBP";
    SplitTwo(" EUR ", " GBP", ',');
  }

  /** A leading comma gives an empty first token, which is kept. */
  lemma TokensOfLeadingComma()
    ensures Controller.SymbolTokens(",EUR") == ["", "EUR"]
  {
    assert ",EUR" == "" + [','] + "EUR";
    SplitTwo("", "EUR", ',');
  }

  /** Two commas in a row give an empty token between them, which is kept. */
  lemma TokensOfDoubleComma()
    ensures Controller.SymbolTokens("EUR,,GBP") == ["EUR", "", "GBP"]
  {
    assert "EUR,,GBP" == "EUR" + [','] + ("" + [','] + "GBP");
    SplitThree("EUR", "", "GBP", ',');
  }

  /** A text without commas is the one token. */
  lemma TokensOfOneCode()
    ensures Controller.SymbolTokens("XXX") == ["XXX"]
  {
    assert ',' !in "XXX";
  }

  /** The trimmed forms of the spaced tokens are the codes. */
  lemma TrimmedSpacedCodes()
    ensures Trim(" EUR ") == "EUR" && Trim(" GBP") == "GBP"
  {
    assert TrimStart(" EUR ") == "EUR " && TrimEnd("EUR ") == "EUR";
    assert TrimStart(" GBP") == "GBP" && TrimEnd("GBP") == "GBP";
  }

  /** Tokens without spaces are their own trimmed forms. */
  lemma TrimmedCodes()
    ensures Trim("EUR") == "EUR" && Trim("GBP") == "GBP" && Trim("XXX") == "XXX" && Trim("") == ""
  {
    TrimKeepsUntrimmable("EUR");
    TrimKeepsUntrimmable("GBP");
    TrimKeepsUntrimmable("XXX");
  }

  /** `"EUR,GBP"` is accepted. */
  lemma TwoCodesAccepted(ctl: Controller.CurrencyController)
    requires HoldsTestCodes(ctl)
    ensures Controller.ValidateSymbols(ctl, Controller.SymbolTokens("EUR,GBP")) == Pass
  {
    TestCodesAreChecked(ctl);
    TokensOfTwoCodes();
    TrimmedCodes();
  }

  /** `"EUR,"` is accepted: the empty piece after the comma is dropped. */
  lemma TrailingCommaAccepted(ctl: Controller.CurrencyController)
    requires HoldsTestCodes(ctl)
    ensures Controller.ValidateSymbols(ctl, Controller.SymbolTokens("EUR,")) == Pass
  {
    TestCodesAreChecked(ctl);
    TokensOfTrailingComma();
    TrimmedCodes();
  }

  /** `" EUR , GBP"` is accepted: each token is trimmed before the check. */
  lemma SpacedCodesAccepted(ctl: Controller.CurrencyController)
    requires HoldsTestCodes(ctl)
    ensures Controller.ValidateSymbols(ctl, Controller.SymbolTokens(" EUR , GBP")) == Pass
  {
    TestCodesAreChecked(ctl);
    TokensOfSpacedCodes();
    TrimmedSpacedCodes();
  }

  /** `",EUR"` is refused on its empty first token. */
  lemma LeadingCommaRejected(ctl: Controller.CurrencyController)
    requires HoldsTestCodes(ctl)
    ensures Controller.ValidateSymbols(ctl, Controller.SymbolTokens(",EUR")) == Fail(InvalidBaseCurrency(Controller.InvalidCurrencyPrefix))
  {
    TokensOfLeadingComma();
    EmptyTokenIsRejected(ctl);
  }

  /** `"EUR,,GBP"` is refused on the empty token between the commas, after `EUR` has passed. */
  lemma DoubleCommaRejected(ctl: Controller.CurrencyController)
    requires HoldsTestCodes(ctl)
    ensures Controller.ValidateSymbols(ctl, Controller.SymbolTokens("EUR,,GBP")) == Fail(InvalidBaseCurrency(Controller.InvalidCurrencyPrefix))
  {
    TestCodesAreChecked(ctl);
    TokensOfDoubleComma();
    TrimmedCodes();
    EmptyTokenIsRejected(ctl);
  }

  /** `"XXX"` is refused, and the message names it. */
  lemma UnknownSymbolRejected(ctl: Controller.CurrencyController)
    requires HoldsTestCodes(ctl)
    ensures Controller.ValidateSymbols(ctl, Controller.SymbolTokens("XXX")) == Fail(InvalidBaseCurrency(Controller.InvalidCurrencyPrefix + "XXX"))
  {
    TestCodesAreChecked(ctl);
    TokensOfOneCode();
    TrimmedCodes();
  }

  /** The empty token is no code. */
  lemma EmptyTokenIsRejected(ctl: Controller.CurrencyController)
    requires IsSymbolTable(ctl.supportedCurrencies)
    ensures Controller.ValidateCurrency(ctl, Trim("")) == Fail(InvalidBaseCurrency(Controller.InvalidCurrencyPrefix))
  {
    assert Trim("") == "" && ToUpperCase("") == "";
    assert !IsCode("");
    assert Controller.InvalidCurrencyPrefix + "" == Controller.InvalidCurrencyPrefix;
  }

  // ----------------- the controller's tests -----------------

  /** A valid base is forwarded unchanged, and the service fetches the latest rates for it. */
  lemma LatestRatesForValidBase(ctl: Controller.CurrencyController, upstream: string -> Service.FetchOutcome<RatesResponse>)
    requires HoldsTestCodes(ctl)
    ensures Controller.GetLatestRates(ctl, upstream, "USD") == Service.Fetch(upstream, Service.LatestUrl(ctl.currencyService, "USD"))
  {
    TestCodesAreChecked(ctl);
    TestCodesAreThreeUnits();
  }

  /** A lower-case base passes, and the service receives it still in lower case. */
  lemma LatestRatesForLowerCaseBase(ctl: Controller.CurrencyController, upstream: string -> Service.FetchOutcome<RatesResponse>)
    requires HoldsTestCodes(ctl)
    ensures Controller.GetLatestRates(ctl, upstream, "usd") == Service.Fetch(upstream, Service.LatestUrl(ctl.currencyService, "usd"))
  {
    TestCodesAreChecked(ctl);
    TestCodesAreThreeUnits();
  }

  /** An unknown base is refused, and the message names it. */
  lemma LatestRatesForInvalidBase(ctl: Controller.CurrencyController, upstream: string -> Service.FetchOutcome<RatesResponse>)
    requires HoldsTestCodes(ctl)
    ensures Controller.GetLatestRates(ctl, upstream, "XXX") == Service.Rejected(InvalidBaseCurrency(Controller.InvalidCurrencyPrefix + "XXX"))
  {
    TestCodesAreChecked(ctl);
  }

  /** `USDC` passes the controller's table but not the service's length check, so nothing is fetched. */
  lemma LatestRatesForFourLetterCode(ctl: Controller.CurrencyController, upstream: string -> Service.FetchOutcome<RatesResponse>)
    requires HoldsTestCodes(ctl)
    ensures Controller.GetLatestRates(ctl, upstream, "USDC") == Service.Rejected(InvalidBaseCurrency(Service.CurrencyLengthMessage))
  {
    Controller.FourLetterCodesAreSupported(ctl, "USDC");
  }

  /** A valid historical request is forwarded with `symbols` as the whole, unsplit text. */
  lemma HistoricalRatesValid(ctl: Controller.CurrencyController, upstream: string -> Service.FetchOutcome<RatesResponse>)
    requires HoldsTestCodes(ctl)
    ensures Controller.GetHistoricalRates(ctl, upstream, "USD", "2023-01-01", "EUR,GBP") ==
      Service.Fetch(upstream, Service.HistoricalUrl(ctl.currencyService, "USD", "2023-01-01", "EUR,GBP"))
  {
    TestCodesAreChecked(ctl);
    TestCodesAreThreeUnits();
    NewYear2023IsAccepted();
    TwoCodesAccepted(ctl);
  }

  /** A spaced list passes on its trimmed tokens, and the service still gets it with its spaces. */
  lemma SpacedSymbolsAreForwardedRaw(ctl: Controller.CurrencyController, upstream: string -> Service.FetchOutcome<RatesResponse>)
    requires HoldsTestCodes(ctl)
    ensures Controller.GetHistoricalRates(ctl, upstream, "USD", "2023-01-01", " EUR , GBP") ==
      Service.Fetch(upstream, Service.HistoricalUrl(ctl.currencyService, "USD", "2023-01-01", " EUR , GBP"))
  {
    TestCodesAreChecked(ctl);
    TestCodesAreThreeUnits();
    NewYear2023IsAccepted();
    SpacedCodesAccepted(ctl);
  }

  /** The compact date `20230101` is refused by the calendar check. */
  lemma HistoricalRatesInvalidDate(ctl: Controller.CurrencyController, upstream: string -> Service.FetchOutcome<RatesResponse>)
    requires HoldsTestCodes(ctl)
    ensures Controller.GetHistoricalRates(ctl, upstream, "USD", "20230101", "EUR") ==
      Service.Rejected(InvalidDate(Controller.InvalidDatePrefix + "20230101"))
  {
    TestCodesAreChecked(ctl);
    CompactFormIsRejected();
  }

  /** An unknown symbol is refused after the base and the date have passed. */
  lemma HistoricalRatesInvalidSymbol(ctl: Controller.CurrencyController, upstream: string -> Service.FetchOutcome<RatesResponse>)
    requires HoldsTestCodes(ctl)
    ensures Controller.GetHistoricalRates(ctl, upstream, "USD", "2023-01-01", "XXX") ==
      Service.Rejected(InvalidBaseCurrency(Controller.InvalidCurrencyPrefix + "XXX"))
  {
    TestCodesAreChecked(ctl);
    NewYear2023IsAccepted();
    UnknownSymbolRejected(ctl);
  }

  /** A valid conversion is forwarded with the amount as given. */
  lemma ConvertValid(ctl: Controller.CurrencyController, upstream: string -> Service.FetchOutcome<ConversionResponse>, render: real -> string)
    requires HoldsTestCodes(ctl)
    ensures Controller.ConvertAmount(ctl, upstream, "USD", "EUR", 10.0, render) ==
      Service.Fetch(upstream, Service.ConvertUrl(ctl.currencyService, "USD", "EUR", render(10.0)))
  {
    TestCodesAreChecked(ctl);
    TestCodesAreThreeUnits();
  }

  /** An amount of 0 is refused with the controller's message. */
  lemma ConvertInvalidAmount(ctl: Controller.CurrencyController, upstream: string -> Service.FetchOutcome<ConversionResponse>, render: real -> string)
    requires HoldsTestCodes(ctl)
    ensures Controller.ConvertAmount(ctl, upstream, "USD", "EUR", 0.0, render) == Service.Rejected(InvalidAmount("Amount must be at least 1."))
  {
    TestCodesAreChecked(ctl);
    TestCodesAreThreeUnits();
  }

  /** An unknown `from` is refused before `to` and the amount are looked at. */
  lemma ConvertInvalidCurrency(ctl: Controller.CurrencyController, upstream: string -> Service.FetchOutcome<ConversionResponse>, render: real -> string)
    requires HoldsTestCodes(ctl)
    ensures Controller.ConvertAmount(ctl, upstream, "XXX", "EUR", 10.0, render) ==
      Service.Rejected(InvalidBaseCurrency(Controller.InvalidCurrencyPrefix + "XXX"))
  {
    TestCodesAreChecked(ctl);
  }
}
