/**
 * A request end to end: the controller's checks, the service it forwards to, and
 * the exception handler that turns whatever was thrown into the HTTP response.
 */
module Endpoints {

  import opened Errors
  import opened JavaText
  import opened IsoDate
  import opened Currencies
  import opened Models
  import opened QueryString
  import Service = CurrencyService
  import Controller = CurrencyController
  import Handler = GlobalExceptionHandler

  /** What the client receives: the decoded body with status 200, or the handler's response. */
  datatype Reply<+T> = Success(payload: T) | Failure(response: Handler.ResponseEntity)

  /** The dispatcher: a returned value is the body, a thrown error goes to the handler. */
  function Respond<T>(x: Service.Exchange<T>): Reply<T>
  {
    match x.result
    case Ok(v) => Success(v)
    case Err(e) => Failure(Handler.Handle(e))
  }

  /** A table the controller can hold: codes only, with the six four-letter codes. */
  predicate IsWellFormed(ctl: Controller.CurrencyController)
  {
    IsSymbolTable(ctl.supportedCurrencies) && HasFourLetterCodes(ctl.supportedCurrencies)
  }

  /** What the composed length checks leave: accepted by the table and three characters long. */
  predicate PassesBoth(ctl: Controller.CurrencyController, c: string)
  {
    Controller.IsSupported(ctl, c) && Utf16Length(c) == 3
  }

  /** Of the symbols the controller accepts, the service refuses exactly the four-letter codes. */
  lemma {:induction false} PassesBothUnlessFourLetter(ctl: Controller.CurrencyController, c: string)
    requires IsWellFormed(ctl)
    ensures PassesBoth(ctl, c) <==> Controller.IsSupported(ctl, c) && ToUpperCase(c) !in FourLetterCodes
  {
    if Controller.IsSupported(ctl, c) {
      Controller.SupportedSymbolShape(ctl, c);
      AsciiLettersLength(c);
      Controller.FourLetterSymbols(ctl, c);
    }
  }

  // ----------------- what reaches the upstream -----------------

  /** `/latest` calls the upstream exactly when both checks pass, once, with the service's URL for the base as given. */
  lemma LatestFetches(ctl: Controller.CurrencyController, upstream: string -> Service.FetchOutcome<RatesResponse>, base: string)
    ensures var x := Controller.GetLatestRates(ctl, upstream, base);
      (x.fetched != [] <==> PassesBoth(ctl, base)) &&
      (x.fetched != [] ==> x.fetched == [Service.LatestUrl(ctl.currencyService, base)])
  {
  }

  /** `/historical` calls the upstream exactly when every check of both layers passes. */
  lemma HistoricalFetches(ctl: Controller.CurrencyController, upstream: string -> Service.FetchOutcome<RatesResponse>,
                          base: string, date: string, symbols: string)
    ensures var x := Controller.GetHistoricalRates(ctl, upstream, base, date, symbols);
      (x.fetched != [] <==>
        PassesBoth(ctl, base) && ParseIsoDate(date).Some? &&
        Controller.ValidateSymbols(ctl, Controller.SymbolTokens(symbols)) == Pass) &&
      (x.fetched != [] ==> x.fetched == [Service.HistoricalUrl(ctl.currencyService, base, date, symbols)])
  {
  }

  /** `/convert` calls the upstream exactly when both symbols pass both layers and the amount is at least 1. */
  lemma ConvertFetches(ctl: Controller.CurrencyController, upstream: string -> Service.FetchOutcome<ConversionResponse>,
                       from: string, to: string, amount: real, render: real -> string)
    ensures var x := Controller.ConvertAmount(ctl, upstream, from, to, amount, render);
      (x.fetched != [] <==> PassesBoth(ctl, from) && PassesBoth(ctl, to) && amount >= 1.0) &&
      (x.fetched != [] ==> x.fetched == [Service.ConvertUrl(ctl.currencyService, from, to, render(amount))])
  {
  }

  /** The four-letter codes pass the controller and are then refused by the service, before any call upstream. */
  lemma FourLetterCodesAreRefusedByTheService(ctl: Controller.CurrencyController, upstream: string -> Service.FetchOutcome<RatesResponse>, c: string)
    requires IsWellFormed(ctl) && c in FourLetterCodes
    ensures Controller.ValidateCurrency(ctl, c) == Pass
    ensures Controller.GetLatestRates(ctl, upstream, c) == Service.Rejected(InvalidBaseCurrency(Service.CurrencyLengthMessage))
  {
    Controller.FourLetterCodesAreSupported(ctl, c);
    Controller.SupportedSymbolShape(ctl, c);
    AsciiLettersLength(c);
  }

  // ----------------- the two date checks -----------------

  /**
   * A date the controller's calendar check accepts also has the shape the service's
   * pattern demands. This holds for the unsigned four-digit years modelled here;
   * the signed years `LocalDate.parse` also accepts would fail the pattern.
   */
  lemma CalendarDatesPassTheService(s: string)
    requires Controller.ValidateDate(s) == Pass
    ensures Service.ValidateDate(s) == Pass
  {
  }

  /** `2023-02-30` has the service's shape but names no calendar day. */
  lemma ShapeIsNotCalendar()
    ensures Service.ValidateDate("2023-02-30") == Pass
    ensures Controller.ValidateDate("2023-02-30") == Fail(InvalidDate(Controller.InvalidDatePrefix + "2023-02-30"))
  {
    NonexistentFebruaryDaysAreRejected();
  }

  /**
   * For dates with an unsigned four-digit year, a date the service refuses is refused
   * earlier by the controller, so the service's date message does not reach a client.
   */
  lemma {:induction false} ServiceDateMessageNeverSurfaces(ctl: Controller.CurrencyController, upstream: string -> Service.FetchOutcome<RatesResponse>,
                                                          base: string, date: string, symbols: string)
    ensures Controller.GetHistoricalRates(ctl, upstream, base, date, symbols).result != Err(InvalidDate(Service.DateShapeMessage))
  {
    var tokens := Controller.SymbolTokens(symbols);
    if Controller.IsSupported(ctl, base) && ParseIsoDate(date).None? {
      DateMessagesDiffer(date);
    } else if Controller.IsSupported(ctl, base) && Controller.ValidateSymbols(ctl, tokens) != Pass {
      var i := Controller.FirstFailingToken(ctl, tokens);
    }
  }

  /** The controller's date message is longer than the service's, so the two never coincide. */
  lemma DateMessagesDiffer(date: string)
    ensures Controller.InvalidDatePrefix + date != Service.DateShapeMessage
  {
    assert |Controller.InvalidDatePrefix| == 37 && |Service.DateShapeMessage| == 33;
  }

  /** An amount the service refuses is refused earlier by the controller, with the controller's message. */
  lemma ServiceAmountMessageNeverSurfaces(ctl: Controller.CurrencyController, upstream: string -> Service.FetchOutcome<ConversionResponse>,
                                          from: string, to: string, amount: real, render: real -> string)
    ensures Controller.ConvertAmount(ctl, upstream, from, to, amount, render).result != Err(InvalidAmount(Service.AmountMessage))
  {
    assert |Controller.AmountMessage| == 26 && |Service.AmountMessage| == 29;
  }

  // ----------------- the responses -----------------

  /** A request that is refused by a check gets status 400 and the check's message. */
  lemma RejectionsAreBadRequests<T>(x: Service.Exchange<T>, e: ApiError)
    requires x == Service.Rejected(e) && !e.ApiCall?
    ensures Respond(x) == Failure(Handler.ResponseEntity(Handler.BadRequest, e.message))
  {
  }

  /** A request that reaches the upstream gets the upstream body, or 503 with the one fixed message whatever went wrong. */
  lemma {:induction false} FetchedReplies<T>(upstream: string -> Service.FetchOutcome<T>, url: string)
    ensures upstream(url).Fetched? ==> Respond(Service.Fetch(upstream, url)) == Success(upstream(url).payload)
    ensures upstream(url).FetchFailed? ==>
      Respond(Service.Fetch(upstream, url)) == Failure(Handler.ResponseEntity(Handler.ServiceUnavailable, Service.ApiCallMessage))
  {
  }

  /** Every `/latest` response: 400 with the first check's message, the upstream body, or 503. */
  lemma LatestReplies(ctl: Controller.CurrencyController, upstream: string -> Service.FetchOutcome<RatesResponse>, base: string)
    ensures var r := Respond(Controller.GetLatestRates(ctl, upstream, base));
      var url := Service.LatestUrl(ctl.currencyService, base);
      (!Controller.IsSupported(ctl, base) ==>
        r == Failure(Handler.ResponseEntity(Handler.BadRequest, Controller.InvalidCurrencyPrefix + base))) &&
      (Controller.IsSupported(ctl, base) && Utf16Length(base) != 3 ==>
        r == Failure(Handler.ResponseEntity(Handler.BadRequest, Service.CurrencyLengthMessage))) &&
      (PassesBoth(ctl, base) && upstream(url).Fetched? ==> r == Success(upstream(url).payload)) &&
      (PassesBoth(ctl, base) && upstream(url).FetchFailed? ==>
        r == Failure(Handler.ResponseEntity(Handler.ServiceUnavailable, Service.ApiCallMessage)))
  {
    FetchedReplies(upstream, Service.LatestUrl(ctl.currencyService, base));
  }

  /** Only a call to the upstream can end in 503: every refused request is a 400. */
  lemma {:induction false} UnfetchedRequestsAreBadRequests(ctl: Controller.CurrencyController,
                                                          upstream: string -> Service.FetchOutcome<ConversionResponse>,
                                                          from: string, to: string, amount: real, render: real -> string)
    ensures var x := Controller.ConvertAmount(ctl, upstream, from, to, amount, render);
      x.fetched == [] ==> Respond(x).Failure? && Handler.Code(Respond(x).response.status) == 400
  {
    var x := Controller.ConvertAmount(ctl, upstream, from, to, amount, render);
    if x.fetched == [] {
      assert x.result.Err? && !x.result.error.ApiCall?;
    }
  }

  // ----------------- what the upstream reads -----------------

  /** The upstream reads back the two `/latest` parameters unchanged, whatever base the checks let through. */
  lemma LatestQueryReadsBack(ctl: Controller.CurrencyController, upstream: string -> Service.FetchOutcome<RatesResponse>, base: string)
    requires IsWellFormed(ctl)
    requires Service.IsSafeEndpoint(ctl.currencyService.latestUrl, ctl.currencyService.apiKey)
    requires PassesBoth(ctl, base)
    ensures var x := Controller.GetLatestRates(ctl, upstream, base);
      |x.fetched| == 1 &&
      ParseQuery(QueryOf(x.fetched[0])) == [Param("base", base), Param("api_key", ctl.currencyService.apiKey)]
  {
    LatestFetches(ctl, upstream, base);
    LettersAreSafe(ctl, base);
    Service.LatestUrlParameters(ctl.currencyService, base);
  }

  /**
   * The upstream reads back the four `/historical` parameters unchanged: no accepted
   * base, date or symbol list can smuggle in an `&`.
   */
  lemma HistoricalQueryReadsBack(ctl: Controller.CurrencyController, upstream: string -> Service.FetchOutcome<RatesResponse>,
                                 base: string, date: string, symbols: string)
    requires IsWellFormed(ctl)
    requires Service.IsSafeEndpoint(ctl.currencyService.historicalUrl, ctl.currencyService.apiKey)
    requires PassesBoth(ctl, base) && ParseIsoDate(date).Some?
    requires Controller.ValidateSymbols(ctl, Controller.SymbolTokens(symbols)) == Pass
    ensures var x := Controller.GetHistoricalRates(ctl, upstream, base, date, symbols);
      |x.fetched| == 1 &&
      ParseQuery(QueryOf(x.fetched[0])) ==
        [Param("base", base), Param("date", date), Param("symbols", symbols), Param("api_key", ctl.currencyService.apiKey)]
  {
    HistoricalFetches(ctl, upstream, base, date, symbols);
    LettersAreSafe(ctl, base);
    DatesAreSafe(date);
    Controller.AcceptedSymbolsCharacters(ctl, symbols);
    Service.HistoricalUrlParameters(ctl.currencyService, base, date, symbols);
  }

  /** The upstream reads back the four `/convert` parameters unchanged when the rendered amount holds no `&`. */
  lemma ConvertQueryReadsBack(ctl: Controller.CurrencyController, upstream: string -> Service.FetchOutcome<ConversionResponse>,
                              from: string, to: string, amount: real, render: real -> string)
    requires IsWellFormed(ctl)
    requires Service.IsSafeEndpoint(ctl.currencyService.convertUrl, ctl.currencyService.apiKey)
    requires IsSafeValue(render(amount))
    requires PassesBoth(ctl, from) && PassesBoth(ctl, to) && amount >= 1.0
    ensures var x := Controller.ConvertAmount(ctl, upstream, from, to, amount, render);
      |x.fetched| == 1 &&
      ParseQuery(QueryOf(x.fetched[0])) ==
        [Param("from", from), Param("to", to), Param("amount", render(amount)), Param("api_key", ctl.currencyService.apiKey)]
  {
    ConvertFetches(ctl, upstream, from, to, amount, render);
    LettersAreSafe(ctl, from);
    LettersAreSafe(ctl, to);
    Service.ConvertUrlParameters(ctl.currencyService, from, to, render(amount));
  }

  /** An accepted symbol is letters only, so it holds no `&`. */
  lemma LettersAreSafe(ctl: Controller.CurrencyController, c: string)
    requires IsWellFormed(ctl) && Controller.IsSupported(ctl, c)
    ensures IsSafeValue(c)
  {
    Controller.SupportedSymbolShape(ctl, c);
  }

  /** A date the calendar check accepts is digits and hyphens, so it holds no `&`. */
  lemma DatesAreSafe(s: string)
    requires ParseIsoDate(s).Some?
    ensures IsSafeValue(s)
  {
    assert forall i | 0 <= i < |s| :: IsDigit(s[i]) || s[i] == '-';
  }
}
