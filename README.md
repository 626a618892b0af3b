# Currency converter backend: request validation and request building

This project models the request pipeline of a Spring currency-converter backend.
The backend has three endpoints: `GET /api/currency/latest`, `/historical` and `/convert`.
Each request goes through four stages:

1. **Controller checks.** `CurrencyController` checks the parameters:
   - a symbol must be in a fixed set of 226 codes, compared case-insensitively;
   - a date must be a real calendar day;
   - the comma-separated `symbols` list is split and each trimmed token is checked;
   - an amount must be at least 1.
2. **Service checks and URL.** The `CurrencyService` runs its own, weaker checks:
   - a symbol must be three UTF-16 code units long, as `String.length()` counts;
   - a date must have the shape `dddd-dd-dd`;
   - an amount must be at least 1.

   It then builds the upstream URL with `String.format` and calls the upstream API.
3. **Upstream failures.** Every failure of the upstream API becomes one `ApiCallException`.
4. **Error responses.** `GlobalExceptionHandler` turns each exception into a status and a body.

The model is written as datatypes, functions and lemmas, like the source code it follows.

Modules:
- `Errors`: the four exception classes become one `ApiError` datatype. A throwing call becomes a `Result`, and a throwing `void` validator becomes an `Outcome`.
- `JavaText`: the parts of `java.lang.String` the code relies on:
  - `length()`, in UTF-16 code units;
  - `toUpperCase`, on ASCII only;
  - `trim`;
  - `split(",")`, which drops trailing empty pieces;
  - `String.format` with `%s` conversions.
- `IsoDate`: `LocalDate.parse` on `YYYY-MM-DD`, with the Gregorian month lengths and leap-year rule. It also formats a date and proves that parsing and formatting round-trip.
- `Currencies`: the `Set.of(...)` literal, kept block by block in source order. The literal has 226 codes of three or four letters, as written in the code. The module proves that the literal has no duplicates, that it has 226 elements, which codes it holds, and that `XXX` is not one of them.
- `CurrencyController`: the controller as a record of its service configuration and its symbol table. It holds the three validators, the token loop and the three endpoints.
- `CurrencyService`: the record of the injected configuration, the three validators, the three URL templates, `fetchFromApi` and the three operations.
- `GlobalExceptionHandler`: the total map from error to response.
- `QueryString`: a reference reading of a URL as `endpoint?name=value&...`. The URL read-back lemmas use it to check what the upstream receives.
- `Endpoints`: the controller, the service and the handler composed end to end.
- `Scenarios`: the controller's unit tests, and the splitting examples of `symbols`.

Two design choices matter when reading the model:
- **The upstream is a parameter.** The upstream API is a function from URL to outcome (`upstream: string -> FetchOutcome<T>`). Each operation returns an `Exchange`: its result, together with the list of URLs it sent upstream. So "the service is never called" means `fetched == []`.
- **Lemmas work for any table.** The general lemmas hold for any controller whose table has the shape the literal has (`IsSymbolTable`, `HasFourLetterCodes`). The constructed controller `NewCurrencyController` is proved to have that shape.

## Model

| member | source | states |
|---|---|---|
| JavaText.Utf16Length | backend/src/main/java/com/noel/currency_converter/service/CurrencyService.java:84 | `length()` counts one code unit per character up to U+FFFF and two above it, so it lies between the number of characters and twice that |
| JavaText.Utf16LengthIsSize | backend/src/main/java/com/noel/currency_converter/service/CurrencyService.java:84 | the length equals the number of characters exactly when no character lies above U+FFFF |
| JavaText.AsciiLettersLength | backend/src/main/java/com/noel/currency_converter/service/CurrencyService.java:84 | a text of ASCII letters has one code unit per character |
| JavaText.ToUpperCase | backend/src/main/java/com/noel/currency_converter/controller/CurrencyController.java:83 | the result has the input's length and, at each position, the ASCII upper-case form of the input's character |
| JavaText.ToUpperCaseIdempotent | backend/src/main/java/com/noel/currency_converter/controller/CurrencyController.java:83 | upper-casing an upper-cased text changes nothing |
| JavaText.UpperCaseLettersComeFromLetters | backend/src/main/java/com/noel/currency_converter/controller/CurrencyController.java:83 | with ASCII upper-casing, a text whose upper-cased form is all `A`..`Z` consists of ASCII letters of either case |
| JavaText.TrimStartCutsTrimmable | backend/src/main/java/com/noel/currency_converter/controller/CurrencyController.java:61 | stripping the start keeps a suffix and removes only characters at or below U+0020 |
| JavaText.TrimEndCutsTrimmable | backend/src/main/java/com/noel/currency_converter/controller/CurrencyController.java:61 | stripping the end keeps a prefix and removes only characters at or below U+0020 |
| JavaText.Trim | backend/src/main/java/com/noel/currency_converter/controller/CurrencyController.java:61 | `trim()` never lengthens the text, and a non-empty result starts and ends above U+0020 |
| JavaText.TrimKeepsOthers | backend/src/main/java/com/noel/currency_converter/controller/CurrencyController.java:61 | every character of the token above U+0020 survives trimming |
| JavaText.TrimKeepsUntrimmable | backend/src/main/java/com/noel/currency_converter/controller/CurrencyController.java:61 | a text with no trimmable character at either end is its own trimmed form |
| JavaText.SplitAll | backend/src/main/java/com/noel/currency_converter/controller/CurrencyController.java:60 | splitting at every comma gives at least one piece, none holding a comma |
| JavaText.JoinSplitAll | backend/src/main/java/com/noel/currency_converter/controller/CurrencyController.java:60 | joining the pieces with the separator gives the text back |
| JavaText.SplitAllJoin | backend/src/main/java/com/noel/currency_converter/controller/CurrencyController.java:60 | splitting a join of separator-free pieces gives those pieces back |
| JavaText.SplitAllPrefix | backend/src/main/java/com/noel/currency_converter/controller/CurrencyController.java:60 | a separator-free head followed by the separator splits off as one piece |
| JavaText.SplitAllNoSeparator | backend/src/main/java/com/noel/currency_converter/controller/CurrencyController.java:60 | a text without the separator is one piece |
| JavaText.DropTrailingEmpty | backend/src/main/java/com/noel/currency_converter/controller/CurrencyController.java:60 | keeps a prefix of the pieces whose last one is non-empty, and drops only empty pieces |
| JavaText.Split | backend/src/main/java/com/noel/currency_converter/controller/CurrencyController.java:60 | `split(",")`: no token holds a comma; a text without a comma is its own single token; otherwise the last token is non-empty |
| JavaText.SplitIsTrimmedSplitAll | backend/src/main/java/com/noel/currency_converter/controller/CurrencyController.java:60 | the tokens are the pieces of the full split up to where only empty pieces remain |
| JavaText.SplitCoversText | backend/src/main/java/com/noel/currency_converter/controller/CurrencyController.java:60 | every character of the list is a comma or a character of some token |
| JavaText.SplitTwo | backend/src/main/java/com/noel/currency_converter/controller/CurrencyController.java:60 | `a,b` with non-empty `b` splits into `a` and `b` |
| JavaText.SplitTrailing | backend/src/main/java/com/noel/currency_converter/controller/CurrencyController.java:60 | `a,` with non-empty `a` splits into `a` alone |
| JavaText.SplitThree | backend/src/main/java/com/noel/currency_converter/controller/CurrencyController.java:60 | `a,b,c` with non-empty `c` splits into `a`, `b` and `c`, empty `b` kept |
| JavaText.SplitOfSeparatorsIsEmpty | backend/src/main/java/com/noel/currency_converter/controller/CurrencyController.java:60 | a non-empty text of commas only splits into no tokens at all |
| JavaText.FormatLiteralPrefix | backend/src/main/java/com/noel/currency_converter/service/CurrencyService.java:59 | literal text without `%` in front of a format string is copied unchanged and adds no conversion |
| JavaText.FormatFillsTemplate | backend/src/main/java/com/noel/currency_converter/service/CurrencyService.java:67-68 | `String.format` on literal pieces joined by `%s` writes each argument verbatim between its two pieces |
| IsoDate.DaysInMonth | backend/src/main/java/com/noel/currency_converter/controller/CurrencyController.java:90 | a month has 28 to 31 days: 29 exactly for February of a leap year, 28 for February otherwise, 30 exactly for April, June, September and November |
| IsoDate.FormatIsoDate | backend/src/main/java/com/noel/currency_converter/controller/CurrencyController.java:90 | the printed form of a date has the shape `dddd-dd-dd` |
| IsoDate.ParseIsoDate | backend/src/main/java/com/noel/currency_converter/controller/CurrencyController.java:90 | `LocalDate.parse` refuses a text exactly when it is not of the shape `dddd-dd-dd` or names no calendar day; an accepted text is a calendar day with a four-digit year, printed exactly as given |
| IsoDate.FormatFields | backend/src/main/java/com/noel/currency_converter/controller/CurrencyController.java:90 | printing the fields read from a text of the date shape gives the text back |
| IsoDate.FieldsOfFormat | backend/src/main/java/com/noel/currency_converter/controller/CurrencyController.java:90 | reading the fields of a printed date gives the date back |
| IsoDate.ParseFormatRoundTrip | backend/src/main/java/com/noel/currency_converter/controller/CurrencyController.java:90 | every calendar day with a four-digit year is parsed back from its printed form |
| IsoDate.ParseIsoDateCharacterisation | backend/src/main/java/com/noel/currency_converter/controller/CurrencyController.java:88-94 | parsing gives `d` exactly when `d` is a calendar day with a four-digit year and the text is its printed form |
| IsoDate.CompactFormIsRejected | backend/src/test/java/com/noel/currency_converter/CurrencyControllerTest.java:56-59 | `20230101` is not a date |
| IsoDate.NonexistentFebruaryDaysAreRejected | backend/src/main/java/com/noel/currency_converter/controller/CurrencyController.java:90 | `2023-02-30` and `2023-02-29` are not dates |
| IsoDate.OutOfRangeFieldsAreRejected | backend/src/main/java/com/noel/currency_converter/controller/CurrencyController.java:90 | `2023-04-31` and `2023-13-01` are not dates |
| IsoDate.LeapDayIsAccepted | backend/src/main/java/com/noel/currency_converter/controller/CurrencyController.java:90 | `2024-02-29` is a date |
| IsoDate.NewYear2023IsAccepted | backend/src/test/java/com/noel/currency_converter/CurrencyControllerTest.java:52 | `2023-01-01` is a date |
| Currencies.SupportedCurrencyListHasNoDuplicates | backend/src/main/java/com/noel/currency_converter/controller/CurrencyController.java:24-42 | no code is listed twice, so `Set.of` accepts the literal |
| Currencies.SupportedCurrencyCount | backend/src/main/java/com/noel/currency_converter/controller/CurrencyController.java:24-42 | the literal lists 226 codes and the set holds 226 |
| Currencies.NoDuplicatesCount | backend/src/main/java/com/noel/currency_converter/controller/CurrencyController.java:24-42 | a list without duplicates has as many distinct elements as entries |
| Currencies.SupportedCurrencyListHasCodes | backend/src/main/java/com/noel/currency_converter/controller/CurrencyController.java:24-42 | every listed symbol is three or four letters `A`..`Z`, and the four-letter ones are USDC, USDP, DOGE, EURC, LINK and LUNA |
| Currencies.FourLetterCodesAreListed | backend/src/main/java/com/noel/currency_converter/controller/CurrencyController.java:27-37 | the six four-letter codes are all in the set |
| Currencies.FourLetterCodesAreFourLong | backend/src/main/java/com/noel/currency_converter/controller/CurrencyController.java:27-37 | the six four-letter codes have four characters |
| Currencies.ExampleCodesAreListed | backend/src/main/java/com/noel/currency_converter/controller/CurrencyController.java:27-34 | USD, EUR and GBP are in the set |
| Currencies.XXXIsNotSupported | backend/src/main/java/com/noel/currency_converter/controller/CurrencyController.java:24-42 | XXX is not in the set |
| Currencies.CodeIsUpperCase | backend/src/main/java/com/noel/currency_converter/controller/CurrencyController.java:83 | a code is its own upper-cased form |
| Currencies.SupportedCurrenciesAreCodes | backend/src/main/java/com/noel/currency_converter/controller/CurrencyController.java:24-42 | every member of the set is a code equal to its upper-cased form, and it is four long exactly when it is one of the six four-letter codes |
| Currencies.SupportedCodesAreCodes | backend/src/main/java/com/noel/currency_converter/controller/CurrencyController.java:24-42 | every member is a code equal to its upper-cased form |
| Currencies.SupportedCurrenciesIsSymbolTable | backend/src/main/java/com/noel/currency_converter/controller/CurrencyController.java:24-42 | the set consists of codes and its four-letter entries are exactly the six |
| CurrencyController.NewCurrencyController | backend/src/main/java/com/noel/currency_converter/controller/CurrencyController.java:20-42 | a constructed controller keeps the injected service and holds the 226-code table |
| CurrencyController.ValidateCurrency | backend/src/main/java/com/noel/currency_converter/controller/CurrencyController.java:82-86 | passes exactly when the upper-cased symbol is in the table; otherwise fails with InvalidBaseCurrency `Invalid currency: ` and the symbol as given |
| CurrencyController.ValidationIgnoresCase | backend/src/main/java/com/noel/currency_converter/controller/CurrencyController.java:83 | a symbol and its upper-cased form always get the same verdict |
| CurrencyController.ValidateDate | backend/src/main/java/com/noel/currency_converter/controller/CurrencyController.java:88-94 | passes exactly when `LocalDate.parse` accepts the text; otherwise fails with InvalidDate `Invalid date format. Use YYYY-MM-DD: ` and the text |
| CurrencyController.ValidateSymbols | backend/src/main/java/com/noel/currency_converter/controller/CurrencyController.java:60-62 | the loop passes exactly when every trimmed token is supported |
| CurrencyController.FirstFailingToken | backend/src/main/java/com/noel/currency_converter/controller/CurrencyController.java:60-62 | a failing loop fails on the first unsupported token, and every token before it is supported; the message names that token as trimmed |
| CurrencyController.GetLatestRates | backend/src/main/java/com/noel/currency_converter/controller/CurrencyController.java:45-49 | an unsupported base is refused with nothing fetched; otherwise the service gets the base as given |
| CurrencyController.GetHistoricalRates | backend/src/main/java/com/noel/currency_converter/controller/CurrencyController.java:52-64 | refusals come in a fixed order: base, then date, then the first bad token, each with nothing fetched; otherwise the service gets base, date and the whole untrimmed `symbols` as given |
| CurrencyController.ConvertAmount | backend/src/main/java/com/noel/currency_converter/controller/CurrencyController.java:67-79 | refusals come in the order `from`, `to`, then amount below 1 (InvalidAmount `Amount must be at least 1.`); otherwise the service gets all three as given |
| CurrencyController.SupportedSymbolShape | backend/src/main/java/com/noel/currency_converter/controller/CurrencyController.java:82-86 | with ASCII upper-casing, an accepted symbol has three or four characters, all ASCII letters |
| CurrencyController.FourLetterSymbols | backend/src/main/java/com/noel/currency_converter/controller/CurrencyController.java:82-86 | an accepted symbol has four characters exactly when it upper-cases to one of the six four-letter codes |
| CurrencyController.FourLetterCodesAreSupported | backend/src/main/java/com/noel/currency_converter/controller/CurrencyController.java:82-86 | the six four-letter codes are accepted |
| CurrencyController.AcceptedSymbolsCharacters | backend/src/main/java/com/noel/currency_converter/controller/CurrencyController.java:60-62 | with ASCII upper-casing, an accepted `symbols` text holds only commas, trimmable characters and ASCII letters, and never `&` |
| CurrencyController.AcceptedTokenCharacter | backend/src/main/java/com/noel/currency_converter/controller/CurrencyController.java:61 | with ASCII upper-casing, a character of an accepted token is trimmable or an ASCII letter |
| CurrencyController.OnlyCommasAreAccepted | backend/src/main/java/com/noel/currency_converter/controller/CurrencyController.java:60-62 | a `symbols` text made only of commas (at least one) has no tokens, so it passes |
| CurrencyController.EmptySymbolsAreRejected | backend/src/main/java/com/noel/currency_converter/controller/CurrencyController.java:60-62 | an empty `symbols` fails on its one empty token, with message `Invalid currency: ` |
| CurrencyService.ValidateCurrency | backend/src/main/java/com/noel/currency_converter/service/CurrencyService.java:83-87 | passes exactly for texts of three UTF-16 code units, whatever their characters; otherwise InvalidBaseCurrency `Currency must be a 3-letter code` |
| CurrencyService.ValidateDate | backend/src/main/java/com/noel/currency_converter/service/CurrencyService.java:89-93 | passes exactly for texts of the shape `dddd-dd-dd` with ASCII digits; otherwise InvalidDate `Date must be in YYYY-MM-DD format` |
| CurrencyService.ValidateAmount | backend/src/main/java/com/noel/currency_converter/service/CurrencyService.java:95-99 | passes exactly for amounts of at least 1; otherwise InvalidAmount `Amount must be greater than 0` |
| CurrencyService.LatestTemplateText | backend/src/main/java/com/noel/currency_converter/service/CurrencyService.java:59 | the latest-rates format string is `%s?base=%s&api_key=%s` |
| CurrencyService.HistoricalTemplateText | backend/src/main/java/com/noel/currency_converter/service/CurrencyService.java:67-68 | the historical format string is `%s?base=%s&date=%s&symbols=%s&api_key=%s` |
| CurrencyService.ConvertTemplateText | backend/src/main/java/com/noel/currency_converter/service/CurrencyService.java:77-78 | the conversion format string is `%s?from=%s&to=%s&amount=%s&api_key=%s` |
| CurrencyService.FormatLatestTemplate | backend/src/main/java/com/noel/currency_converter/service/CurrencyService.java:59 | the latest-rates format string has three conversions and formats to its pieces filled in |
| CurrencyService.FormatHistoricalTemplate | backend/src/main/java/com/noel/currency_converter/service/CurrencyService.java:67-68 | the historical format string has five conversions and formats to its pieces filled in |
| CurrencyService.FormatConvertTemplate | backend/src/main/java/com/noel/currency_converter/service/CurrencyService.java:77-78 | the conversion format string has five conversions and formats to its pieces filled in |
| CurrencyService.LatestUrl | backend/src/main/java/com/noel/currency_converter/service/CurrencyService.java:59 | the URL is the configured endpoint, `?base=`, the base, `&api_key=` and the key, verbatim |
| CurrencyService.HistoricalUrl | backend/src/main/java/com/noel/currency_converter/service/CurrencyService.java:67-68 | the URL is the endpoint followed by base, date, the whole `symbols` and last the key, each after its parameter name, verbatim |
| CurrencyService.ConvertUrl | backend/src/main/java/com/noel/currency_converter/service/CurrencyService.java:77-78 | the URL is the endpoint followed by from, to, the rendered amount and last the key, each after its parameter name, verbatim |
| CurrencyService.LatestUrlParameters | backend/src/main/java/com/noel/currency_converter/service/CurrencyService.java:59 | the upstream reads exactly `base` and then `api_key`, with the values given |
| CurrencyService.HistoricalUrlParameters | backend/src/main/java/com/noel/currency_converter/service/CurrencyService.java:67-68 | the upstream reads exactly `base`, `date`, `symbols` and last `api_key`, with the values given |
| CurrencyService.ConvertUrlParameters | backend/src/main/java/com/noel/currency_converter/service/CurrencyService.java:77-78 | the upstream reads exactly `from`, `to`, `amount` and last `api_key`, with the values given |
| CurrencyService.FetchFromApi | backend/src/main/java/com/noel/currency_converter/service/CurrencyService.java:36-54 | the upstream body is returned when it arrives; any failure becomes ApiCall `Failed to fetch data from API` |
| CurrencyService.FetchFailuresAreIndistinguishable | backend/src/main/java/com/noel/currency_converter/service/CurrencyService.java:50-53 | all failure causes give the same result |
| CurrencyService.GetLatestRates | backend/src/main/java/com/noel/currency_converter/service/CurrencyService.java:57-61 | a base whose length is not three code units is refused with nothing fetched; otherwise exactly one fetch of the latest-rates URL |
| CurrencyService.GetHistoricalRates | backend/src/main/java/com/noel/currency_converter/service/CurrencyService.java:64-70 | the base's length in code units, then the date shape, each refusing with nothing fetched; otherwise one fetch of the historical URL |
| CurrencyService.ConvertAmount | backend/src/main/java/com/noel/currency_converter/service/CurrencyService.java:73-80 | the lengths in code units of `from` and then `to`, then the amount, each refusing with nothing fetched; otherwise one fetch of the conversion URL |
| GlobalExceptionHandler.Handle | backend/src/main/java/com/noel/currency_converter/exception/GlobalExceptionHandler.java:11-29 | the body is the message; the status is 503 exactly for ApiCall and 400 exactly for the other three kinds |
| GlobalExceptionHandler.HandleForgetsKind | backend/src/main/java/com/noel/currency_converter/exception/GlobalExceptionHandler.java:11-29 | two errors get the same response exactly when they share the message and whether they are ApiCall |
| QueryString.ParseParam | backend/src/main/java/com/noel/currency_converter/service/CurrencyService.java:59 | a parsed parameter name never holds `=` |
| QueryString.ParseRenderParam | backend/src/main/java/com/noel/currency_converter/service/CurrencyService.java:59 | `name=value` with a name free of `=` is read back as that parameter |
| QueryString.RenderQueryIsJoin | backend/src/main/java/com/noel/currency_converter/service/CurrencyService.java:59 | rendered safe parameters split at `&` into exactly their renderings |
| QueryString.ParseRenderQuery | backend/src/main/java/com/noel/currency_converter/service/CurrencyService.java:59 | a query rendered from safe parameters is read back as those parameters, in order |
| QueryString.QueryOfEndpoint | backend/src/main/java/com/noel/currency_converter/service/CurrencyService.java:59 | the query of `endpoint?q`, for an endpoint without `?`, is `q` |
| QueryString.ParametersOfUrl | backend/src/main/java/com/noel/currency_converter/service/CurrencyService.java:59 | the parameters read from `endpoint?query` are the rendered ones |
| QueryString.UrlAppend | backend/src/main/java/com/noel/currency_converter/service/CurrencyService.java:67-68 | appending `&name=value` to a URL adds that one parameter at the end |
| Endpoints.PassesBothUnlessFourLetter | backend/src/main/java/com/noel/currency_converter/service/CurrencyService.java:83-87 | with ASCII upper-casing, of the symbols the controller accepts, the service's length check refuses exactly the four-letter codes |
| Endpoints.LatestFetches | backend/src/main/java/com/noel/currency_converter/controller/CurrencyController.java:45-49 | `/latest` calls the upstream exactly when both layers accept the base, and then only with the service's URL for the base as given |
| Endpoints.HistoricalFetches | backend/src/main/java/com/noel/currency_converter/controller/CurrencyController.java:52-64 | `/historical` calls the upstream exactly when both layers accept the base and the date and every token is supported, and then with the URL of the original parameters |
| Endpoints.ConvertFetches | backend/src/main/java/com/noel/currency_converter/controller/CurrencyController.java:67-79 | for a finite amount, `/convert` calls the upstream exactly when both symbols pass both layers and the amount is at least 1 |
| Endpoints.FourLetterCodesAreRefusedByTheService | backend/src/main/java/com/noel/currency_converter/service/CurrencyService.java:83-87 | each four-letter code passes the controller, and `/latest` with it is refused by the service's length check with nothing fetched |
| Endpoints.CalendarDatesPassTheService | backend/src/main/java/com/noel/currency_converter/service/CurrencyService.java:89-93 | every date with an unsigned four-digit year that the controller accepts has the shape the service checks |
| Endpoints.ShapeIsNotCalendar | backend/src/main/java/com/noel/currency_converter/service/CurrencyService.java:89-93 | `2023-02-30` passes the service's check and fails the controller's |
| Endpoints.ServiceDateMessageNeverSurfaces | backend/src/main/java/com/noel/currency_converter/service/CurrencyService.java:89-93 | for dates with an unsigned four-digit year, no `/historical` request ends with the service's date message |
| Endpoints.ServiceAmountMessageNeverSurfaces | backend/src/main/java/com/noel/currency_converter/service/CurrencyService.java:95-99 | no `/convert` request ends with the service's amount message |
| Endpoints.RejectionsAreBadRequests | backend/src/main/java/com/noel/currency_converter/exception/GlobalExceptionHandler.java:11-24 | a request refused by a check gets 400 with the check's message |
| Endpoints.FetchedReplies | backend/src/main/java/com/noel/currency_converter/exception/GlobalExceptionHandler.java:26-29 | a fetched request gets the upstream body, or 503 `Failed to fetch data from API` whatever failed |
| Endpoints.LatestReplies | backend/src/main/java/com/noel/currency_converter/controller/CurrencyController.java:45-49 | every `/latest` response is 400 with the controller's or the service's message, the upstream body, or 503 |
| Endpoints.UnfetchedRequestsAreBadRequests | backend/src/main/java/com/noel/currency_converter/exception/GlobalExceptionHandler.java:11-29 | a `/convert` request that fetches nothing always gets a 400 |
| Endpoints.LatestQueryReadsBack | backend/src/main/java/com/noel/currency_converter/service/CurrencyService.java:59 | when both layers accept the base, `/latest` sends one URL, from which the upstream reads back `base` and `api_key` unchanged |
| Endpoints.HistoricalQueryReadsBack | backend/src/main/java/com/noel/currency_converter/service/CurrencyService.java:67-68 | when every check passes, `/historical` sends one URL in which no value holds an `&`, so a reader that splits at `&` and the first `=` gets back `base`, `date`, the whole `symbols` and `api_key` unchanged; the raw `symbols` may still hold spaces and control characters |
| Endpoints.ConvertQueryReadsBack | backend/src/main/java/com/noel/currency_converter/service/CurrencyService.java:77-78 | when every check passes, `/convert` sends one URL, from which the upstream reads back `from`, `to`, the rendered amount and `api_key` unchanged |
| Scenarios.NewControllerHoldsTestCodes | backend/src/main/java/com/noel/currency_converter/controller/CurrencyController.java:24-42 | the constructed controller knows USD, EUR and GBP and not XXX |
| Scenarios.TestCodesAreChecked | backend/src/main/java/com/noel/currency_converter/controller/CurrencyController.java:83 | USD, usd, EUR and GBP are accepted and XXX is not |
| Scenarios.TestCodesAreThreeUnits | backend/src/main/java/com/noel/currency_converter/service/CurrencyService.java:84 | USD, usd and EUR are three code units long |
| Scenarios.ServiceCountsUtf16Units | backend/src/main/java/com/noel/currency_converter/service/CurrencyService.java:84 | `€😀` has two characters but three code units, so the service's length check passes it |
| Scenarios.TokensOfTwoCodes | backend/src/main/java/com/noel/currency_converter/controller/CurrencyController.java:60 | `EUR,GBP` splits into `EUR` and `GBP` |
| Scenarios.TokensOfTrailingComma | backend/src/main/java/com/noel/currency_converter/controller/CurrencyController.java:60 | `EUR,` splits into `EUR` alone |
| Scenarios.TokensOfSpacedCodes | backend/src/main/java/com/noel/currency_converter/controller/CurrencyController.java:60 | ` EUR , GBP` splits into ` EUR ` and ` GBP` |
| Scenarios.TokensOfLeadingComma | backend/src/main/java/com/noel/currency_converter/controller/CurrencyController.java:60 | `,EUR` splits into an empty token and `EUR` |
| Scenarios.TokensOfDoubleComma | backend/src/main/java/com/noel/currency_converter/controller/CurrencyController.java:60 | `EUR,,GBP` splits into `EUR`, an empty token and `GBP` |
| Scenarios.TokensOfOneCode | backend/src/main/java/com/noel/currency_converter/controller/CurrencyController.java:60 | `XXX` is one token |
| Scenarios.TrimmedSpacedCodes | backend/src/main/java/com/noel/currency_converter/controller/CurrencyController.java:61 | ` EUR ` and ` GBP` trim to `EUR` and `GBP` |
| Scenarios.TrimmedCodes | backend/src/main/java/com/noel/currency_converter/controller/CurrencyController.java:61 | tokens without spaces and the empty token trim to themselves |
| Scenarios.TwoCodesAccepted | backend/src/main/java/com/noel/currency_converter/controller/CurrencyController.java:60-62 | `EUR,GBP` is accepted |
| Scenarios.TrailingCommaAccepted | backend/src/main/java/com/noel/currency_converter/controller/CurrencyController.java:60-62 | `EUR,` is accepted |
| Scenarios.SpacedCodesAccepted | backend/src/main/java/com/noel/currency_converter/controller/CurrencyController.java:60-62 | ` EUR , GBP` is accepted |
| Scenarios.LeadingCommaRejected | backend/src/main/java/com/noel/currency_converter/controller/CurrencyController.java:60-62 | `,EUR` is refused on its empty first token |
| Scenarios.DoubleCommaRejected | backend/src/main/java/com/noel/currency_converter/controller/CurrencyController.java:60-62 | `EUR,,GBP` is refused on the empty token |
| Scenarios.UnknownSymbolRejected | backend/src/main/java/com/noel/currency_converter/controller/CurrencyController.java:60-62 | `XXX` is refused with `Invalid currency: XXX` |
| Scenarios.EmptyTokenIsRejected | backend/src/main/java/com/noel/currency_converter/controller/CurrencyController.java:61 | the empty token is refused with `Invalid currency: ` |
| Scenarios.LatestRatesForValidBase | backend/src/test/java/com/noel/currency_converter/CurrencyControllerTest.java:35-40 | `/latest` for USD is the service's fetch for USD |
| Scenarios.LatestRatesForLowerCaseBase | backend/src/main/java/com/noel/currency_converter/controller/CurrencyController.java:47-48 | `/latest` for usd passes, and the service gets `usd` unchanged |
| Scenarios.LatestRatesForInvalidBase | backend/src/test/java/com/noel/currency_converter/CurrencyControllerTest.java:42-46 | `/latest` for XXX is refused with `Invalid currency: XXX` |
| Scenarios.LatestRatesForFourLetterCode | backend/src/main/java/com/noel/currency_converter/controller/CurrencyController.java:27 | `/latest` for USDC is refused by the service's length check, not by the controller |
| Scenarios.HistoricalRatesValid | backend/src/test/java/com/noel/currency_converter/CurrencyControllerTest.java:48-53 | `/historical` for USD, 2023-01-01, `EUR,GBP` is the service's fetch with those values |
| Scenarios.SpacedSymbolsAreForwardedRaw | backend/src/main/java/com/noel/currency_converter/controller/CurrencyController.java:63 | `/historical` with symbols ` EUR , GBP` passes, and the service gets and sends the list with its spaces |
| Scenarios.HistoricalRatesInvalidDate | backend/src/test/java/com/noel/currency_converter/CurrencyControllerTest.java:55-59 | `/historical` with date `20230101` is refused with `Invalid date format. Use YYYY-MM-DD: 20230101` |
| Scenarios.HistoricalRatesInvalidSymbol | backend/src/test/java/com/noel/currency_converter/CurrencyControllerTest.java:61-65 | `/historical` with symbols `XXX` is refused with `Invalid currency: XXX` |
| Scenarios.ConvertValid | backend/src/test/java/com/noel/currency_converter/CurrencyControllerTest.java:67-72 | `/convert` USD to EUR of 10 is the service's fetch with those values |
| Scenarios.ConvertInvalidAmount | backend/src/test/java/com/noel/currency_converter/CurrencyControllerTest.java:74-78 | `/convert` of 0 is refused with `Amount must be at least 1.` |
| Scenarios.ConvertInvalidCurrency | backend/src/test/java/com/noel/currency_converter/CurrencyControllerTest.java:80-84 | `/convert` from XXX is refused with `Invalid currency: XXX` |

## Left out

- Network I/O: the HTTP connection, the stream read, Jackson decoding and the logging in `fetchFromApi` are not modelled. They become the `upstream` parameter: an outcome per URL that is either a decoded body or one of four failure causes.
- `RatesResponse` and `ConversionResponse` are plain datatypes. Their JSON decoding, including ignoring unknown fields, is library behaviour and is not modelled.
- `double`: the amount is a `real` and is used only in the `< 1` comparisons. NaN, infinities and rounding are not modelled. So Endpoints.ConvertFetches, CurrencyController.ConvertAmount and CurrencyService.ConvertAmount say nothing about `amount=NaN`, which passes both `< 1` checks in Java and is fetched. The `%s` rendering of the amount into the URL is the opaque parameter `render`.
- Endpoints.ConvertQueryReadsBack: requires that the rendered amount holds no `&`, because the rendering of a `double` is not modelled.
- Spring: `@Autowired`/`@Value` injection becomes the record arguments `Config` and `CurrencyController`. The routing of requests, the dispatch of exceptions to the handler (written out as `Endpoints.Respond`) and the framework's own 400 for a missing or non-numeric parameter are not modelled.
- JavaText.ToUpperCase: upper-cases ASCII `a`..`z` only. Java's locale-dependent and non-ASCII case mappings are not modelled. For example, Java turns `ß` into `SS`, `ﬆ` into `ST` and `ı` into `I`, so the controller also accepts `ıNR` and the two-character `ﬆD`. The facts that accepted symbols are ASCII letters (CurrencyController.SupportedSymbolShape, CurrencyController.AcceptedSymbolsCharacters, CurrencyController.AcceptedTokenCharacter, Endpoints.PassesBothUnlessFourLetter) hold for this upper-casing only.
- IsoDate.ParseIsoDate: accepts only the unsigned four-digit-year form. `LocalDate.parse` also accepts a signed year: a `+` followed by five to ten digits, or a `-` followed by four to ten digits (but not a year of zero), within the year range of ±999,999,999. Examples are `+10000-01-01` and `-2023-01-01`.
- Endpoints.CalendarDatesPassTheService: holds only for unsigned four-digit years. The controller also accepts dates with signed years, such as `+10000-01-01` and `-2023-01-01`, and the service's pattern refuses them.
- Endpoints.ServiceDateMessageNeverSurfaces: holds only for unsigned four-digit years. In the program, `/historical` with date `+10000-01-01` or `-2023-01-01` passes the controller. The service then refuses it, and the client gets 400 `Date must be in YYYY-MM-DD format`.
- Endpoints.HistoricalQueryReadsBack: the read-back uses a reader that takes any character other than `&` as part of a value. An accepted `symbols` may hold spaces, tabs, line breaks and other characters at or below U+0020 around its codes (see Scenarios.SpacedSymbolsAreForwardedRaw). The service puts them into the URL without percent-encoding, and no URL can carry them raw in its query. What the HTTP client and the upstream do with such a URL is not modelled.
- The `null` checks in the service's validators are not modelled, because a Dafny string is never null.
- JavaText.Format: models only the `%s` conversion, the only one the URL templates use.
- The service's `validateDate` is written with a regular expression. The model writes out its one fixed pattern instead of modelling regular expressions in general.
- `QueryString` is not code of this repository. It is the usual reading of a URL query, used only to state what the upstream receives.
- The exception classes become constructors of `Errors.ApiError`. Only their messages are kept; stack traces and causes are not.
