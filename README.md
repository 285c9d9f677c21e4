# bitcoin-status: the currency lookup, modelled in Dafny

bitcoin-status is a console program that asks for a currency code and prints the current Bitcoin
rate in that currency plus the lowest and highest rate of the last 30 days, as reported by the
CoinDesk price service. This project models the part of it that does real work: the `App` object
and its lookup pipeline (`handleCurrencyCall`, `parseCurrentBitcoinPrice`, `parseBitcoinPastPrice`,
the fields they write), and the `ErrorMessages` table of error codes it relies on.

Layout, one module per file:

- `wrappers.dfy` (`Wrappers`): `Option` for nullable references, `Result` and `Outcome` for thrown exceptions.
- `error_messages.dfy` (`ErrorMessages`): the enum as a datatype, with `getErrorCode`, `name()` and
  the inverse of `getErrorCode`. The members every Java enum has implicitly (`values()`, `ordinal()`,
  `valueOf`) are modelled too. The program itself only calls `name()` and `getErrorCode`.
- `json_objects.dfy` (`JsonObjects`): org.json documents as a datatype. The text grammar is a
  parameter. `new JSONObject(text)` is modelled down to its first check: the first non-blank
  character must be `{`.
- `extremes.dfy` (`Extremes`): the running min/max fold of the history parser (`BigDecimal.min`/`max`)
  and the least/greatest element of a set of prices.
- `requests.dfy` (`Requests`): the two endpoint templates and `String.format` on them, the HTTP
  transport as an oracle, and the status/body classification that both fetches apply.
- `app_spec.dfy` (`AppSpec`): the object's fields as a value `AppState`, each parser as a step on
  it, each fetch as a stage, and the whole `handleCurrencyCall` as a `Run`. A `Run` holds the end
  state, the exception thrown (if any), the URLs requested in order and the 404 bodies printed.
- `app.dfy` (`BitcoinStatus`): class `App` with the four fields. Its methods update them in place.
  Each method is proved to produce exactly the step or run that `AppSpec` defines. The history
  parser keeps the source's loop. It visits the `bpi` entries in an unspecified order.
- `app_properties.dfy` (`AppProperties`): lemmas about the lookup. They cover stage order, the
  requests made, which fields change, round trips through the documents, and the test suite's examples.

The lookup behaves as follows:

- A 404 response or an unexpected status throws nothing. A 404 prints the body and the lookup goes on.
- An empty `bpi` series is not an error. It leaves `minPrice` and `maxPrice` as they were.
- The prices live in fields of a long-lived object. They are not values returned per lookup.

## Model

| member | source | states |
|---|---|---|
| ErrorMessages.ErrorCode | src/main/java/enums/ErrorMessages.java:4-20 | the code is 404 exactly for NOT_FOUND; every other constant's code lies in 5..9 |
| ErrorMessages.NotFoundIs404 | src/main/java/enums/ErrorMessages.java:4 | NOT_FOUND carries 404, the status value both fetches compare against |
| ErrorMessages.CodesInDeclarationOrder | src/main/java/enums/ErrorMessages.java:4-9 | in declaration order the codes are 404, then 5, 6, 7, 8, 9 |
| ErrorMessages.Name | src/main/java/App.java:112 | name(), used for the first stage's empty-body message and printed by the console: at least nine characters, beginning and ending with a letter |
| ErrorMessages.NameIsUpperIdent | src/main/java/enums/ErrorMessages.java:4-9 | every constant's name consists of upper-case letters and underscores only |
| ErrorMessages.ValuesDistinct | src/main/java/enums/ErrorMessages.java:3-9 | the implicit values(): the enum lists each of its six constants once |
| ErrorMessages.Ordinal | src/main/java/enums/ErrorMessages.java:3-9 | the implicit ordinal(): a constant's ordinal is its position in declaration order |
| ErrorMessages.WithCode | src/main/java/enums/ErrorMessages.java:12-20 | the constant constructed with a given code, or none when no constant has that code |
| ErrorMessages.WithCodeInvertsErrorCode | src/main/java/enums/ErrorMessages.java:4-20 | the six codes are pairwise distinct, so each constant is recovered from its code |
| ErrorMessages.ErrorCodeInjective | src/main/java/enums/ErrorMessages.java:4-9 | two constants with the same code are the same constant |
| ErrorMessages.ValueOf | src/main/java/enums/ErrorMessages.java:3-9 | the implicit valueOf: the constant with that name; none exactly when no constant is so named |
| ErrorMessages.ValueOfInvertsName | src/main/java/enums/ErrorMessages.java:3-9 | the implicit valueOf: valueOf(name()) gives the constant back |
| ErrorMessages.NameInjective | src/main/java/enums/ErrorMessages.java:3-9 | the implicit name(): no two constants share a name, so the name identifies the constant |
| JsonObjects.ParseObject | src/main/java/App.java:145 | a text parses exactly when its first non-blank character is '{' and the grammar reads it as an object, and the result is that object's members; the empty text never parses |
| JsonObjects.GetObject | src/main/java/App.java:146 | getJSONObject(key) succeeds exactly when the member exists and is an object, and gives that object's members |
| JsonObjects.GetDecimal | src/main/java/App.java:146 | getBigDecimal(key) succeeds exactly when the member exists and is a number, and gives that number |
| Extremes.Min | src/main/java/App.java:157 | BigDecimal.min: one of its operands, at most both, and the receiver when it is at most the argument |
| Extremes.Max | src/main/java/App.java:158 | BigDecimal.max: one of its operands, at least both, and the receiver when it is at least the argument |
| Extremes.FoldMin | src/main/java/App.java:155-159 | the running minimum is null exactly before the first entry, and afterwards the least value visited |
| Extremes.FoldMax | src/main/java/App.java:155-159 | the running maximum is null exactly before the first entry, and afterwards the greatest value visited |
| Extremes.Least | src/main/java/App.java:156-157 | the least price of a non-empty set is in the set and at most every element |
| Extremes.Greatest | src/main/java/App.java:156-158 | the greatest price of a non-empty set is in the set and at least every element |
| Extremes.FoldIsExtremes | src/main/java/App.java:155-159 | whatever the visiting order, the fold ends on the least and the greatest value |
| Extremes.FoldOrderIndependent | src/main/java/App.java:156-159 | two visiting orders of the same entries give the same minimum and maximum |
| Extremes.LeastAtMostGreatest | src/main/java/App.java:155-164 | the minimum stored never exceeds the maximum stored |
| Extremes.SingletonExtremes | src/main/java/App.java:155-158 | a single price is both the minimum and the maximum |
| Extremes.ExtremesUnique | src/main/java/App.java:156-159 | the minimum and maximum are determined by the set of prices alone |
| Requests.Template.Format | src/main/java/App.java:104 | String.format with %s conversions: the result begins with the template's first literal part |
| Requests.Template.FormatShape | src/main/java/App.java:118 | the formatted text is exactly as long as the literal parts plus the substituted arguments, and ends with the last literal part |
| Requests.EndpointTexts | src/main/java/App.java:20-21 | the templates are the two endpoint constants, with one and three %s conversions |
| Requests.CurrentPriceUrl | src/main/java/App.java:104 | the current-price URL is the endpoint with the currency code in place of %s |
| Requests.CurrentPriceUrlInjective | src/main/java/App.java:104 | different codes give different current-price URLs |
| Requests.PastPricesUrl | src/main/java/App.java:117-118 | the history URL carries the start date, the end date and the code in the start, end and currency parameters |
| Requests.Classify | src/main/java/App.java:108-129 | a response is reported exactly on status 404, rejected exactly on 200 with an empty body, parsed exactly on 200 with a body, ignored on any other status |
| AppSpec.CurrentRate | src/main/java/App.java:144-146 | an empty body throws JSONException; a rate is found only when a currency is set, and it is the rate_float of the bpi entry keyed by that currency's code |
| AppSpec.CurrentPriceStep | src/main/java/App.java:144-148 | only currentPrice may change, nothing changes when it throws, and on success currentPrice is the document's rate for the stored currency |
| AppSpec.PastRange | src/main/java/App.java:153-159 | a range found from a non-empty series has its minimum at most its maximum |
| AppSpec.PastPriceStep | src/main/java/App.java:153-166 | only minPrice and maxPrice may change, nothing changes when it throws, and a change sets both with min at most max |
| AppSpec.QuoteStage | src/main/java/App.java:106-115 | the first response changes only currentPrice and prints its body exactly on 404; a status other than 200 completes with nothing changed; a transport failure throws IOException; a 200 whose body is empty throws with the enum constant's name; a 200 whose rate is read stores that rate and completes; otherwise a 200 throws exactly when the rate cannot be read; whenever it throws, nothing changes |
| AppSpec.HistoryStage | src/main/java/App.java:119-129 | the second response changes only minPrice and maxPrice and keeps them consistent, prints its body exactly on 404; a status other than 200 completes with nothing changed; a transport failure throws IOException; an empty 200 body throws with its own message; a 200 body the history parser cannot read throws that parser's exception with nothing changed; an empty series completes with nothing changed; a readable series stores its least and greatest price and completes (or throws NullPointerException when no currency is set) |
| AppSpec.HistoryUrl | src/main/java/App.java:117-118 | the history URL asks for today minus 30 days up to today, for the given code |
| AppSpec.CurrencyCall | src/main/java/App.java:101-130 | no request is made exactly when the argument is null or not a registered code, and then nothing changes; otherwise the currency is stored and the first request is for its current price; a lookup that completes made both requests; at most two requests and two printed bodies; the range stays consistent |
| AppSpec.RatesNonEmpty | src/main/java/App.java:156-159 | a helper of PastRange: a non-empty series of numbers has at least one price, so the loop's minimum and maximum exist |
| AppSpec.ReportedAs | src/main/java/App.java:71-81 | the console names an enum constant for the four exceptions it catches by type, never NOT_FOUND or RESPONSE_BODY_OF_API_IS_EMPTY |
| AppSpec.ConsoleMessage | src/main/java/App.java:71-81 | the console prints a line for every failure except ClassCastException, which it does not catch |
| BitcoinStatus.App.constructor | src/main/java/App.java:29-33 | every field starts out null, and the object invariant holds |
| BitcoinStatus.App.SetCurrency | src/main/java/App.java:39-41 | stores the currency and leaves every other field unchanged |
| BitcoinStatus.App.ParseCurrentBitcoinPrice | src/main/java/App.java:144-148 | the new fields and the outcome are exactly the quote parser's step from the old fields |
| BitcoinStatus.App.ParseBitcoinPastPrice | src/main/java/App.java:153-166 | for any visiting order of the entries, the new fields and the outcome are exactly the history parser's step, so minPrice and maxPrice are the least and greatest price |
| BitcoinStatus.App.HandleCurrencyCall | src/main/java/App.java:101-130 | the new fields, the exception, the URLs requested and the bodies printed are exactly the lookup's run from the old fields |
| AppProperties.ValidationFirst | src/main/java/App.java:103-106 | a null code throws NullPointerException and an unregistered one IllegalArgumentException, before any field changes or any request |
| AppProperties.UnregisteredInputsRejected | src/test/java/AppTest.java:52-73 | "" and "AMERICANUSD" are rejected before any request, given a registry of three-letter codes |
| AppProperties.HistoryRequestedIffQuoteCompletes | src/main/java/App.java:104-119 | the first request is for the code's current price; the second is made exactly when the first stage completes, and it covers today minus 30 days up to today for the validated code |
| AppProperties.EmptyQuoteBodyStopsLookup | src/main/java/App.java:110-113 | a 200 with an empty body throws ResponseBodyIsEmpty("RESPONSE_BODY_OF_API_IS_EMPTY") and no second request follows |
| AppProperties.UnreadableQuoteStopsLookup | src/main/java/App.java:110-116 | a current-price body that cannot be read throws, with the prices unchanged and no second request |
| AppProperties.TransportFailureStopsLookup | src/main/java/App.java:106-107 | a transport failure on the first request throws IOException with only the currency stored, and no second request follows |
| AppProperties.QuoteRateIsStored | src/main/java/App.java:110-119 | a 200 whose rate is read leaves that rate in currentPrice, and the history request follows |
| AppProperties.NotFoundIsReportedAndLookupContinues | src/main/java/App.java:108-109 | a 404 prints its body, leaves the current price alone, and the history request is still made |
| AppProperties.HistoryNotFoundIsReported | src/main/java/App.java:121-122 | a 404 on the history request prints its body, throws nothing and leaves minPrice and maxPrice alone |
| AppProperties.EmptyHistoryBodyStopsLookup | src/main/java/App.java:123-127 | an empty 200 history body throws ResponseBodyIsEmpty("Response body of coindesk.com api is empty"), a different message from the first stage's, and leaves the range alone |
| AppProperties.HistoryOtherStatusIsIgnored | src/main/java/App.java:121-129 | another status on the history request throws nothing, prints nothing more and leaves the range alone |
| AppProperties.HistoryTransportFailure | src/main/java/App.java:119-120 | a transport failure on the history request throws IOException and leaves minPrice and maxPrice alone |
| AppProperties.UnreadableHistoryStopsLookup | src/main/java/App.java:128 | a non-empty 200 history body the parser cannot read ends the lookup with the parser's exception, after both requests, with minPrice and maxPrice unchanged |
| AppProperties.HistoryRangeIsStored | src/main/java/App.java:128 | a readable history body ends the lookup normally with exactly its least and greatest price stored |
| AppProperties.OtherStatusIsIgnored | src/main/java/App.java:108-119 | a status other than 200 and 404 leaves the current price alone, throws nothing, and the history request is still made |
| AppProperties.QuoteRoundTrip | src/main/java/App.java:145-146 | the quote parser reads a rate for a code exactly when the body is an object whose bpi entry for that code has that rate_float, whatever other members and currencies it holds |
| AppProperties.MissingBpiFails | src/test/java/AppTest.java:95-138 | a body without bpi makes both parsers throw JSONException and change nothing |
| AppProperties.MissingQuoteEntryFails | src/main/java/App.java:146 | a missing currency entry or a missing rate_float throws JSONException and changes nothing |
| AppProperties.EmptyQuoteTextFails | src/test/java/AppTest.java:88-93 | the quote parser throws JSONException on the empty text, whatever the grammar |
| AppProperties.PastRangeBounds | src/main/java/App.java:155-164 | the stored minimum is one of the series' prices and at most all of them; the maximum likewise |
| AppProperties.EmptySeriesKeepsRange | src/main/java/App.java:156-165 | an empty bpi completes normally and leaves minPrice and maxPrice as they were, with no default of zero |
| AppProperties.EmptyObjectHistoryFails | src/test/java/AppTest.java:122-127 | the text "{}" makes the history parser throw JSONException |
| AppProperties.HistoryRates | src/main/java/App.java:156 | the prices of a history document are exactly the values of its date-to-price series |
| AppProperties.HistoryRoundTrip | src/main/java/App.java:153-165 | reading any document whose bpi is a date-to-price series, whatever other members it has, gives the least and greatest price of the series, and nothing for an empty series |
| AppProperties.SingleEntrySeries | src/main/java/App.java:155-158 | a one-entry series gives that entry's price as both minimum and maximum |
| AppProperties.TwoDayHistoryExample | src/main/java/App.java:153-164 | a worked example: closing prices 128.2597 and 127.3648 give the range 127.3648 to 128.2597 |
| AppProperties.ServiceQuoteExample | src/main/java/App.java:144-146 | a worked example: a body shaped like the service's, with time, disclaimer and USD and EUR entries, gives 63975.385 for USD and 55027.0839 for EUR, and throws JSONException for GBP |
| AppProperties.ConsoleMessagesDistinct | src/main/java/App.java:71-81 | different exceptions caught by type print different lines |

## Left out

- The interactive loop, `Scanner` input, `help`, `printLogo` and all printing are console I/O. The
  catch-to-message mapping is kept, as `ConsoleMessage`.
- `callApi` and the OkHttp client are network I/O. They become the oracle `Api` from a URL to a status
  and body, or a transport failure. An IOException while reading the body is folded into that
  failure. The URL-validity tests concern OkHttp itself.
- The JSON text grammar of org.json is left to the `Grammar` parameter. Only the leading `{` check
  is modelled.
- The ISO 4217 registry behind `Currency.getInstance` is the parameter `registry`. A `Currency` is
  represented by its code.
- The clock and calendar: today is a day number passed in. `minusDays(30)` is subtraction on day
  numbers. The rendering of a date in the URL is the parameter `formatDate`.
- `BigDecimal` values are exact `real`s, so scale is lost: 1.0 and 1.00 are the same price. On a
  tie, `BigDecimal.min`/`max` may return either of two equal-valued operands, and the model does not
  distinguish them.
- CurrentRate: a `rate_float` given as a numeric string, which org.json's `getBigDecimal` would
  convert, is treated as a JSONException.
- ParseBitcoinPastPrice: every JSON number in the series counts as a decimal. In the source, an
  integer literal such as 128 becomes an `Integer` and the `(BigDecimal)` cast throws.
- ParseBitcoinPastPrice: every non-number entry throws ClassCastException. In the source a JSON
  `null` entry becomes a null reference, which the cast lets through. It is skipped as long as every
  entry visited before it was also null. A null visited after a number causes a NullPointerException.
  A series of nulls only completes normally without setting minPrice or maxPrice.
- A null body passed straight to either parser (a NullPointerException in the source) is not
  modelled, because `handleCurrencyCall` always passes the string it read.
- The `ResponseBodyIsEmpty` exception class is not part of this model beyond its message.
- The trivial getter `getCurrency` is not modelled; the methods read the field directly.
