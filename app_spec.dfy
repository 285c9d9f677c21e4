/**
 * What the currency lookup of `App` does, stated on values: the state of an `App` object, each
 * parser as a step from one state to the next, each fetch as a stage, and the whole lookup
 * (`handleCurrencyCall`) as a run that also records the URLs it requested and the 404 bodies it
 * printed. The class in BitcoinStatus is proved to behave exactly like these functions.
 */
module AppSpec {
  import opened Wrappers
  import opened ErrorMessages
  import opened JsonObjects
  import opened Extremes
  import opened Requests

  /** The exceptions that can escape `handleCurrencyCall` and the two parsers. */
  datatype Failure =
    | NullPointer                           // NullPointerException
    | IllegalArgument                       // IllegalArgumentException from Currency.getInstance
    | IOFailure                             // IOException from the HTTP client
    | ResponseBodyIsEmpty(message: string)  // the application's own exception, with its message
    | JsonError                             // org.json's JSONException
    | ClassCast                             // ClassCastException from a (BigDecimal) cast

  /** The fields of an `App`: the validated currency (by its code) and the three prices. */
  datatype AppState = AppState(
    currency: Option<string>,
    currentPrice: Option<real>,
    minPrice: Option<real>,
    maxPrice: Option<real>)

  /** What the constructor leaves: every field null. */
  const Initial := AppState(None, None, None, None)

  /** The range fields are set together, and the minimum never exceeds the maximum. */
  ghost predicate RangeConsistent(s: AppState)
  {
    && s.minPrice.Some? == s.maxPrice.Some?
    && (s.minPrice.Some? ==> s.minPrice.value <= s.maxPrice.value)
  }

  /** The state after a parser ran, and whether it completed or threw. */
  datatype Step = Step(state: AppState, outcome: Outcome<Failure>)

  // ---------------------------------------------------------------------------------------------
  // parseCurrentBitcoinPrice

  /**
   * `bpi.<currency code>.rate_float` of a current-price body, looked up in the order the source
   * evaluates it: the body is parsed, `bpi` is fetched, then the currency's code is read (null
   * currency: NullPointerException), then the entry and its `rate_float`.
   */
  function CurrentRate(body: string, grammar: Grammar, currency: Option<string>): (r: Result<real, Failure>)
    ensures body == "" ==> r == Failure(JsonError)
    ensures r.Success? ==> currency.Some?
    ensures r.Success? ==> ParseObject(grammar, body).Some?
                           && Quotes(ParseObject(grammar, body).value, currency.value, r.value)
  {
    match ParseObject(grammar, body)
    case None => Failure(JsonError)
    case Some(doc) =>
      match GetObject(doc, "bpi")
      case None => Failure(JsonError)
      case Some(bpi) =>
        if currency.None? then Failure(NullPointer)
        else
          match GetObject(bpi, currency.value)
          case None => Failure(JsonError)
          case Some(entry) =>
            match GetDecimal(entry, "rate_float")
            case None => Failure(JsonError)
            case Some(rate) => Success(rate)
  }

  /** The document's `bpi` entry for `code` carries `rate` as its `rate_float`, whatever else it holds. */
  predicate Quotes(doc: Fields, code: string, rate: real)
  {
    && "bpi" in doc && doc["bpi"].Object?
    && code in doc["bpi"].fields && doc["bpi"].fields[code].Object?
    && "rate_float" in doc["bpi"].fields[code].fields
    && doc["bpi"].fields[code].fields["rate_float"] == Number(rate)
  }

  /** `parseCurrentBitcoinPrice`: on success only `currentPrice` is assigned; on failure nothing. */
  function CurrentPriceStep(s: AppState, body: string, grammar: Grammar): (r: Step)
    ensures r.state.(currentPrice := s.currentPrice) == s
    ensures r.outcome.Fail? ==> r.state == s
    ensures r.outcome.Pass? ==> && s.currency.Some? && r.state.currentPrice.Some?
                                && ParseObject(grammar, body).Some?
                                && Quotes(ParseObject(grammar, body).value, s.currency.value, r.state.currentPrice.value)
  {
    match CurrentRate(body, grammar, s.currency)
    case Success(rate) => Step(s.(currentPrice := Some(rate)), Pass)
    case Failure(f) => Step(s, Fail(f))
  }

  // ---------------------------------------------------------------------------------------------
  // parseBitcoinPastPrice

  /** The prices under the given keys of a series (entries that are not numbers contribute none). */
  function RatesOf(series: Fields, keys: set<string>): set<real>
  {
    set k | k in keys && k in series && series[k].Number? :: series[k].n
  }

  function Rates(series: Fields): set<real>
  {
    RatesOf(series, series.Keys)
  }

  /** Every entry survives the `(BigDecimal)` cast. */
  predicate AllDecimal(series: Fields)
  {
    forall k :: k in series ==> series[k].Number?
  }

  lemma RatesNonEmpty(series: Fields)
    requires series != map[]
    requires AllDecimal(series)
    ensures Rates(series) != {}
  {
    var k :| k in series;
    assert series[k].n in Rates(series);
  }

  /**
   * What the history parser finds in a body: the `bpi` object's least and greatest price, nothing
   * for an empty `bpi`, or the exception that stops it.
   */
  ghost function PastRange(body: string, grammar: Grammar): (r: Result<Option<(real, real)>, Failure>)
    ensures r.Success? && r.value.Some? ==> r.value.value.0 <= r.value.value.1
  {
    match ParseObject(grammar, body)
    case None => Failure(JsonError)
    case Some(doc) =>
      match GetObject(doc, "bpi")
      case None => Failure(JsonError)
      case Some(series) =>
        if !AllDecimal(series) then Failure(ClassCast)
        else if series == map[] then Success(None)
        else
          RatesNonEmpty(series);
          LeastAtMostGreatest(Rates(series));
          Success(Some((Least(Rates(series)), Greatest(Rates(series)))))
  }

  /**
   * `parseBitcoinPastPrice`: a non-empty series sets `minPrice` and `maxPrice`, an empty one
   * changes nothing. Printing the range reads the currency's code first, so a null currency
   * throws before either field is assigned.
   */
  ghost function PastPriceStep(s: AppState, body: string, grammar: Grammar): (r: Step)
    ensures r.state.(minPrice := s.minPrice, maxPrice := s.maxPrice) == s
    ensures r.outcome.Fail? ==> r.state == s
    ensures r.state != s ==> && r.state.minPrice.Some? && r.state.maxPrice.Some?
                             && r.state.minPrice.value <= r.state.maxPrice.value
  {
    match PastRange(body, grammar)
    case Failure(f) => Step(s, Fail(f))
    case Success(None) => Step(s, Pass)
    case Success(Some(range)) =>
      if s.currency.None? then Step(s, Fail(NullPointer))
      else Step(s.(minPrice := Some(range.0), maxPrice := Some(range.1)), Pass)
  }

  /** The `bpi` object of a history document with exactly the given date-to-price series. */
  function SeriesObject(series: map<string, real>): Json
  {
    Object(map d | d in series :: Number(series[d]))
  }

  // ---------------------------------------------------------------------------------------------
  // handleCurrencyCall

  /** The message of the ResponseBodyIsEmpty thrown for an empty current-price body. */
  const EmptyQuoteMessage := Name(ResponseBodyOfApiIsEmpty)
  /** The message of the ResponseBodyIsEmpty thrown for an empty history body. */
  const EmptyHistoryMessage := "Response body of coindesk.com api is empty"

  /** The state after one fetch was handled, its outcome, and the 404 body it printed, if any. */
  datatype Stage = Stage(state: AppState, outcome: Outcome<Failure>, reported: seq<string>)

  /** The first fetch's response handled: lines that classify it and hand it to the quote parser. */
  function QuoteStage(s: AppState, t: Transport, grammar: Grammar): (r: Stage)
    ensures r.state.(currentPrice := s.currentPrice) == s
    ensures r.reported == (if t.Response? && t.status == 404 then [t.body] else [])
    ensures r.outcome.Fail? <==> || t.Unreachable?
                                 || (t.status == 200 && (t.body == "" || CurrentRate(t.body, grammar, s.currency).Failure?))
    ensures t.Unreachable? ==> r == Stage(s, Fail(IOFailure), [])
    ensures r.outcome.Fail? ==> r.state == s
    ensures t.Response? && t.status != 200 ==> r.state == s && r.outcome == Pass
    ensures t.Response? && t.status == 200 && t.body == ""
            ==> r.outcome == Fail(ResponseBodyIsEmpty(EmptyQuoteMessage))
    ensures t.Response? && t.status == 200 && CurrentRate(t.body, grammar, s.currency).Success?
            ==> r.state == s.(currentPrice := Some(CurrentRate(t.body, grammar, s.currency).value))
                && r.outcome == Pass
  {
    match t
    case Unreachable => Stage(s, Fail(IOFailure), [])
    case Response(status, body) =>
      match Classify(status, body)
      case ReportBody => Stage(s, Pass, [body])
      case RejectEmptyBody => Stage(s, Fail(ResponseBodyIsEmpty(EmptyQuoteMessage)), [])
      case ParseBody =>
        var step := CurrentPriceStep(s, body, grammar);
        Stage(step.state, step.outcome, [])
      case Ignore => Stage(s, Pass, [])
  }

  /** The second fetch's response handled the same way, with the history parser. */
  ghost function HistoryStage(s: AppState, t: Transport, grammar: Grammar): (r: Stage)
    ensures r.state.(minPrice := s.minPrice, maxPrice := s.maxPrice) == s
    ensures r.reported == (if t.Response? && t.status == 404 then [t.body] else [])
    ensures RangeConsistent(s) ==> RangeConsistent(r.state)
    ensures t.Response? && t.status != 200 ==> r.state == s && r.outcome == Pass
    ensures t.Unreachable? ==> r == Stage(s, Fail(IOFailure), [])
    ensures t.Response? && t.status == 200 && t.body == ""
            ==> r.state == s && r.outcome == Fail(ResponseBodyIsEmpty(EmptyHistoryMessage))
    ensures t.Response? && t.status == 200 && PastRange(t.body, grammar).Success?
                        && PastRange(t.body, grammar).value.Some? && s.currency.Some?
            ==> && r.outcome == Pass
                && r.state.minPrice == Some(PastRange(t.body, grammar).value.value.0)
                && r.state.maxPrice == Some(PastRange(t.body, grammar).value.value.1)
    ensures t.Response? && t.status == 200 && PastRange(t.body, grammar).Success?
                        && PastRange(t.body, grammar).value.Some? && s.currency.None?
            ==> r == Stage(s, Fail(NullPointer), [])
    ensures t.Response? && t.status == 200 && t.body != "" && PastRange(t.body, grammar).Failure?
            ==> r == Stage(s, Fail(PastRange(t.body, grammar).error), [])
    ensures t.Response? && t.status == 200 && t.body != "" && PastRange(t.body, grammar) == Success(None)
            ==> r == Stage(s, Pass, [])
  {
    match t
    case Unreachable => Stage(s, Fail(IOFailure), [])
    case Response(status, body) =>
      match Classify(status, body)
      case ReportBody => Stage(s, Pass, [body])
      case RejectEmptyBody => Stage(s, Fail(ResponseBodyIsEmpty(EmptyHistoryMessage)), [])
      case ParseBody =>
        var step := PastPriceStep(s, body, grammar);
        Stage(step.state, step.outcome, [])
      case Ignore => Stage(s, Pass, [])
  }

  /**
   * What the lookup depends on besides its argument: the ISO 4217 registry, the price service,
   * the JSON grammar, today's date (as a day number) and the ISO-8601 rendering of a date.
   */
  datatype Env = Env(
    registry: set<string>,
    api: Api,
    grammar: Grammar,
    today: int,
    formatDate: int -> string)

  /** The history URL: from 30 days before today up to today, for the given code. */
  function HistoryUrl(env: Env, code: string): (url: string)
    ensures url == PastPricesPrefix + env.formatDate(env.today - 30) + "&end="
                   + env.formatDate(env.today) + "&currency=" + code
  {
    PastPricesUrl(env.formatDate(env.today - 30), env.formatDate(env.today), code)
  }

  /** A lookup's end state, its outcome, the URLs it requested in order, and the 404 bodies it printed. */
  datatype Run = Run(
    state: AppState,
    outcome: Outcome<Failure>,
    requested: seq<string>,
    reported: seq<string>)

  /**
   * `handleCurrencyCall(request)`: validate and store the currency, fetch and handle the current
   * price, then, unless that threw, fetch and handle the 30-day history.
   */
  ghost function CurrencyCall(s: AppState, request: Option<string>, env: Env): (r: Run)
    ensures |r.requested| <= 2 && |r.reported| <= 2
    ensures r.requested == [] <==> request.None? || request.value !in env.registry
    ensures r.requested == [] ==> r.state == s && r.outcome.Fail?
    ensures r.requested != [] ==> r.state.currency == request
                                  && r.requested[0] == CurrentPriceUrl(request.value)
    ensures r.outcome.Pass? ==> r.requested == [CurrentPriceUrl(request.value), HistoryUrl(env, request.value)]
    ensures RangeConsistent(s) ==> RangeConsistent(r.state)
  {
    if request.None? then Run(s, Fail(NullPointer), [], [])
    else if request.value !in env.registry then Run(s, Fail(IllegalArgument), [], [])
    else
      var code := request.value;
      var quoteUrl := CurrentPriceUrl(code);
      var quote := QuoteStage(s.(currency := Some(code)), env.api(quoteUrl), env.grammar);
      if quote.outcome.Fail? then Run(quote.state, quote.outcome, [quoteUrl], quote.reported)
      else
        var historyUrl := HistoryUrl(env, code);
        var history := HistoryStage(quote.state, env.api(historyUrl), env.grammar);
        Run(history.state, history.outcome, [quoteUrl, historyUrl], quote.reported + history.reported)
  }

  /** Every code in the ISO 4217 registry is three upper-case Latin letters. */
  ghost predicate IsoRegistry(registry: set<string>)
  {
    forall c :: c in registry ==> |c| == 3 && forall i :: 0 <= i < 3 ==> 'A' <= c[i] <= 'Z'
  }

  // ---------------------------------------------------------------------------------------------
  // The console's reaction to an escaped exception

  /** The ErrorMessages constant the console prints for a failure it catches by type. */
  function ReportedAs(f: Failure): (e: Option<ErrorMessage>)
    ensures e.Some? ==> e.value != NotFound && e.value != ResponseBodyOfApiIsEmpty
    ensures e.None? <==> f.ResponseBodyIsEmpty? || f.ClassCast?
  {
    match f
    case IllegalArgument => Some(RequestedCurrencyIsNotValid)
    case IOFailure => Some(CoindeskApiServiceFailed)
    case NullPointer => Some(UserInputForCurrencyIsNull)
    case JsonError => Some(CoindeskApiJsonIsNotValidAsMentionInDocumentation)
    case ResponseBodyIsEmpty(_) => None
    case ClassCast => None
  }

  /**
   * The line the console prints when a failure escapes `handleCurrencyCall`: the constant's name,
   * or the exception's own message; None for ClassCastException, which the console does not
   * catch and which ends the program.
   */
  function ConsoleMessage(f: Failure): (m: Option<string>)
    ensures m.None? <==> f.ClassCast?
  {
    if f.ResponseBodyIsEmpty? then Some(f.message)
    else match ReportedAs(f)
      case Some(e) => Some(Name(e))
      case None => None
  }
}
