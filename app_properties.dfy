/**
 * Properties of the currency lookup: what each parser changes and when it throws, the order of the
 * stages, the requests that are and are not made, and the worked examples of the test suite.
 */
module AppProperties {
  import opened Wrappers
  import opened ErrorMessages
  import opened JsonObjects
  import opened Extremes
  import opened Requests
  import opened AppSpec

  // ---------------------------------------------------------------------------------------------
  // Validation comes first

  /** A null or unregistered code throws before any field is written or any request is made. */
  lemma ValidationFirst(s: AppState, request: Option<string>, env: Env)
    ensures request.None? ==> CurrencyCall(s, request, env) == Run(s, Fail(NullPointer), [], [])
    ensures request.Some? && request.value !in env.registry
        ==> CurrencyCall(s, request, env) == Run(s, Fail(IllegalArgument), [], [])
  {
  }

  /** The empty string and "AMERICANUSD" are not ISO 4217 codes, so both are rejected up front. */
  lemma UnregisteredInputsRejected(s: AppState, env: Env)
    requires IsoRegistry(env.registry)
    ensures CurrencyCall(s, Some(""), env) == Run(s, Fail(IllegalArgument), [], [])
    ensures CurrencyCall(s, Some("AMERICANUSD"), env) == Run(s, Fail(IllegalArgument), [], [])
  {
  }

  // ---------------------------------------------------------------------------------------------
  // The first stage decides whether the second request is made

  /** The first stage completed: a 404, a status other than 200, or a body whose rate was read. */
  ghost predicate QuoteCompletes(t: Transport, grammar: Grammar, code: string)
  {
    && t.Response?
    && (t.status == 200 ==> t.body != "" && CurrentRate(t.body, grammar, Some(code)).Success?)
  }

  /**
   * The second request is made exactly when the first stage completes, and it asks for the
   * 30 days ending today for the validated code.
   */
  lemma HistoryRequestedIffQuoteCompletes(s: AppState, code: string, env: Env)
    requires code in env.registry
    ensures var r := CurrencyCall(s, Some(code), env);
      && r.requested[0] == CurrentPricePrefix + code + ".json"
      && (|r.requested| == 2 <==> QuoteCompletes(env.api(CurrentPriceUrl(code)), env.grammar, code))
      && (|r.requested| == 2 ==>
            r.requested[1] == PastPricesPrefix + env.formatDate(env.today - 30) + "&end="
                              + env.formatDate(env.today) + "&currency=" + code)
      && |r.requested| <= 2
  {
  }

  /** An empty 200 body on the first request throws at once, with the enum constant's name. */
  lemma EmptyQuoteBodyStopsLookup(s: AppState, code: string, env: Env)
    requires code in env.registry
    requires env.api(CurrentPriceUrl(code)) == Response(200, "")
    ensures CurrencyCall(s, Some(code), env) == Run(
      s.(currency := Some(code)),
      Fail(ResponseBodyIsEmpty("RESPONSE_BODY_OF_API_IS_EMPTY")),
      [CurrentPriceUrl(code)],
      [])
  {
  }

  /** A current-price body that cannot be read throws and leaves the prices as they were. */
  lemma UnreadableQuoteStopsLookup(s: AppState, code: string, env: Env, body: string)
    requires code in env.registry
    requires body != ""
    requires env.api(CurrentPriceUrl(code)) == Response(200, body)
    requires CurrentRate(body, env.grammar, Some(code)).Failure?
    ensures CurrencyCall(s, Some(code), env) == Run(
      s.(currency := Some(code)),
      Fail(CurrentRate(body, env.grammar, Some(code)).error),
      [CurrentPriceUrl(code)],
      [])
  {
  }

  /** A transport failure on the first request throws IOException, with only the currency stored. */
  lemma TransportFailureStopsLookup(s: AppState, code: string, env: Env)
    requires code in env.registry
    requires env.api(CurrentPriceUrl(code)) == Unreachable
    ensures CurrencyCall(s, Some(code), env)
         == Run(s.(currency := Some(code)), Fail(IOFailure), [CurrentPriceUrl(code)], [])
  {
  }

  /** A readable current-price body stores its rate, and the lookup goes on to the history. */
  lemma QuoteRateIsStored(s: AppState, code: string, env: Env, body: string, rate: real)
    requires code in env.registry
    requires env.api(CurrentPriceUrl(code)) == Response(200, body)
    requires CurrentRate(body, env.grammar, Some(code)) == Success(rate)
    ensures var r := CurrencyCall(s, Some(code), env);
      && r.state.currentPrice == Some(rate)
      && r.state.currency == Some(code)
      && r.requested == [CurrentPriceUrl(code), HistoryUrl(env, code)]
  {
  }

  /** A 404 on the first request prints its body, parses nothing, and the lookup goes on. */
  lemma NotFoundIsReportedAndLookupContinues(s: AppState, code: string, env: Env, body: string)
    requires code in env.registry
    requires env.api(CurrentPriceUrl(code)) == Response(404, body)
    ensures var r := CurrencyCall(s, Some(code), env);
      && r.requested == [CurrentPriceUrl(code), HistoryUrl(env, code)]
      && |r.reported| >= 1 && r.reported[0] == body
      && r.state.currentPrice == s.currentPrice
  {
  }

  /**
   * Any status other than 200 and 404 on the first request parses nothing and throws nothing:
   * the current price stays as it was and the second request follows.
   */
  lemma OtherStatusIsIgnored(s: AppState, code: string, env: Env, status: int, body: string)
    requires code in env.registry
    requires status != 200 && status != 404
    requires env.api(CurrentPriceUrl(code)) == Response(status, body)
    ensures var r := CurrencyCall(s, Some(code), env);
      && r.requested == [CurrentPriceUrl(code), HistoryUrl(env, code)]
      && r.state.currentPrice == s.currentPrice
      && r.state.currency == Some(code)
  {
  }

  // ---------------------------------------------------------------------------------------------
  // The second stage, once the first has completed

  /** A 404 on the history request prints its body, throws nothing and leaves the range alone. */
  lemma HistoryNotFoundIsReported(s: AppState, code: string, env: Env, body: string)
    requires code in env.registry
    requires QuoteCompletes(env.api(CurrentPriceUrl(code)), env.grammar, code)
    requires env.api(HistoryUrl(env, code)) == Response(404, body)
    ensures var r := CurrencyCall(s, Some(code), env);
      && r.outcome == Pass
      && r.requested == [CurrentPriceUrl(code), HistoryUrl(env, code)]
      && |r.reported| >= 1 && r.reported[|r.reported| - 1] == body
      && r.state.minPrice == s.minPrice && r.state.maxPrice == s.maxPrice
  {
  }

  /**
   * An empty 200 body on the history request throws ResponseBodyIsEmpty with its own message,
   * not the enum constant's name, and leaves the range alone.
   */
  lemma EmptyHistoryBodyStopsLookup(s: AppState, code: string, env: Env)
    requires code in env.registry
    requires QuoteCompletes(env.api(CurrentPriceUrl(code)), env.grammar, code)
    requires env.api(HistoryUrl(env, code)) == Response(200, "")
    ensures var r := CurrencyCall(s, Some(code), env);
      && r.outcome == Fail(ResponseBodyIsEmpty("Response body of coindesk.com api is empty"))
      && r.outcome != Fail(ResponseBodyIsEmpty(EmptyQuoteMessage))
      && r.requested == [CurrentPriceUrl(code), HistoryUrl(env, code)]
      && r.state.minPrice == s.minPrice && r.state.maxPrice == s.maxPrice
  {
  }

  /** Any other status on the history request parses nothing, prints nothing and throws nothing. */
  lemma HistoryOtherStatusIsIgnored(s: AppState, code: string, env: Env, status: int, body: string)
    requires code in env.registry
    requires QuoteCompletes(env.api(CurrentPriceUrl(code)), env.grammar, code)
    requires status != 200 && status != 404
    requires env.api(HistoryUrl(env, code)) == Response(status, body)
    ensures var r := CurrencyCall(s, Some(code), env);
      && r.outcome == Pass
      && r.reported == QuoteStage(s.(currency := Some(code)), env.api(CurrentPriceUrl(code)), env.grammar).reported
      && r.state.minPrice == s.minPrice && r.state.maxPrice == s.maxPrice
  {
  }

  /** A transport failure on the history request throws IOException and leaves the range alone. */
  lemma HistoryTransportFailure(s: AppState, code: string, env: Env)
    requires code in env.registry
    requires QuoteCompletes(env.api(CurrentPriceUrl(code)), env.grammar, code)
    requires env.api(HistoryUrl(env, code)) == Unreachable
    ensures var r := CurrencyCall(s, Some(code), env);
      && r.outcome == Fail(IOFailure)
      && r.requested == [CurrentPriceUrl(code), HistoryUrl(env, code)]
      && r.state.minPrice == s.minPrice && r.state.maxPrice == s.maxPrice
  {
  }

  /**
   * A history body the parser cannot read (not an object, no `bpi`, an entry that is not a
   * number) throws that exception out of the lookup, with the range left alone.
   */
  lemma UnreadableHistoryStopsLookup(s: AppState, code: string, env: Env, body: string)
    requires code in env.registry
    requires QuoteCompletes(env.api(CurrentPriceUrl(code)), env.grammar, code)
    requires body != ""
    requires env.api(HistoryUrl(env, code)) == Response(200, body)
    requires PastRange(body, env.grammar).Failure?
    ensures var r := CurrencyCall(s, Some(code), env);
      && r.outcome == Fail(PastRange(body, env.grammar).error)
      && r.requested == [CurrentPriceUrl(code), HistoryUrl(env, code)]
      && r.state.minPrice == s.minPrice && r.state.maxPrice == s.maxPrice
  {
  }

  /** A readable history body stores its range: the lookup ends with exactly those prices. */
  lemma HistoryRangeIsStored(s: AppState, code: string, env: Env, body: string, lo: real, hi: real)
    requires code in env.registry
    requires QuoteCompletes(env.api(CurrentPriceUrl(code)), env.grammar, code)
    requires env.api(HistoryUrl(env, code)) == Response(200, body)
    requires PastRange(body, env.grammar) == Success(Some((lo, hi)))
    ensures var r := CurrencyCall(s, Some(code), env);
      && r.outcome == Pass
      && r.state.minPrice == Some(lo) && r.state.maxPrice == Some(hi)
      && r.state.currency == Some(code)
  {
  }

  // ---------------------------------------------------------------------------------------------
  // The quote parser

  /**
   * The quote parser reads `rate` for `code` exactly when the body is an object whose `bpi` entry
   * for `code` has `rate` as its `rate_float`; other members and other currencies do not matter.
   */
  lemma QuoteRoundTrip(code: string, rate: real, text: string, grammar: Grammar)
    ensures CurrentRate(text, grammar, Some(code)) == Success(rate)
        <==> ParseObject(grammar, text).Some? && Quotes(ParseObject(grammar, text).value, code, rate)
  {
  }

  /** A body without `bpi` makes both parsers throw a JSONException and change nothing. */
  lemma MissingBpiFails(s: AppState, body: string, grammar: Grammar, doc: Fields)
    requires ParseObject(grammar, body) == Some(doc)
    requires "bpi" !in doc
    ensures CurrentPriceStep(s, body, grammar) == Step(s, Fail(JsonError))
    ensures PastPriceStep(s, body, grammar) == Step(s, Fail(JsonError))
  {
  }

  /** A `bpi` without an entry for the currency, or an entry without `rate_float`, throws. */
  lemma MissingQuoteEntryFails(s: AppState, body: string, grammar: Grammar, doc: Fields, code: string)
    requires ParseObject(grammar, body) == Some(doc)
    requires s.currency == Some(code)
    requires "bpi" in doc && doc["bpi"].Object?
    requires code !in doc["bpi"].fields
          || (doc["bpi"].fields[code].Object? && "rate_float" !in doc["bpi"].fields[code].fields)
    ensures CurrentPriceStep(s, body, grammar) == Step(s, Fail(JsonError))
  {
  }

  /** The empty text is not a JSON object, whatever the grammar: the quote parser throws. */
  lemma EmptyQuoteTextFails(s: AppState, grammar: Grammar)
    ensures CurrentPriceStep(s, "", grammar) == Step(s, Fail(JsonError))
  {
  }

  // ---------------------------------------------------------------------------------------------
  // The history parser

  /** The minimum is one of the series' prices and at most every one; the maximum likewise. */
  lemma PastRangeBounds(body: string, grammar: Grammar, doc: Fields, series: Fields, lo: real, hi: real)
    requires ParseObject(grammar, body) == Some(doc)
    requires "bpi" in doc && doc["bpi"] == Object(series)
    requires PastRange(body, grammar) == Success(Some((lo, hi)))
    ensures series != map[]
    ensures exists k :: k in series && series[k] == Number(lo)
    ensures exists k :: k in series && series[k] == Number(hi)
    ensures forall k :: k in series ==> series[k].Number? && lo <= series[k].n <= hi
  {
    var rates := Rates(series);
    assert lo == Least(rates) && hi == Greatest(rates);
    assert lo in rates && hi in rates;
    var kLo :| kLo in series && series[kLo].Number? && series[kLo].n == lo;
    var kHi :| kHi in series && series[kHi].Number? && series[kHi].n == hi;
    forall k | k in series ensures series[k].Number? && lo <= series[k].n <= hi {
      assert series[k].n in rates;
    }
  }

  /** An empty `bpi` object completes normally and leaves both range fields as they were. */
  lemma EmptySeriesKeepsRange(s: AppState, body: string, grammar: Grammar, doc: Fields)
    requires ParseObject(grammar, body) == Some(doc)
    requires "bpi" in doc && doc["bpi"] == Object(map[])
    ensures PastPriceStep(s, body, grammar) == Step(s, Pass)
  {
  }

  /** The text "{}" read as the empty object has no `bpi`: the history parser throws. */
  lemma EmptyObjectHistoryFails(s: AppState, grammar: Grammar)
    requires grammar("{}") == Some(Object(map[]))
    ensures PastPriceStep(s, "{}", grammar) == Step(s, Fail(JsonError))
  {
  }

  /** The prices of a history series are exactly the values of its date-to-price map. */
  lemma HistoryRates(series: map<string, real>)
    ensures var entries := SeriesObject(series).fields;
      AllDecimal(entries) && Rates(entries) == series.Values
  {
    var entries := SeriesObject(series).fields;
    forall x ensures x in Rates(entries) <==> x in series.Values {
      if x in series.Values {
        var d :| d in series && series[d] == x;
        assert entries[d] == Number(x);
      }
    }
  }

  /**
   * Reading a history document gives the least and greatest price of its series, whatever other
   * members (`time`, `disclaimer`) the document has.
   */
  lemma HistoryRoundTrip(series: map<string, real>, text: string, grammar: Grammar, doc: Fields)
    requires ParseObject(grammar, text) == Some(doc)
    requires "bpi" in doc && doc["bpi"] == SeriesObject(series)
    ensures series == map[] ==> PastRange(text, grammar) == Success(None)
    ensures series != map[] ==>
      && series.Values != {}
      && PastRange(text, grammar) == Success(Some((Least(series.Values), Greatest(series.Values))))
  {
    HistoryRates(series);
    var entries := SeriesObject(series).fields;
    assert entries.Keys == series.Keys;
    if series != map[] {
      var d :| d in series;
      assert series[d] in series.Values;
    }
  }

  /** A series with one entry gives that entry's price as both minimum and maximum. */
  lemma SingleEntrySeries(date: string, rate: real, text: string, grammar: Grammar, doc: Fields)
    requires ParseObject(grammar, text) == Some(doc)
    requires "bpi" in doc && doc["bpi"] == SeriesObject(map[date := rate])
    ensures PastRange(text, grammar) == Success(Some((rate, rate)))
  {
    HistoryRoundTrip(map[date := rate], text, grammar, doc);
    assert map[date := rate].Values == {rate} by {
      assert map[date := rate][date] == rate;
    }
    SingletonExtremes(rate);
  }

  /** The history example of the test suite: two closing prices give their minimum and maximum. */
  lemma TwoDayHistoryExample(text: string, grammar: Grammar, doc: Fields)
    requires ParseObject(grammar, text) == Some(doc)
    requires "bpi" in doc && doc["bpi"] == SeriesObject(map["2013-09-01" := 128.2597, "2013-09-02" := 127.3648])
    ensures PastRange(text, grammar) == Success(Some((127.3648, 128.2597)))
  {
    var series := map["2013-09-01" := 128.2597, "2013-09-02" := 127.3648];
    HistoryRoundTrip(series, text, grammar, doc);
    assert series.Values == {128.2597, 127.3648} by {
      assert series["2013-09-01"] == 128.2597;
      assert series["2013-09-02"] == 127.3648;
    }
    ExtremesUnique(series.Values, 127.3648, 128.2597);
  }

  /** One currency's entry in a current-price document, as the service sends it. */
  function QuoteEntry(code: string, rate: string, description: string, rateFloat: real): Json
  {
    Object(map[
      "code" := Str(code),
      "rate" := Str(rate),
      "description" := Str(description),
      "rate_float" := Number(rateFloat)])
  }

  /**
   * A current-price document shaped like the service's (and the test suite's): an update time, a
   * disclaimer, and `bpi` entries for USD and EUR.
   */
  function ServiceQuote(): Json
  {
    Object(map[
      "time" := Object(map["updated" := Str("Oct 20, 2021 09:39:00 UTC")]),
      "disclaimer" := Str("Non-USD currency data converted using hourly conversion rate"),
      "bpi" := Object(map[
        "USD" := QuoteEntry("USD", "63,975.3850", "United States Dollar", 63975.385),
        "EUR" := QuoteEntry("EUR", "55,027.0839", "Euro", 55027.0839)])])
  }

  /** The quote example of the test suite: the same body gives the USD rate or the EUR rate. */
  lemma ServiceQuoteExample(text: string, grammar: Grammar)
    requires OpensObject(text) && grammar(text) == Some(ServiceQuote())
    ensures CurrentRate(text, grammar, Some("USD")) == Success(63975.385)
    ensures CurrentRate(text, grammar, Some("EUR")) == Success(55027.0839)
    ensures CurrentRate(text, grammar, Some("GBP")) == Failure(JsonError)
  {
  }

  // ---------------------------------------------------------------------------------------------
  // The console

  /** Distinct failures the console catches by type print distinct lines. */
  lemma ConsoleMessagesDistinct(f: Failure, g: Failure)
    requires !f.ResponseBodyIsEmpty? && !f.ClassCast?
    requires !g.ResponseBodyIsEmpty? && !g.ClassCast?
    requires f != g
    ensures ConsoleMessage(f) != ConsoleMessage(g)
  {
  }
}
