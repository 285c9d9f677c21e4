/**
 * The `App` object: its four fields and the methods that update them in place. Each method is
 * proved to move the object exactly as the corresponding function of AppSpec says.
 */
module BitcoinStatus {
  import opened Wrappers
  import opened JsonObjects
  import opened Extremes
  import opened Requests
  import opened AppSpec

  class App {
    var currency: Option<string>
    var currentPrice: Option<real>
    var minPrice: Option<real>
    var maxPrice: Option<real>

    /** The object's fields as a value. */
    function State(): AppState
      reads this
    {
      AppState(currency, currentPrice, minPrice, maxPrice)
    }

    /** The object invariant: the range fields are set together and in order. */
    ghost predicate Valid()
      reads this
    {
      RangeConsistent(State())
    }

    /** `App()`: every field starts out null. */
    constructor ()
      ensures State() == Initial
      ensures Valid()
    {
      currency := None;
      currentPrice := None;
      minPrice := None;
      maxPrice := None;
    }

    /** `setCurrency`: stores the currency and changes nothing else. */
    method SetCurrency(c: Option<string>)
      requires Valid()
      modifies this
      ensures Valid()
      ensures State() == old(State()).(currency := c)
    {
      currency := c;
    }

    /** `parseCurrentBitcoinPrice(str)`. */
    method ParseCurrentBitcoinPrice(str: string, grammar: Grammar) returns (outcome: Outcome<Failure>)
      requires Valid()
      modifies this
      ensures Valid()
      ensures Step(State(), outcome) == CurrentPriceStep(old(State()), str, grammar)
    {
      var rate := CurrentRate(str, grammar, currency);
      if rate.Failure? {
        return Fail(rate.error);
      }
      currentPrice := Some(rate.value);
      return Pass;
    }

    /**
     * `parseBitcoinPastPrice(str)`: folds the `bpi` entries into a running minimum and maximum,
     * visiting them in an unspecified order, and stores the range only if some entry was seen.
     */
    method ParseBitcoinPastPrice(str: string, grammar: Grammar) returns (outcome: Outcome<Failure>)
      requires Valid()
      modifies this
      ensures Valid()
      ensures Step(State(), outcome) == PastPriceStep(old(State()), str, grammar)
    {
      var doc := ParseObject(grammar, str);
      if doc.None? {
        return Fail(JsonError);
      }
      var bpi := GetObject(doc.value, "bpi");
      if bpi.None? {
        return Fail(JsonError);
      }
      var series := bpi.value;
      var minRate: Option<real> := None;
      var maxRate: Option<real> := None;
      var remaining := series.Keys;
      ghost var seen: seq<real> := [];
      while remaining != {}
        invariant remaining <= series.Keys
        invariant forall k :: k in series && k !in remaining ==> series[k].Number?
        invariant Elements(seen) == RatesOf(series, series.Keys - remaining)
        invariant seen == [] <==> remaining == series.Keys
        invariant minRate == FoldMin(seen) && maxRate == FoldMax(seen)
        decreases remaining
      {
        var key :| key in remaining;
        var entry := series[key];
        if !entry.Number? {
          return Fail(ClassCast);
        }
        var rate := entry.n;
        minRate := if minRate.None? then Some(rate) else Some(Min(minRate.value, rate));
        maxRate := if maxRate.None? then Some(rate) else Some(Max(maxRate.value, rate));
        assert (seen + [rate])[..|seen|] == seen;
        assert Elements(seen + [rate]) == Elements(seen) + {rate};
        assert RatesOf(series, series.Keys - (remaining - {key}))
            == RatesOf(series, series.Keys - remaining) + {rate};
        seen := seen + [rate];
        remaining := remaining - {key};
      }
      assert series.Keys - remaining == series.Keys;
      if minRate.Some? && maxRate.Some? {
        FoldIsExtremes(seen);
        if currency.None? {
          return Fail(NullPointer);
        }
        maxPrice := maxRate;
        minPrice := minRate;
      } else {
        assert series == map[];
      }
      return Pass;
    }

    /**
     * `handleCurrencyCall(request)`: returns what it threw (if anything), the URLs it requested in
     * order, and the 404 bodies it printed.
     */
    method HandleCurrencyCall(request: Option<string>, env: Env)
      returns (outcome: Outcome<Failure>, requested: seq<string>, reported: seq<string>)
      requires Valid()
      modifies this
      ensures Valid()
      ensures Run(State(), outcome, requested, reported) == CurrencyCall(old(State()), request, env)
    {
      requested, reported := [], [];
      // Currency.getInstance: null and unregistered codes throw before anything is stored
      if request.None? {
        return Fail(NullPointer), requested, reported;
      }
      if request.value !in env.registry {
        return Fail(IllegalArgument), requested, reported;
      }
      SetCurrency(request);

      var url := CurrentPriceUrl(currency.value);
      requested := requested + [url];
      var response := env.api(url);
      if response.Unreachable? {
        return Fail(IOFailure), requested, reported;
      }
      match Classify(response.status, response.body) {
        case ReportBody =>
          reported := reported + [response.body];
        case RejectEmptyBody =>
          return Fail(ResponseBodyIsEmpty(EmptyQuoteMessage)), requested, reported;
        case ParseBody =>
          outcome := ParseCurrentBitcoinPrice(response.body, env.grammar);
          if outcome.Fail? {
            return outcome, requested, reported;
          }
        case Ignore =>
      }

      url := PastPricesUrl(env.formatDate(env.today - 30), env.formatDate(env.today), currency.value);
      requested := requested + [url];
      response := env.api(url);
      if response.Unreachable? {
        return Fail(IOFailure), requested, reported;
      }
      match Classify(response.status, response.body) {
        case ReportBody =>
          reported := reported + [response.body];
        case RejectEmptyBody =>
          return Fail(ResponseBodyIsEmpty(EmptyHistoryMessage)), requested, reported;
        case ParseBody =>
          outcome := ParseBitcoinPastPrice(response.body, env.grammar);
          return outcome, requested, reported;
        case Ignore =>
      }
      return Pass, requested, reported;
    }
  }
}
