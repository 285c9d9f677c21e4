/**
 * The two requests the application sends to the price service: URL construction from the endpoint
 * templates, the transport (an oracle standing for the HTTP client) and the classification of a
 * response by status code and body.
 */
module Requests {
  import opened ErrorMessages

  /**
   * A `String.format` template whose only conversions are `%s`, kept as the literal texts between
   * its conversions: `parts[0] %s parts[1] %s ... parts[n]`.
   */
  datatype Template = Template(parts: seq<string>)
  {
    ghost predicate Valid()
    {
      |parts| >= 1
    }

    /** The number of `%s` conversions. */
    function Conversions(): nat
      requires Valid()
    {
      |parts| - 1
    }

    /** The template as written in the source: the parts joined by "%s". */
    function Text(): string
      requires Valid()
      decreases |parts|
    {
      if |parts| == 1 then parts[0] else parts[0] + "%s" + Template(parts[1..]).Text()
    }

    /**
     * `String.format(template, args)`: each conversion replaced by the next argument. Java throws
     * when arguments run out, hence the precondition; extra arguments are ignored.
     */
    function Format(args: seq<string>): (r: string)
      requires Valid() && Conversions() <= |args|
      ensures parts[0] <= r
      decreases |parts|
    {
      if |parts| == 1 then parts[0] else parts[0] + args[0] + Template(parts[1..]).Format(args[1..])
    }

    /**
     * The formatted text is as long as the literal parts and the substituted arguments together,
     * and it ends with the last literal part.
     */
    lemma {:induction false} FormatShape(args: seq<string>)
      requires Valid() && Conversions() <= |args|
      ensures |Format(args)| == TotalLength(parts) + TotalLength(args[..Conversions()])
      ensures |parts[|parts| - 1]| <= |Format(args)|
      ensures Format(args)[|Format(args)| - |parts[|parts| - 1]|..] == parts[|parts| - 1]
      decreases |parts|
    {
      if |parts| == 1 {
        assert args[..0] == [];
      } else {
        var tail := Template(parts[1..]);
        tail.FormatShape(args[1..]);
        assert args[..Conversions()][1..] == args[1..][..tail.Conversions()];
        var rest := tail.Format(args[1..]);
        var r := Format(args);
        assert r == parts[0] + args[0] + rest;
        assert r[|r| - |rest|..] == rest;
      }
    }
  }

  /** The combined length of a sequence of strings. */
  function TotalLength(strs: seq<string>): nat
  {
    if strs == [] then 0 else |strs[0]| + TotalLength(strs[1..])
  }

  const CurrentPricePrefix := "https://api.coindesk.com/v1/bpi/currentprice/"
  const PastPricesPrefix := "https://api.coindesk.com/v1/bpi/historical/close.json?start="

  /** BITCOIN_CURRENT_PRICE_ENDPOINT */
  const CurrentPriceEndpoint := Template([CurrentPricePrefix, ".json"])
  /** BITCOIN_PAST_PRICES_ENDPOINT */
  const PastPricesEndpoint := Template([PastPricesPrefix, "&end=", "&currency=", ""])

  /** The two templates spell out the constants of the source, with one and three conversions. */
  lemma EndpointTexts()
    ensures CurrentPriceEndpoint.Valid() && CurrentPriceEndpoint.Conversions() == 1
    ensures CurrentPriceEndpoint.Text() == "https://api.coindesk.com/v1/bpi/currentprice/%s.json"
    ensures PastPricesEndpoint.Valid() && PastPricesEndpoint.Conversions() == 3
    ensures PastPricesEndpoint.Text()
         == "https://api.coindesk.com/v1/bpi/historical/close.json?start=%s&end=%s&currency=%s"
  {
    assert CurrentPriceEndpoint.parts[1..] == [".json"];
    assert PastPricesEndpoint.parts[1..] == ["&end=", "&currency=", ""];
    assert PastPricesEndpoint.parts[1..][1..] == ["&currency=", ""];
    assert PastPricesEndpoint.parts[1..][1..][1..] == [""];
    var tail := Template(["&currency=", ""]);
    assert tail.parts[1..] == [""];
    assert tail.Text() == "&currency=%s";
    var middle := Template(["&end=", "&currency=", ""]);
    assert middle.parts[1..] == tail.parts;
    assert middle.Text() == "&end=%s&currency=%s";
  }

  /** The current-price URL for a currency code: the code substituted into the endpoint template. */
  function CurrentPriceUrl(code: string): (url: string)
    ensures url == CurrentPricePrefix + code + ".json"
  {
    assert CurrentPriceEndpoint.parts[1..] == [".json"];
    assert [code][1..] == [];
    assert Template([".json"]).Format([]) == ".json";
    CurrentPriceEndpoint.Format([code])
  }

  /** The history URL for a start date, an end date and a currency code, in that order. */
  function PastPricesUrl(start: string, end: string, code: string): (url: string)
    ensures url == PastPricesPrefix + start + "&end=" + end + "&currency=" + code
  {
    var tail := Template(["&currency=", ""]);
    assert tail.parts[1..] == [""];
    assert tail.Format([code]) == "&currency=" + code + "";
    var middle := Template(["&end=", "&currency=", ""]);
    assert middle.parts[1..] == tail.parts;
    assert [end, code][1..] == [code];
    assert middle.Format([end, code]) == "&end=" + end + tail.Format([code]);
    assert PastPricesEndpoint.parts[1..] == middle.parts;
    assert [start, end, code][1..] == [end, code];
    PastPricesEndpoint.Format([start, end, code])
  }

  /** Different currency codes give different current-price URLs: the URL names the currency. */
  lemma CurrentPriceUrlInjective(a: string, b: string)
    requires CurrentPriceUrl(a) == CurrentPriceUrl(b)
    ensures a == b
  {
    var n := |CurrentPricePrefix|;
    var u := CurrentPriceUrl(a);
    assert |a| == |b|;
    assert a == u[n..n + |a|];
    assert b == u[n..n + |b|];
  }

  /** What `callApi` and reading the body give: a status and a body, or an IOException. */
  datatype Transport = Unreachable | Response(status: int, body: string)

  /** The price service as the client sees it: the outcome of a GET on each URL. */
  type Api = string -> Transport

  /** What the application does with one response. */
  datatype Disposition =
    | ReportBody       // status 404: print the body and carry on
    | RejectEmptyBody  // status 200 with an empty body: throw ResponseBodyIsEmpty
    | ParseBody        // status 200 with a body: hand it to the parser
    | Ignore           // any other status: nothing is parsed and nothing is thrown

  /**
   * The status test both fetches apply: first against NOT_FOUND's code, then against 200 and
   * the body's emptiness.
   */
  function Classify(status: int, body: string): (d: Disposition)
    ensures d == ReportBody <==> status == 404
    ensures d == RejectEmptyBody <==> status == 200 && body == ""
    ensures d == ParseBody <==> status == 200 && body != ""
    ensures d == Ignore <==> status != 404 && status != 200
  {
    if status == ErrorCode(NotFound) then ReportBody
    else if status == 200 then (if body == "" then RejectEmptyBody else ParseBody)
    else Ignore
  }
}
