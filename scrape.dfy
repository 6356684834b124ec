/**
 * The request layer of selector.rs: the instrument-type dispatch and top-pick
 * of `scrape_dynamically`, the `/quote` endpoint's code list and per-code
 * results, and the `/discover-data` endpoint.
 */
module Scrape {
  import opened Base
  import opened Strings
  import opened Ranking
  import opened Codes
  import opened Discovery

  datatype Pipeline = IndexPipeline | CurrencyPipeline | EquityPipeline

  /** The dispatch of `scrape_dynamically`: `^` is an index, `=X` or `=FX` a currency pair, the rest equities. */
  function ScrapeRoute(code: string): Pipeline
  {
    if StartsWith(code, "^") then IndexPipeline
    else if EndsWith(code, "=X") || EndsWith(code, "=FX") then CurrencyPipeline
    else EquityPipeline
  }

  /** What the chosen `discover_*` function returns. */
  function Pipelined(p: Pipeline, code: string, fetch: Fetcher, num: NumberParser): Result<Discovered>
  {
    match p
    case IndexPipeline => IndexDiscovery(code, fetch, num)
    case CurrencyPipeline => CurrencyDiscovery(code, fetch, num)
    case EquityPipeline => EquityDiscovery(code, fetch, num)
  }

  method RunPipeline(p: Pipeline, code: string, fetch: Fetcher, num: NumberParser) returns (r: Result<Discovered>)
    ensures r == Pipelined(p, code, fetch, num)
  {
    match p
    case IndexPipeline => r := DiscoverIndex(code, fetch, num);
    case CurrencyPipeline => r := DiscoverCurrency(code, fetch, num);
    case EquityPipeline => r := DiscoverEquity(code, fetch, num);
  }

  /** `StockData`. */
  datatype StockData = StockData(
    name: string, code: string, price: string,
    changeAbs: string, changePct: string, updateTime: string)

  /** Each field is the first candidate's text, or empty when there is none. */
  function Picked(code: string, d: Discovered): StockData
  {
    StockData(TopText(d.names), code, TopText(d.prices),
      TopText(d.changeAbs), TopText(d.changePct), TopText(d.updateTimes))
  }

  /**
   * What `scrape_dynamically` returns: the page at the code's URL is fetched
   * first (its failure is the result), then the chosen pipeline runs.
   */
  function Scraped(code: string, fetch: Fetcher, num: NumberParser): Result<StockData>
  {
    match fetch(DiscoverUrl(code))
    case Err(m) => Err(m)
    case Ok(_) =>
      match Pipelined(ScrapeRoute(code), code, fetch, num)
      case Err(m) => Err(m)
      case Ok(d) => Ok(Picked(code, d))
  }

  /** `scrape_dynamically`, without the selector suggestions. */
  method ScrapeDynamically(code: string, fetch: Fetcher, num: NumberParser) returns (r: Result<StockData>)
    ensures r == Scraped(code, fetch, num)
  {
    var page := fetch(DiscoverUrl(code));
    if page.Err? {
      return Err(page.msg);
    }
    var discovered := RunPipeline(ScrapeRoute(code), code, fetch, num);
    if discovered.Err? {
      return Err(discovered.msg);
    }
    var d := discovered.value;
    var name := TopText(d.names);
    var price := TopText(d.prices);
    var changeAbs := TopText(d.changeAbs);
    var changePct := TopText(d.changePct);
    var updateTime := TopText(d.updateTimes);
    r := Ok(StockData(name, code, price, changeAbs, changePct, updateTime));
  }

  /** The three routes partition the codes. */
  lemma RouteCases(code: string)
    ensures ScrapeRoute(code) == IndexPipeline <==> StartsWith(code, "^")
    ensures ScrapeRoute(code) == CurrencyPipeline <==>
      !StartsWith(code, "^") && (EndsWith(code, "=X") || EndsWith(code, "=FX"))
    ensures ScrapeRoute(code) == EquityPipeline <==>
      !StartsWith(code, "^") && !EndsWith(code, "=X") && !EndsWith(code, "=FX")
  {
  }

  /** A pair code `P=X` or `P=FX` (no `=` in `P`, `P` not an index) is routed to the currency pipeline. */
  lemma PairCodesAreCurrencies(p: string)
    requires '=' !in p && !StartsWith(p, "^")
    ensures ScrapeRoute(p + "=X") == CurrencyPipeline
    ensures ScrapeRoute(p + "=FX") == CurrencyPipeline
  {
    EndsWithAppended(p, "=X");
    EndsWithAppended(p, "=FX");
    if p == [] {
      assert p + "=X" == "=X" && p + "=FX" == "=FX";
      assert "=X"[..1][0] == '=' && "=FX"[..1][0] == '=' && "^"[0] == '^';
    } else {
      StartsWithAppended(p, "=X", "^");
      StartsWithAppended(p, "=FX", "^");
    }
  }

  /**
   * Both spellings of a currency pair scrape the same two pages, so when both
   * succeed they give the same data under their own code.
   */
  lemma PairSpellingsAgree(p: string, fetch: Fetcher, num: NumberParser)
    requires '=' !in p && !StartsWith(p, "^")
    requires fetch(DiscoverUrl(p + "=FX")).Ok?
    ensures Scraped(p + "=X", fetch, num).Ok? <==> Scraped(p + "=FX", fetch, num).Ok?
    ensures Scraped(p + "=X", fetch, num).Ok? ==>
      Scraped(p + "=FX", fetch, num).value == Scraped(p + "=X", fetch, num).value.(code := p + "=FX")
  {
    PairCodesAreCurrencies(p);
    CodePairing(p);
  }

  /**
   * With a page, the scraped price is the text of a highest-scoring equity
   * price candidate, or empty when no pattern produced one.
   */
  lemma EquityPriceIsBest(code: string, fetch: Fetcher, num: NumberParser)
    requires ScrapeRoute(code) == EquityPipeline && fetch(DiscoverUrl(code)).Ok?
    ensures var cs := EquityPrices(fetch(DiscoverUrl(code)).value.doc, num);
      var price := Scraped(code, fetch, num).value.price;
      && Scraped(code, fetch, num).Ok?
      && (cs == [] ==> price == [])
      && (cs != [] ==> exists c :: c in cs && c.text == price && forall c' :: c' in cs ==> c'.score <= c.score)
  {
    var cs := EquityPrices(fetch(DiscoverUrl(code)).value.doc, num);
    assert Scraped(code, fetch, num).value.price == TopText(Ranked(cs));
    TopIsHighest(cs);
  }

  // ---------------------------------------------------------------------
  // The `/quote` endpoint
  // ---------------------------------------------------------------------

  /** The codes of every `code` query pair, each value split on `,`, trimmed, empty parts dropped. */
  function QueryCodes(pairs: seq<(string, string)>): (codes: seq<string>)
    ensures forall k :: 0 <= k < |codes| ==> codes[k] != [] && Trim(codes[k]) == codes[k]
  {
    if pairs == [] then []
    else
      var last := pairs[|pairs| - 1];
      QueryCodes(pairs[..|pairs| - 1]) + (if last.0 == "code" then TrimmedCodes(Split(last.1, ',')) else [])
  }

  const MissingCode := "Missing stock code query parameter"

  /** The code list of `/quote`, collected by its nested loops; with no code the request is refused. */
  method QuoteCodes(pairs: seq<(string, string)>) returns (r: Result<seq<string>>)
    ensures QueryCodes(pairs) == [] ==> r == Err(MissingCode)
    ensures QueryCodes(pairs) != [] ==> r == Ok(QueryCodes(pairs))
  {
    var codes: seq<string> := [];
    for i := 0 to |pairs|
      invariant codes == QueryCodes(pairs[..i])
    {
      var (key, value) := pairs[i];
      assert pairs[..i + 1][..i] == pairs[..i];
      if key == "code" {
        codes := PushTrimmed(codes, Split(value, ','));
      }
    }
    assert pairs[..|pairs|] == pairs;
    if codes == [] {
      return Err(MissingCode);
    }
    r := Ok(codes);
  }

  /** The inner loop of `/quote`: each part trimmed and pushed unless empty. */
  method PushTrimmed(codes: seq<string>, parts: seq<string>) returns (out: seq<string>)
    ensures out == codes + TrimmedCodes(parts)
  {
    out := codes;
    for j := 0 to |parts|
      invariant out == codes + TrimmedCodes(parts[..j])
    {
      var trimmed := Trim(parts[j]);
      assert parts[..j + 1][..j] == parts[..j];
      if trimmed != [] {
        out := out + [trimmed];
      }
    }
    assert parts[..|parts|] == parts;
  }

  /** A code is requested exactly when it is the non-empty trim of a part of some `code` value. */
  lemma {:induction false} QueryCodesMembers(pairs: seq<(string, string)>, c: string)
    ensures c in QueryCodes(pairs) <==>
      exists i :: 0 <= i < |pairs| && pairs[i].0 == "code" && c in TrimmedCodes(Split(pairs[i].1, ','))
  {
    if pairs != [] {
      var init := pairs[..|pairs| - 1];
      QueryCodesMembers(init, c);
      assert forall i :: 0 <= i < |init| ==> init[i] == pairs[i];
      if c !in QueryCodes(init) && exists i :: 0 <= i < |pairs| && pairs[i].0 == "code" && c in TrimmedCodes(Split(pairs[i].1, ',')) {
        var i :| 0 <= i < |pairs| && pairs[i].0 == "code" && c in TrimmedCodes(Split(pairs[i].1, ','));
        assert i == |pairs| - 1;
      }
    }
  }

  /**
   * The `/quote` response before serialisation: one entry per code, in
   * order, each the scrape of that code or its error.
   */
  method QuoteEndpoint(pairs: seq<(string, string)>, fetch: Fetcher, num: NumberParser)
    returns (r: Result<seq<Result<StockData>>>)
    ensures QueryCodes(pairs) == [] <==> r == Err(MissingCode)
    ensures r.Ok? ==> |r.value| == |QueryCodes(pairs)|
    ensures r.Ok? ==> forall k :: 0 <= k < |r.value| ==> r.value[k] == Scraped(QueryCodes(pairs)[k], fetch, num)
  {
    var codes := QuoteCodes(pairs);
    if codes.Err? {
      return Err(codes.msg);
    }
    var results := ScrapeEach(codes.value, fetch, num);
    r := Ok(results);
  }

  /** The scrape of every code, in order: what `join_all` over the futures gathers. */
  function ScrapedAll(codes: seq<string>, fetch: Fetcher, num: NumberParser): (rs: seq<Result<StockData>>)
    ensures |rs| == |codes|
    ensures forall k :: 0 <= k < |codes| ==> rs[k] == Scraped(codes[k], fetch, num)
  {
    if codes == [] then [] else ScrapedAll(codes[..|codes| - 1], fetch, num) + [Scraped(codes[|codes| - 1], fetch, num)]
  }

  method ScrapeEach(codes: seq<string>, fetch: Fetcher, num: NumberParser) returns (results: seq<Result<StockData>>)
    ensures results == ScrapedAll(codes, fetch, num)
  {
    results := [];
    for k := 0 to |codes|
      invariant results == ScrapedAll(codes[..k], fetch, num)
    {
      var one := ScrapeDynamically(codes[k], fetch, num);
      assert codes[..k + 1][..k] == codes[..k];
      results := results + [one];
    }
    assert codes[..|codes|] == codes;
  }

  // ---------------------------------------------------------------------
  // The `/discover-data` endpoint
  // ---------------------------------------------------------------------

  /** The dispatch of `/discover-data` as written: only `=X` is sent to the currency pipeline. */
  function DiscoverRouteAsWritten(code: string): (p: Pipeline)
    ensures p == IndexPipeline <==> StartsWith(code, "^")
    ensures p == CurrencyPipeline <==> !StartsWith(code, "^") && EndsWith(code, "=X")
    ensures p == EquityPipeline <==> !StartsWith(code, "^") && !EndsWith(code, "=X")
  {
    if StartsWith(code, "^") then IndexPipeline
    else if EndsWith(code, "=X") then CurrencyPipeline
    else EquityPipeline
  }

  /** The written dispatch sends `USDJPY=FX` to the equity pipeline, where `/quote` treats it as a currency pair. */
  lemma FxCodeMisrouted()
    ensures DiscoverRouteAsWritten("USDJPY=FX") == EquityPipeline
    ensures ScrapeRoute("USDJPY=FX") == CurrencyPipeline
  {
    assert EndsWith("USDJPY=FX", "=FX") by {
      assert "USDJPY=FX"[6..] == "=FX";
    }
    assert !EndsWith("USDJPY=FX", "=X") by {
      assert "USDJPY=FX"[7..] == "FX";
    }
    assert !StartsWith("USDJPY=FX", "^") by {
      assert "USDJPY=FX"[..1] == "U";
    }
  }

  /** The two dispatches differ exactly on non-index codes ending in `=FX`. */
  lemma RoutesDiffer(code: string)
    ensures DiscoverRouteAsWritten(code) != ScrapeRoute(code) <==>
      !StartsWith(code, "^") && EndsWith(code, "=FX")
  {
    assert EndsWith(code, "=FX") ==> code[|code| - 2] == 'F';
  }

  /**
   * The `/discover-data` handler over a dispatch: a request without `code` is
   * refused, otherwise the chosen pipeline's lists are returned, or its error
   * behind a fixed prefix.
   */
  function DiscoverDataVia(route: string -> Pipeline, pairs: seq<(string, string)>, fetch: Fetcher, num: NumberParser): (r: Result<Discovered>)
    ensures FirstValue(pairs, "code").None? ==> r == Err("Missing 'code' query parameter")
    ensures FirstValue(pairs, "code").Some? ==>
      var code := FirstValue(pairs, "code").value;
      var p := Pipelined(route(code), code, fetch, num);
      && (r.Ok? <==> p.Ok?)
      && (r.Ok? ==> r.value == p.value)
      && (r.Err? ==> r.msg == "Failed to discover data: " + p.msg)
  {
    match FirstValue(pairs, "code")
    case None => Err("Missing 'code' query parameter")
    case Some(code) =>
      match Pipelined(route(code), code, fetch, num)
      case Err(m) => Err("Failed to discover data: " + m)
      case Ok(d) => Ok(d)
  }

  /**
   * The `/discover-data` handler as written, with its own dispatch: a
   * non-index `=FX` code gets the equity pipeline's lists.
   */
  function DiscoverData(pairs: seq<(string, string)>, fetch: Fetcher, num: NumberParser): (r: Result<Discovered>)
    ensures FirstValue(pairs, "code").None? ==> r == Err("Missing 'code' query parameter")
    ensures FirstValue(pairs, "code").Some? ==>
      var code := FirstValue(pairs, "code").value;
      !StartsWith(code, "^") && EndsWith(code, "=FX") ==>
        && (r.Ok? <==> EquityDiscovery(code, fetch, num).Ok?)
        && (r.Ok? ==> r.value == EquityDiscovery(code, fetch, num).value)
  {
    match FirstValue(pairs, "code")
    case None => DiscoverDataVia(DiscoverRouteAsWritten, pairs, fetch, num)
    case Some(code) =>
      RoutesDiffer(code);
      DiscoverDataVia(DiscoverRouteAsWritten, pairs, fetch, num)
  }

  /**
   * With the dispatch its comment intends, the one `scrape_dynamically` uses,
   * `/discover-data` returns exactly the lists `/quote` picks its fields
   * from, whenever the code's page exists.
   */
  lemma DiscoverDataMatchesQuote(code: string, fetch: Fetcher, num: NumberParser)
    requires fetch(DiscoverUrl(code)).Ok?
    ensures DiscoverDataVia(ScrapeRoute, [("code", code)], fetch, num).Ok? <==> Scraped(code, fetch, num).Ok?
    ensures DiscoverDataVia(ScrapeRoute, [("code", code)], fetch, num).Ok? ==>
      Scraped(code, fetch, num).value == Picked(code, DiscoverDataVia(ScrapeRoute, [("code", code)], fetch, num).value)
  {
  }

  /** As written, `/discover-data` answers as intended on every code but a non-index `=FX` one. */
  lemma DiscoverDataAsIntended(pairs: seq<(string, string)>, fetch: Fetcher, num: NumberParser)
    requires FirstValue(pairs, "code").Some? ==>
      StartsWith(FirstValue(pairs, "code").value, "^") || !EndsWith(FirstValue(pairs, "code").value, "=FX")
    ensures DiscoverData(pairs, fetch, num) == DiscoverDataVia(ScrapeRoute, pairs, fetch, num)
  {
    if FirstValue(pairs, "code").Some? {
      RoutesDiffer(FirstValue(pairs, "code").value);
    }
  }
}
