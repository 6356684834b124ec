/**
 * The command-line quote tool (rust_extractor/src/bin/yf_quote.rs): the same
 * table of data sources as the worker, searched until the first match, whose
 * record carries the code found in the state rather than the requested one;
 * and the run over the comma-separated codes, which skips empty codes, goes
 * on after a state block that does not parse, and stops at the first failed
 * download.
 */
module QuoteCli {
  import opened Base
  import opened Strings
  import opened Json
  import opened Codes
  import opened Locator

  /** `NormalizedData` of the command-line tool. */
  datatype CliRecord = CliRecord(
    code: string, name: string, price: string,
    priceChange: string, priceChangeRate: string, updateTime: string)

  /** One source's match: the same test as the worker's, the found code in the record. */
  function CliSourceMatch(code: string, data: Json, src: DataSource): Option<CliRecord>
  {
    match FindObjectAt(data, src.path)
    case None => None
    case Some(obj) =>
      match GetStringValue(obj, src.codeKey)
      case None => None
      case Some(found) =>
        if Trim(found) == CompareKey(code, src.stripSuffix) then
          Some(CliRecord(found, OrNA(GetStringValue(obj, src.nameKey)),
            ValueText(obj, src.priceKey), ValueText(obj, src.changeKey), ValueText(obj, src.changeRateKey),
            OrNA(GetStringValue(obj, src.timeKey))))
        else None
  }

  function CliSourceMatches(code: string, data: Json, srcs: seq<DataSource>): (ms: seq<Option<CliRecord>>)
    ensures |ms| == |srcs| && forall i :: 0 <= i < |srcs| ==> ms[i] == CliSourceMatch(code, data, srcs[i])
  {
    seq(|srcs|, i requires 0 <= i < |srcs| => CliSourceMatch(code, data, srcs[i]))
  }

  /** The record of the first matching source. */
  function CliLocated(code: string, data: Json): Option<CliRecord>
  {
    FirstSome(CliSourceMatches(code, data, Sources))
  }

  /** The source loop of `main`, which sets the record and breaks at the first match. */
  method LocateRecord(code: string, data: Json) returns (normalized: Option<CliRecord>)
    ensures normalized == CliLocated(code, data)
  {
    ghost var ms := CliSourceMatches(code, data, Sources);
    normalized := None;
    var i := 0;
    while i < |Sources|
      invariant 0 <= i <= |Sources|
      invariant normalized.None? ==> FirstSome(ms) == FirstSome(ms[i..])
      invariant normalized.Some? ==> normalized == FirstSome(ms)
      decreases |Sources| - i, if normalized.None? then 1 else 0
    {
      var src := Sources[i];
      assert ms[i..][0] == ms[i] && ms[i..][1..] == ms[i + 1..];
      var target := FindObject(data, src.path);
      if target.Some? {
        var obj := target.value;
        var found := GetStringValue(obj, src.codeKey);
        if found.Some? {
          var key := if src.stripSuffix then StripSuffix(code) else code;
          if Trim(found.value) == key {
            normalized := Some(CliRecord(found.value, OrNA(GetStringValue(obj, src.nameKey)),
              ValueText(obj, src.priceKey), ValueText(obj, src.changeKey), ValueText(obj, src.changeRateKey),
              OrNA(GetStringValue(obj, src.timeKey))));
            break;
          }
        }
      }
      i := i + 1;
    }
    if normalized.None? {
      assert ms[|Sources|..] == [];
    }
  }

  /** Per source, the tool and the worker accept the same objects and read the same fields. */
  lemma SameMatchPerSource(code: string, data: Json, src: DataSource)
    ensures CliSourceMatch(code, data, src).Some? <==> SourceMatch(code, data, src).Some?
    ensures CliSourceMatch(code, data, src).Some? ==>
      var c := CliSourceMatch(code, data, src).value;
      var w := SourceMatch(code, data, src).value;
      && c.name == w.name && c.price == w.price && c.priceChange == w.priceChange
      && c.priceChangeRate == w.priceChangeRate && c.updateTime == w.updateTime
      && w.code == code && Trim(c.code) == CompareKey(code, src.stripSuffix)
  {
  }

  /**
   * The tool finds a record exactly when the worker's table search does, from
   * the same source and with the same fields; only the code differs: the
   * worker reports the requested code, the tool the code found in the state,
   * which matches the requested one only after trimming and, for stocks,
   * after the requested code loses its suffix.
   */
  lemma CliAgreesWithWorker(code: string, data: Json)
    ensures CliLocated(code, data).Some? <==> Predefined(code, data, Sources).Some?
    ensures CliLocated(code, data).Some? ==>
      var c := CliLocated(code, data).value;
      var w := Predefined(code, data, Sources).value;
      && c.name == w.name && c.price == w.price && c.priceChange == w.priceChange
      && c.priceChangeRate == w.priceChangeRate && c.updateTime == w.updateTime
      && w.code == code
      && exists i :: 0 <= i < |Sources| && Trim(c.code) == CompareKey(code, Sources[i].stripSuffix)
  {
    var cs := CliSourceMatches(code, data, Sources);
    var ws := SourceMatches(code, data, Sources);
    FirstSomeIsFirst(ws);
    if FirstSome(ws).Some? {
      var k :| 0 <= k < |ws| && ws[k] == FirstSome(ws) && forall j :: 0 <= j < k ==> ws[j].None?;
      forall j | 0 <= j < k ensures cs[j].None? {
        SameMatchPerSource(code, data, Sources[j]);
      }
      SameMatchPerSource(code, data, Sources[k]);
      FirstSomeAt(cs, k);
      assert Trim(cs[k].value.code) == CompareKey(code, Sources[k].stripSuffix);
    } else {
      forall j | 0 <= j < |Sources| ensures cs[j].None? {
        SameMatchPerSource(code, data, Sources[j]);
      }
      FirstSomeIsFirst(cs);
    }
  }

  // ---------------------------------------------------------------------
  // The run over the codes
  // ---------------------------------------------------------------------

  /** What the tool reports for one code. */
  datatype Outcome =
    | Found(record: CliRecord)
    | NotFound           // "No data found matching code ... in known locations."
    | NoJsonGroup        // "Could not find JSON data in the script tag ..."
    | NoStateTag         // "Could not find __PRELOADED_STATE__ script tag ..."
    | ParseFailed(msg: string)

  /** The download (`reqwest::get` and `text`), the regex engine and serde_json, as inputs. */
  datatype CliEnvironment = CliEnvironment(
    fetch: string -> Result<string>,
    capture: string -> Capture,
    parse: string -> Result<Json>)

  function Examined(code: string, body: string, env: CliEnvironment): Outcome
  {
    match env.capture(body)
    case NoMatch => NoStateTag
    case NoGroup => NoJsonGroup
    case Group(captured) =>
      match env.parse(StripStateTerminator(captured))
      case Err(e) => ParseFailed(e)
      case Ok(data) => if CliLocated(code, data).Some? then Found(CliLocated(code, data).value) else NotFound
  }

  /** `split(',').map(|s| s.trim())`. */
  function TrimAll(parts: seq<string>): (codes: seq<string>)
    ensures |codes| == |parts| && forall i :: 0 <= i < |parts| ==> codes[i] == Trim(parts[i])
  {
    seq(|parts|, i requires 0 <= i < |parts| => Trim(parts[i]))
  }

  /**
   * The pages the run downloads, each with its code, in order, and the failure
   * that ended the run early, if any: empty codes are skipped without a
   * download, and a failed download ends the run.
   */
  function Downloads(codes: seq<string>, fetch: string -> Result<string>): (seq<(string, string)>, Option<string>)
  {
    if codes == [] then ([], None)
    else if codes[0] == [] then Downloads(codes[1..], fetch)
    else
      match fetch(QuoteUrl(codes[0]))
      case Err(e) => ([], Some(e))
      case Ok(body) =>
        var rest := Downloads(codes[1..], fetch);
        ([(codes[0], body)] + rest.0, rest.1)
  }

  /** The report printed for each downloaded page, in order. */
  function Reported(pages: seq<(string, string)>, env: CliEnvironment): (reports: seq<(string, Outcome)>)
    ensures |reports| == |pages|
  {
    if pages == [] then []
    else
      var (code, body) := pages[|pages| - 1];
      Reported(pages[..|pages| - 1], env) + [(code, Examined(code, body, env))]
  }

  lemma ReportedAppend(pages: seq<(string, string)>, page: (string, string), env: CliEnvironment)
    ensures Reported(pages + [page], env) == Reported(pages, env) + [(page.0, Examined(page.0, page.1, env))]
  {
    assert (pages + [page])[..|pages|] == pages;
  }

  /**
   * The body of `main` after argument parsing: one report per downloaded page,
   * whatever its state block holds, and the failed download, if any.
   */
  method Run(arg: string, env: CliEnvironment) returns (reports: seq<(string, Outcome)>, failure: Option<string>)
    ensures failure == Downloads(TrimAll(Split(arg, ',')), env.fetch).1
    ensures reports == Reported(Downloads(TrimAll(Split(arg, ',')), env.fetch).0, env)
  {
    var codes := TrimAll(Split(arg, ','));
    reports, failure := RunCodes(codes, env);
  }

  method RunCodes(codes: seq<string>, env: CliEnvironment) returns (reports: seq<(string, Outcome)>, failure: Option<string>)
    ensures failure == Downloads(codes, env.fetch).1
    ensures reports == Reported(Downloads(codes, env.fetch).0, env)
  {
    reports := [];
    failure := None;
    ghost var pages: seq<(string, string)> := [];
    assert codes[0..] == codes;
    assert pages + Downloads(codes, env.fetch).0 == Downloads(codes, env.fetch).0;
    for i := 0 to |codes|
      invariant failure.None? && reports == Reported(pages, env)
      invariant Downloads(codes, env.fetch).0 == pages + Downloads(codes[i..], env.fetch).0
      invariant Downloads(codes, env.fetch).1 == Downloads(codes[i..], env.fetch).1
    {
      var code := codes[i];
      DownloadsAt(codes, i, env.fetch, pages);
      if code == [] {
        continue;
      }
      var body := env.fetch(QuoteUrl(code));
      if body.Err? {
        failure := Some(body.msg);
        assert pages + [] == pages;
        return;
      }
      var outcome := Examine(code, body.value, env);
      reports := reports + [(code, outcome)];
      var page := (code, body.value);
      ReportedAppend(pages, page, env);
      pages := pages + [page];
    }
    assert codes[|codes|..] == [];
    assert pages + [] == pages;
  }

  /** One step of the run at position `i`: skip an empty code, stop at a failed download, or keep the page. */
  lemma DownloadsAt(codes: seq<string>, i: nat, fetch: string -> Result<string>, pages: seq<(string, string)>)
    requires i < |codes|
    ensures codes[i] == [] ==> Downloads(codes[i..], fetch) == Downloads(codes[i + 1..], fetch)
    ensures codes[i] != [] && fetch(QuoteUrl(codes[i])).Err? ==>
      Downloads(codes[i..], fetch) == ([], Some(fetch(QuoteUrl(codes[i])).msg))
    ensures codes[i] != [] && fetch(QuoteUrl(codes[i])).Ok? ==>
      var later := Downloads(codes[i + 1..], fetch);
      var page := (codes[i], fetch(QuoteUrl(codes[i])).value);
      && Downloads(codes[i..], fetch) == ([page] + later.0, later.1)
      && pages + Downloads(codes[i..], fetch).0 == (pages + [page]) + later.0
  {
    assert codes[i..][0] == codes[i] && codes[i..][1..] == codes[i + 1..];
  }

  method Examine(code: string, body: string, env: CliEnvironment) returns (outcome: Outcome)
    ensures outcome == Examined(code, body, env)
  {
    match env.capture(body) {
      case NoMatch => outcome := NoStateTag;
      case NoGroup => outcome := NoJsonGroup;
      case Group(captured) =>
        var parsed := env.parse(StripStateTerminator(captured));
        if parsed.Err? {
          return ParseFailed(parsed.msg);
        }
        var normalized := LocateRecord(code, parsed.value);
        outcome := if normalized.Some? then Found(normalized.value) else NotFound;
    }
  }

  function PageCodes(pages: seq<(string, string)>): (codes: seq<string>)
    ensures |codes| == |pages| && forall i :: 0 <= i < |pages| ==> codes[i] == pages[i].0
  {
    seq(|pages|, i requires 0 <= i < |pages| => pages[i].0)
  }

  /**
   * Without a failed download every non-empty trimmed code is downloaded and
   * so reported, in order; with one, the codes reported are those before it.
   */
  lemma {:induction false} DownloadsCoverCodes(parts: seq<string>, fetch: string -> Result<string>)
    ensures Downloads(TrimAll(parts), fetch).1.None? ==> PageCodes(Downloads(TrimAll(parts), fetch).0) == TrimmedCodes(parts)
    ensures |Downloads(TrimAll(parts), fetch).0| <= |TrimmedCodes(parts)|
    ensures PageCodes(Downloads(TrimAll(parts), fetch).0) == TrimmedCodes(parts)[..|Downloads(TrimAll(parts), fetch).0|]
  {
    if parts != [] {
      var codes := TrimAll(parts);
      var rest := parts[1..];
      assert codes[1..] == TrimAll(rest);
      assert parts == [parts[0]] + rest;
      TrimmedCodesCons(parts[0], rest);
      DownloadsCoverCodes(rest, fetch);
      DownloadsStep(codes, fetch);
      var t := TrimmedCodes(rest);
      if codes[0] == [] {
        assert TrimmedCodes(parts) == t;
      } else if fetch(QuoteUrl(codes[0])).Err? {
        assert TrimmedCodes(parts)[..0] == [];
      } else {
        var d := Downloads(codes, fetch);
        var r := Downloads(codes[1..], fetch);
        var pr := PageCodes(r.0);
        assert TrimmedCodes(parts) == [codes[0]] + t;
        assert PageCodes(d.0) == [codes[0]] + pr;
        ConsPrefix(codes[0], t, pr);
      }
    }
  }

  lemma ConsPrefix(x: string, t: seq<string>, r: seq<string>)
    requires |r| <= |t| && r == t[..|r|]
    ensures ([x] + t)[..|r| + 1] == [x] + r
  {
  }

  /** One step of the run, from the front. */
  lemma DownloadsStep(codes: seq<string>, fetch: string -> Result<string>)
    requires codes != []
    ensures codes[0] == [] ==> Downloads(codes, fetch) == Downloads(codes[1..], fetch)
    ensures codes[0] != [] && fetch(QuoteUrl(codes[0])).Err? ==> Downloads(codes, fetch).0 == []
    ensures codes[0] != [] && fetch(QuoteUrl(codes[0])).Ok? ==>
      && Downloads(codes, fetch).1 == Downloads(codes[1..], fetch).1
      && PageCodes(Downloads(codes, fetch).0) == [codes[0]] + PageCodes(Downloads(codes[1..], fetch).0)
  {
  }
}
