/**
 * The schema-based locator of the quote worker (yf_quote_worker/src/lib.rs):
 * a fixed table of places in `window.__PRELOADED_STATE__` where a quote may
 * sit, the path descent that finds the object at each place, the code match
 * that decides whether the object is the requested quote, the generic
 * key-set fallback, and the per-code result of the worker's request.
 */
module Locator {
  import opened Base
  import opened Strings
  import opened Json
  import opened Codes
  import opened KeySearch

  /** A known location of quote data: the key path of the object and the keys read from it. */
  datatype DataSource = DataSource(
    path: seq<string>,
    codeKey: string, nameKey: string, priceKey: string,
    changeKey: string, changeRateKey: string, timeKey: string,
    stripSuffix: bool)

  const StocksSource := DataSource(["mainStocksPriceBoard", "priceBoard"],
    "code", "name", "price", "priceChange", "priceChangeRate", "priceDateTime", true)
  const CurrencySource := DataSource(["mainCurrencyPriceBoard", "currencyPrices"],
    "currencyPairCode", "currencyPairName", "bid", "priceChange", "priceChangeRate", "priceUpdateTime", false)
  const DomesticIndexSource := DataSource(["mainDomesticIndexPriceBoard", "indexPrices"],
    "code", "name", "price", "changePrice", "changePriceRate", "japanUpdateTime", false)

  /** The table, in the order it is tried: stocks, currency pairs, domestic indices. */
  const Sources: seq<DataSource> := [StocksSource, CurrencySource, DomesticIndexSource]

  // ---------------------------------------------------------------------
  // Descending a key path
  // ---------------------------------------------------------------------

  /** The value `get` reaches along `path`, or `None` once a key is missing. */
  function Descend(v: Json, path: seq<string>): Option<Json>
    decreases |path|
  {
    if path == [] then Some(v)
    else
      match Get(v, path[0])
      case None => None
      case Some(x) => Descend(x, path[1..])
  }

  /** `find_object`: the object at the end of the path, if every key exists and the last value is an object. */
  function FindObjectAt(v: Json, path: seq<string>): Option<seq<(string, Json)>>
  {
    match Descend(v, path)
    case None => None
    case Some(x) => AsObject(x)
  }

  /** `find_object`'s loop, which gives up at the first missing key. */
  method FindObject(v: Json, path: seq<string>) returns (r: Option<seq<(string, Json)>>)
    ensures r == FindObjectAt(v, path)
  {
    var current := v;
    for i := 0 to |path|
      invariant Descend(v, path) == Descend(current, path[i..])
    {
      assert path[i..][1..] == path[i + 1..];
      var next := Get(current, path[i]);
      if next.None? {
        return None;
      }
      current := next.value;
    }
    assert path[|path|..] == [];
    r := AsObject(current);
  }

  /**
   * The descent succeeds exactly when each key exists in the value the
   * previous keys index to, and it then ends where indexing ends.
   */
  lemma {:induction false} DescendAllKeys(v: Json, path: seq<string>)
    ensures Descend(v, path).Some? <==>
      forall i :: 0 <= i < |path| ==> Get(IndexPath(v, path[..i]), path[i]).Some?
    ensures Descend(v, path).Some? ==> Descend(v, path).value == IndexPath(v, path)
    decreases |path|
  {
    if path != [] {
      var rest := path[1..];
      assert forall i :: 0 <= i < |rest| ==> rest[i] == path[i + 1];
      assert forall i :: 0 < i <= |path| ==> path[..i] == [path[0]] + rest[..i - 1];
      assert path[..0] == [];
      match Get(v, path[0])
      case None =>
      case Some(x) =>
        DescendAllKeys(x, rest);
        forall i | 0 <= i < |rest|
          ensures IndexPath(v, path[..i + 1]) == IndexPath(x, rest[..i])
        {
          assert path[..i + 1][1..] == rest[..i];
        }
        if forall i :: 0 <= i < |path| ==> Get(IndexPath(v, path[..i]), path[i]).Some? {
          forall i | 0 <= i < |rest|
            ensures Get(IndexPath(x, rest[..i]), rest[i]).Some?
          {
            assert Get(IndexPath(v, path[..i + 1]), path[i + 1]).Some?;
          }
        }
    }
  }

  /** `find_object` returns an object exactly when every key exists along the path and the last value is an object. */
  lemma FindObjectCharacterised(v: Json, path: seq<string>)
    ensures FindObjectAt(v, path).Some? <==>
      (forall i :: 0 <= i < |path| ==> Get(IndexPath(v, path[..i]), path[i]).Some?) && IndexPath(v, path).JObj?
    ensures FindObjectAt(v, path).Some? ==> IndexPath(v, path) == JObj(FindObjectAt(v, path).value)
  {
    DescendAllKeys(v, path);
  }

  // ---------------------------------------------------------------------
  // Reading a record
  // ---------------------------------------------------------------------

  /** `get_string_value`: the member's text when it is a JSON string. */
  function GetStringValue(obj: seq<(string, Json)>, key: string): (r: Option<string>)
    ensures r.Some? <==> HasKey(obj, key) && Lookup(obj, key).value.JStr?
    ensures r.Some? ==> Lookup(obj, key) == Some(JStr(r.value))
  {
    match Lookup(obj, key)
    case Some(JStr(s)) => Some(s)
    case _ => None
  }

  const NA := "N/A"

  function OrNA(o: Option<string>): string
  {
    if o.Some? then o.value else NA
  }

  /** `obj.get(key).map_or("N/A", ..)`, the value rendered and its double quotes trimmed from both ends. */
  function ValueText(obj: seq<(string, Json)>, key: string): (t: string)
    ensures !HasKey(obj, key) ==> t == NA
    ensures HasKey(obj, key) ==> t == PlainText(Lookup(obj, key).value)
  {
    match Lookup(obj, key)
    case None => NA
    case Some(x) => PlainText(x)
  }

  /** `NormalizedData` of the worker. */
  datatype Record = Record(
    code: string, name: string, price: string,
    priceChange: string, priceChangeRate: string, updateTime: string,
    status: string, source: string)

  /** The key a source compares the found code with: the code before its first `.` when the source strips suffixes. */
  function CompareKey(code: string, strip: bool): string
  {
    if strip then StripSuffix(code) else code
  }

  /** The record a predefined source yields: the requested code, and `N/A` where a key is absent. */
  function SourceRecord(code: string, obj: seq<(string, Json)>, src: DataSource): (r: Record)
    ensures r.code == code && r.status == "OK" && r.source == "json_predefined"
    ensures !HasKey(obj, src.nameKey) ==> r.name == NA
    ensures !HasKey(obj, src.priceKey) ==> r.price == NA
    ensures !HasKey(obj, src.changeKey) ==> r.priceChange == NA
    ensures !HasKey(obj, src.changeRateKey) ==> r.priceChangeRate == NA
    ensures !HasKey(obj, src.timeKey) ==> r.updateTime == NA
  {
    Record(code, OrNA(GetStringValue(obj, src.nameKey)),
      ValueText(obj, src.priceKey), ValueText(obj, src.changeKey), ValueText(obj, src.changeRateKey),
      OrNA(GetStringValue(obj, src.timeKey)), "OK", "json_predefined")
  }

  /** One source: its object exists, holds a string code, and the trimmed code equals the comparison key. */
  function SourceMatch(code: string, data: Json, src: DataSource): Option<Record>
  {
    match FindObjectAt(data, src.path)
    case None => None
    case Some(obj) =>
      match GetStringValue(obj, src.codeKey)
      case None => None
      case Some(found) =>
        if Trim(found) == CompareKey(code, src.stripSuffix) then Some(SourceRecord(code, obj, src)) else None
  }

  /** The outcome of each source, in table order. */
  function SourceMatches(code: string, data: Json, srcs: seq<DataSource>): (ms: seq<Option<Record>>)
    ensures |ms| == |srcs| && forall i :: 0 <= i < |srcs| ==> ms[i] == SourceMatch(code, data, srcs[i])
  {
    seq(|srcs|, i requires 0 <= i < |srcs| => SourceMatch(code, data, srcs[i]))
  }

  /** The first source, in order, that matches. */
  function Predefined(code: string, data: Json, srcs: seq<DataSource>): Option<Record>
  {
    FirstSome(SourceMatches(code, data, srcs))
  }

  /** The result is the match of the first matching source; no source matching gives none. */
  lemma PredefinedIsFirstMatch(code: string, data: Json, srcs: seq<DataSource>)
    ensures Predefined(code, data, srcs).None? <==> forall i :: 0 <= i < |srcs| ==> SourceMatch(code, data, srcs[i]).None?
    ensures Predefined(code, data, srcs).Some? ==>
      exists i :: 0 <= i < |srcs| && SourceMatch(code, data, srcs[i]) == Predefined(code, data, srcs)
        && forall j :: 0 <= j < i ==> SourceMatch(code, data, srcs[j]).None?
  {
    FirstSomeIsFirst(SourceMatches(code, data, srcs));
  }

  /**
   * A source matches exactly when its object exists, holds a string code, and that
   * code trimmed equals the comparison key; the match is then that object's record,
   * under the requested code and tagged `json_predefined`.
   */
  lemma SourceMatchIsTagged(code: string, data: Json, src: DataSource)
    ensures SourceMatch(code, data, src).Some? <==>
      && FindObjectAt(data, src.path).Some?
      && GetStringValue(FindObjectAt(data, src.path).value, src.codeKey).Some?
      && Trim(GetStringValue(FindObjectAt(data, src.path).value, src.codeKey).value) == CompareKey(code, src.stripSuffix)
    ensures SourceMatch(code, data, src).Some? ==>
      SourceMatch(code, data, src).value == SourceRecord(code, FindObjectAt(data, src.path).value, src)
    ensures SourceMatch(code, data, src).Some? ==>
      SourceMatch(code, data, src).value.code == code && SourceMatch(code, data, src).value.source == "json_predefined"
  {
  }

  // ---------------------------------------------------------------------
  // The generic fallback
  // ---------------------------------------------------------------------

  const FallbackKeys: seq<string> := ["code", "name"]

  /** The fallback record: fixed keys, the update time rendered like the price, tagged `json_fallback`. */
  function FallbackRecord(code: string, obj: seq<(string, Json)>): (r: Record)
    ensures r.code == code && r.status == "OK" && r.source == "json_fallback"
    ensures !HasKey(obj, "price") ==> r.price == NA
    ensures !HasKey(obj, "priceDateTime") ==> r.updateTime == NA
  {
    Record(code, OrNA(GetStringValue(obj, "name")),
      ValueText(obj, "price"), ValueText(obj, "priceChange"), ValueText(obj, "priceChangeRate"),
      ValueText(obj, "priceDateTime"), "OK", "json_fallback")
  }

  /** One found path: indexing along it reaches an object whose trimmed string code is the code before its first `.`. */
  function PathMatch(code: string, data: Json, path: seq<string>): Option<Record>
  {
    match AsObject(IndexPath(data, path))
    case None => None
    case Some(obj) =>
      match GetStringValue(obj, "code")
      case None => None
      case Some(found) => if Trim(found) == StripSuffix(code) then Some(FallbackRecord(code, obj)) else None
  }

  function PathMatches(code: string, data: Json, paths: seq<seq<string>>): (ms: seq<Option<Record>>)
    ensures |ms| == |paths| && forall i :: 0 <= i < |paths| ==> ms[i] == PathMatch(code, data, paths[i])
  {
    seq(|paths|, i requires 0 <= i < |paths| => PathMatch(code, data, paths[i]))
  }

  /** The first found path, in search order, that matches. */
  function Fallback(code: string, data: Json, paths: seq<seq<string>>): Option<Record>
  {
    FirstSome(PathMatches(code, data, paths))
  }

  const NoMatchInJson := "Could not find matching data in JSON."

  /** `process_json_data`: a predefined source, else the fallback over the `{code, name}` objects, else an error. */
  function Processed(code: string, data: Json): Result<Record>
  {
    match Predefined(code, data, Sources)
    case Some(r) => Ok(r)
    case None =>
      match Fallback(code, data, Paths(data, FallbackKeys, []))
      case Some(r) => Ok(r)
      case None => Err(NoMatchInJson)
  }

  /** `process_json_data`: the table sources first, then the fallback over the `{code, name}` objects, then the error. */
  method ProcessJsonData(code: string, data: Json) returns (r: Result<Record>)
    ensures r == Processed(code, data)
  {
    var pre := FirstSourceMatch(code, data, Sources);
    if pre.Some? {
      return Ok(pre.value);
    }
    var paths := FindObjectPaths(data, FallbackKeys);
    var fb := FirstPathMatch(code, data, paths);
    if fb.Some? {
      return Ok(fb.value);
    }
    r := Err(NoMatchInJson);
  }

  /** The loop over the table, returning at the first source whose object holds the code. */
  method FirstSourceMatch(code: string, data: Json, srcs: seq<DataSource>) returns (m: Option<Record>)
    ensures m == Predefined(code, data, srcs)
  {
    ghost var ms := SourceMatches(code, data, srcs);
    for i := 0 to |srcs|
      invariant FirstSome(ms) == FirstSome(ms[i..])
    {
      var src := srcs[i];
      assert ms[i..][0] == ms[i] && ms[i..][1..] == ms[i + 1..];
      var target := FindObject(data, src.path);
      if target.Some? {
        var found := GetStringValue(target.value, src.codeKey);
        if found.Some? {
          var key := if src.stripSuffix then StripSuffix(code) else code;
          if Trim(found.value) == key {
            return Some(SourceRecord(code, target.value, src));
          }
        }
      }
    }
    assert ms[|srcs|..] == [];
    m := None;
  }

  /** The fallback's loop over the found paths, returning at the first object whose code matches. */
  method FirstPathMatch(code: string, data: Json, paths: seq<seq<string>>) returns (m: Option<Record>)
    ensures m == Fallback(code, data, paths)
  {
    ghost var fs := PathMatches(code, data, paths);
    for i := 0 to |paths|
      invariant FirstSome(fs) == FirstSome(fs[i..])
    {
      var path := paths[i];
      assert fs[i..][0] == fs[i] && fs[i..][1..] == fs[i + 1..];
      var target := IndexAlong(data, path);
      if target.JObj? {
        var found := GetStringValue(target.members, "code");
        if found.Some? && Trim(found.value) == StripSuffix(code) {
          return Some(FallbackRecord(code, target.members));
        }
      }
    }
    assert fs[|paths|..] == [];
    m := None;
  }

  /** The fallback's walk, `target_obj = &target_obj[key]` for each key of the path. */
  method IndexAlong(data: Json, path: seq<string>) returns (target: Json)
    ensures target == IndexPath(data, path)
  {
    target := data;
    for j := 0 to |path|
      invariant IndexPath(data, path) == IndexPath(target, path[j..])
    {
      assert path[j..][1..] == path[j + 1..];
      target := Index(target, path[j]);
    }
    assert path[|path|..] == [];
  }

  /**
   * A located record always carries the requested code; it is tagged
   * `json_predefined` exactly when a table source matched; with no match
   * anywhere the result is the fixed error.
   */
  lemma ProcessedOutcome(code: string, data: Json)
    ensures Processed(code, data).Ok? ==>
      var r := Processed(code, data).value;
      && r.code == code && r.status == "OK"
      && (r.source == "json_predefined" <==> Predefined(code, data, Sources).Some?)
      && (r.source == "json_fallback" <==> Predefined(code, data, Sources).None?)
    ensures Processed(code, data).Err? <==>
      Predefined(code, data, Sources).None? && Fallback(code, data, Paths(data, FallbackKeys, [])).None?
    ensures Processed(code, data).Err? ==> Processed(code, data).msg == NoMatchInJson
  {
    var pre := SourceMatches(code, data, Sources);
    FirstSomeIsFirst(pre);
    if FirstSome(pre).Some? {
      var i :| 0 <= i < |pre| && pre[i] == FirstSome(pre) && forall j :: 0 <= j < i ==> pre[j].None?;
      SourceMatchIsTagged(code, data, Sources[i]);
    }
    var paths := Paths(data, FallbackKeys, []);
    var fb := PathMatches(code, data, paths);
    FirstSomeIsFirst(fb);
    if FirstSome(fb).Some? {
      var i :| 0 <= i < |fb| && fb[i] == FirstSome(fb) && forall j :: 0 <= j < i ==> fb[j].None?;
      assert PathMatch(code, data, paths[i]).Some?;
    }
  }

  /** `7203.T` is compared as `7203`. */
  lemma SuffixStrippedExample()
    ensures StripSuffix("7203.T") == "7203"
  {
    var s := "7203.T";
    var r := StripSuffix(s);
    assert forall i :: 0 <= i < 4 ==> s[i] != '.';
    assert |r| == 4;
    assert s[..4] == "7203";
  }

  /**
   * A stocks board whose trimmed code is the requested code without its
   * suffix is the answer, whatever else the state holds, and the record
   * carries the requested code rather than the board's.
   */
  lemma StocksBoardWins(code: string, data: Json, obj: seq<(string, Json)>, found: string)
    requires FindObjectAt(data, StocksSource.path) == Some(obj)
    requires GetStringValue(obj, "code") == Some(found)
    requires Trim(found) == StripSuffix(code)
    ensures Processed(code, data) == Ok(SourceRecord(code, obj, StocksSource))
    ensures Processed(code, data).value.code == code
  {
    var ms := SourceMatches(code, data, Sources);
    assert ms[0] == SourceMatch(code, data, StocksSource);
  }

  // ---------------------------------------------------------------------
  // One code of the worker's request
  // ---------------------------------------------------------------------

  /** What fetching a URL gave: a send error, a body-read error, or the body. */
  datatype Response = SendFailed(msg: string) | ReadFailed(msg: string) | Body(text: string)

  /** The capture of `window.__PRELOADED_STATE__ = (...)</script>`: no match, a match without the group, or the group's text. */
  datatype Capture = NoMatch | NoGroup | Group(text: string)

  /** The network, the regex engine, serde_json and the DOM fallback, as inputs. */
  datatype Environment = Environment(
    fetch: string -> Response,
    capture: string -> Capture,
    parse: string -> Result<Json>,
    scrapeDom: (string, string) -> Result<Record>)

  /** `CodeResult`. */
  datatype CodeResult = CodeResult(code: string, data: Option<Record>, error: Option<string>)

  /**
   * The located record, or the message of the step that failed: a parsed
   * state block is searched, one that does not parse is an error, and a page
   * without the block or without its group is left to the DOM fallback.
   */
  function Located(code: string, body: string, env: Environment): (r: Result<Record>)
    ensures !env.capture(body).Group? ==> r == env.scrapeDom(code, body)
    ensures env.capture(body).Group? ==>
      var parsed := env.parse(StripStateTerminator(env.capture(body).text));
      && (parsed.Err? ==> r == Err("Failed to parse JSON: " + parsed.msg))
      && (parsed.Ok? ==> r == Processed(code, parsed.value))
    ensures env.capture(body).Group? && r.Ok? ==>
      r.value.code == code && r.value.status == "OK"
      && (r.value.source == "json_predefined" || r.value.source == "json_fallback")
  {
    match env.capture(body)
    case Group(captured) =>
      (match env.parse(StripStateTerminator(captured))
       case Ok(data) => ProcessedOutcome(code, data); Processed(code, data)
       case Err(e) => Err("Failed to parse JSON: " + e))
    case _ => env.scrapeDom(code, body)
  }

  /**
   * `fetch_single_code`: exactly one of a record or an error, always under
   * the requested code; the record is the one the JSON strategies or the DOM
   * fallback give, and a state block that does not parse is an error, not a
   * reason to read the DOM.
   */
  function FetchSingleCode(code: string, env: Environment): (r: CodeResult)
    ensures r.code == code
    ensures r.data.Some? <==> r.error.None?
    ensures env.fetch(QuoteUrl(code)).SendFailed? ==> r.error == Some("Failed to fetch URL: " + env.fetch(QuoteUrl(code)).msg)
    ensures env.fetch(QuoteUrl(code)).ReadFailed? ==> r.error == Some("Failed to read response text: " + env.fetch(QuoteUrl(code)).msg)
    ensures env.fetch(QuoteUrl(code)).Body? && !env.capture(env.fetch(QuoteUrl(code)).text).Group? ==>
      var dom := env.scrapeDom(code, env.fetch(QuoteUrl(code)).text);
      && (dom.Ok? ==> r.data == Some(dom.value))
      && (dom.Err? ==> r.error == Some(dom.msg))
    ensures env.fetch(QuoteUrl(code)).Body? && env.capture(env.fetch(QuoteUrl(code)).text).Group? ==>
      var parsed := env.parse(StripStateTerminator(env.capture(env.fetch(QuoteUrl(code)).text).text));
      && (parsed.Err? ==> r.error == Some("Failed to parse JSON: " + parsed.msg))
      && (parsed.Ok? && Processed(code, parsed.value).Ok? ==> r.data == Some(Processed(code, parsed.value).value))
      && (parsed.Ok? && Processed(code, parsed.value).Err? ==> r.error == Some(Processed(code, parsed.value).msg))
  {
    match env.fetch(QuoteUrl(code))
    case SendFailed(e) => CodeResult(code, None, Some("Failed to fetch URL: " + e))
    case ReadFailed(e) => CodeResult(code, None, Some("Failed to read response text: " + e))
    case Body(body) =>
      match Located(code, body, env)
      case Ok(d) => CodeResult(code, Some(d), None)
      case Err(e) => CodeResult(code, None, Some(e))
  }

  /**
   * What a code's result holds once its page has a state block: with the
   * block parsed, a record under the requested code from one of the two JSON
   * strategies, or the fixed no-match error; never the DOM fallback.
   */
  lemma FetchedFromState(code: string, env: Environment, data: Json)
    requires env.fetch(QuoteUrl(code)).Body?
    requires env.capture(env.fetch(QuoteUrl(code)).text).Group?
    requires env.parse(StripStateTerminator(env.capture(env.fetch(QuoteUrl(code)).text).text)) == Ok(data)
    ensures FetchSingleCode(code, env).data.Some? ==>
      var rec := FetchSingleCode(code, env).data.value;
      && rec.code == code && rec.status == "OK"
      && (rec.source == "json_predefined" <==> Predefined(code, data, Sources).Some?)
      && (rec.source == "json_fallback" <==> Predefined(code, data, Sources).None?)
    ensures FetchSingleCode(code, env).error.Some? <==>
      Predefined(code, data, Sources).None? && Fallback(code, data, Paths(data, FallbackKeys, [])).None?
    ensures FetchSingleCode(code, env).error.Some? ==> FetchSingleCode(code, env).error.value == NoMatchInJson
  {
    ProcessedOutcome(code, data);
  }

  const CodeRequired := "Query parameter 'code' is required. e.g., ?code=7203.T,^DJI"
  const CodeEmpty := "Query parameter 'code' cannot be empty."

  /**
   * The worker's code list as written: the first `code` pair's value, empty
   * segments dropped, then trimmed, so a code is trimmed but may be empty.
   */
  function WorkerCodesAsWritten(pairs: seq<(string, string)>): (r: Result<seq<string>>)
    ensures FirstValue(pairs, "code").None? ==> r == Err(CodeRequired)
    ensures FirstValue(pairs, "code").Some? ==>
      var parts := Split(FirstValue(pairs, "code").value, ',');
      && (r.Err? <==> forall k :: 0 <= k < |parts| ==> parts[k] == [])
      && (r.Err? ==> r.msg == CodeEmpty)
      && (r.Ok? ==> r.value == KeptThenTrimmed(parts))
      && (r.Ok? ==> forall c :: c in r.value <==> exists k :: 0 <= k < |parts| && parts[k] != [] && c == Trim(parts[k]))
  {
    match FirstValue(pairs, "code")
    case None => Err(CodeRequired)
    case Some(v) =>
      var parts := Split(v, ',');
      KeptThenTrimmedMembers(parts);
      KeptThenTrimmedEmpty(parts);
      var codes := KeptThenTrimmed(parts);
      if codes == [] then Err(CodeEmpty)
      else
        assert !forall k :: 0 <= k < |parts| ==> parts[k] == [];
        assert Split(FirstValue(pairs, "code").value, ',') == parts;
        assert var ps := Split(FirstValue(pairs, "code").value, ','); !forall k :: 0 <= k < |ps| ==> ps[k] == [];
        Ok(codes)
  }

  /** `?code=%20` passes the emptiness check and asks for the empty code. */
  lemma BlankCodeRequested()
    ensures WorkerCodesAsWritten([("code", " ")]) == Ok([""])
  {
    BlankSegmentKept();
  }

  /** The worker's code list with each segment trimmed before the empty ones are dropped, as `/quote` does. */
  function WorkerCodes(pairs: seq<(string, string)>): (r: Result<seq<string>>)
    ensures r.Ok? ==> r.value != [] && forall k :: 0 <= k < |r.value| ==> r.value[k] != [] && Trim(r.value[k]) == r.value[k]
    ensures r.Err? ==> r.msg == CodeRequired || r.msg == CodeEmpty
  {
    match FirstValue(pairs, "code")
    case None => Err(CodeRequired)
    case Some(v) =>
      var codes := TrimmedCodes(Split(v, ','));
      if codes == [] then Err(CodeEmpty) else Ok(codes)
  }

  /** The corrected list is the written one wherever no segment is blank without being empty. */
  lemma WorkerCodesAgree(pairs: seq<(string, string)>, v: string)
    requires FirstValue(pairs, "code") == Some(v)
    requires forall k :: 0 <= k < |Split(v, ',')| ==> Split(v, ',')[k] == [] || Trim(Split(v, ',')[k]) != []
    ensures WorkerCodes(pairs) == WorkerCodesAsWritten(pairs)
  {
    KeptThenTrimmedAgrees(Split(v, ','));
  }

  /** The result of each code in turn, as the worker's loop appends them. */
  function FetchedAll(codes: seq<string>, env: Environment): (rs: seq<CodeResult>)
    ensures |rs| == |codes|
  {
    if codes == [] then [] else FetchedAll(codes[..|codes| - 1], env) + [FetchSingleCode(codes[|codes| - 1], env)]
  }

  /** The `k`-th result is the `k`-th code's, fetched on its own. */
  lemma {:induction false} FetchedAllAt(codes: seq<string>, env: Environment, k: nat)
    requires k < |codes|
    ensures FetchedAll(codes, env)[k] == FetchSingleCode(codes[k], env)
  {
    if k < |codes| - 1 {
      var init := codes[..|codes| - 1];
      FetchedAllAt(init, env, k);
      assert init[k] == codes[k];
    }
  }

  /** The worker's per-code loop: each code fetched and processed in request order. */
  method FetchEach(codes: seq<string>, env: Environment) returns (results: seq<CodeResult>)
    ensures results == FetchedAll(codes, env)
  {
    results := [];
    for k := 0 to |codes|
      invariant results == FetchedAll(codes[..k], env)
    {
      assert codes[..k + 1][..k] == codes[..k];
      results := results + [FetchSingleCode(codes[k], env)];
    }
    assert codes[..|codes|] == codes;
  }

  /** The worker's `main`: one result per code, in request order. */
  method QuoteRequest(pairs: seq<(string, string)>, env: Environment) returns (r: Result<seq<CodeResult>>)
    ensures WorkerCodesAsWritten(pairs).Err? ==> r == Err(WorkerCodesAsWritten(pairs).msg)
    ensures WorkerCodesAsWritten(pairs).Ok? ==>
      r.Ok? && |r.value| == |WorkerCodesAsWritten(pairs).value|
      && forall k :: 0 <= k < |r.value| ==> r.value[k] == FetchSingleCode(WorkerCodesAsWritten(pairs).value[k], env)
  {
    var codes := WorkerCodesAsWritten(pairs);
    if codes.Err? {
      return Err(codes.msg);
    }
    var results := FetchEach(codes.value, env);
    forall k | 0 <= k < |results|
      ensures results[k] == FetchSingleCode(codes.value[k], env)
    {
      FetchedAllAt(codes.value, env, k);
    }
    r := Ok(results);
  }
}
