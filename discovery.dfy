/**
 * Candidate discovery of selector.rs: the `discover_*` functions, which scan
 * the elements a fixed set of CSS patterns match and push scored candidates
 * for the name, price, absolute and percentage change and update time.
 *
 * CSS matching is an input: a `Document` maps each pattern the source uses to
 * the sequence of elements it matches, in document order. Parsing a price as
 * `f64` is an input too (`NumberParser`), as is fetching a page.
 */
module Discovery {
  import opened Base
  import opened Strings
  import opened Json
  import opened Ranking

  /** A matched element: its tag name, its `class` attribute ("" when absent) and its text nodes joined. */
  datatype Element = Element(tag: string, classAttr: string, text: string)

  /** The elements each CSS pattern matches, in document order. */
  datatype Document = Document(matches: map<string, seq<Element>>)

  function Select(doc: Document, selector: string): seq<Element>
  {
    if selector in doc.matches then doc.matches[selector] else []
  }

  /** `document.select(&sel).next()` followed by `text().collect()`. */
  function FirstText(doc: Document, selector: string): Option<string>
  {
    var es := Select(doc, selector);
    if es == [] then None else Some(es[0].text)
  }

  /** The outcome of `str::parse::<f64>()`: an error, or a number and whether it is `>= 0.0`. */
  datatype F64Parse = Invalid | Valid(nonNegative: bool)

  type NumberParser = string -> F64Parse

  /** A fetched page: its parsed document, and the `window.__PRELOADED_STATE__` value when one was captured and parsed. */
  datatype Page = Page(doc: Document, state: Option<Json>)

  /** Building the URL, fetching it and reading the body: a page or the error message. */
  type Fetcher = string -> Result<Page>

  /** `DiscoveredData`. */
  datatype Discovered = Discovered(
    code: string, url: string,
    names: seq<Candidate>, prices: seq<Candidate>,
    changeAbs: seq<Candidate>, changePct: seq<Candidate>,
    updateTimes: seq<Candidate>)

  function DiscoverUrl(code: string): string
  {
    "https://finance.yahoo.co.jp/quote/" + code
  }

  /** `text.replace(",", "").parse::<f64>()` gives a number `>= 0.0`. */
  predicate NonNegativeNumber(num: NumberParser, text: string)
  {
    num(ReplaceAll(text, ",", "")) == Valid(true)
  }

  function StartsWithSign(t: string): bool
  {
    StartsWith(t, "+") || StartsWith(t, "-")
  }

  // ---------------------------------------------------------------------
  // The CSS patterns
  // ---------------------------------------------------------------------

  const PriceBoardSelector := "span[class*='PriceBoard__price'] span[class*='StyledNumber__value']"

  /** The price patterns of `discover_data`, in the order they are tried. */
  const PriceSelectors: seq<string> := [
    PriceBoardSelector,
    "[class*='price'], [class*='Price']",
    "span[class*='value'], div[class*='value']",
    "[class*='board'] span, [class*='Board'] span",
    "[data-field='regularMarketPrice']",
    "[class*='quote'], [class*='Quote']",
    "span[class*='last'], div[class*='last']",
    "[class*='current'], [class*='Current']"
  ]

  const PctFallbackSelectors: seq<string> := ["[class*='change']", "[class*='percent']", "span", "div"]

  const TimeSelectors: seq<string> := ["ul[class*='PriceBoard__times'] time", "time[class*='timestamp']"]

  const IndexPriceBlockSelector := "div[class*='_CommonPriceBoard__priceBlock'] span[class*='_StyledNumber__value']"
  const IndexPriceInformationSelector := "div[class*='_BasePriceBoard__priceInformation'] span, div[class*='_BasePriceBoard__priceInformation'] div"
  const IndexChangeAbsSelector := "span[class*='_PriceChangeLabel__primary'] span[class*='_StyledNumber__value']"
  const IndexChangePctSelector := "span[class*='_PriceChangeLabel__secondary'] span[class*='_StyledNumber__value']"
  const IndexTimeSelector := "span[class*='_Time'], time[class*='timestamp']"
  const CurrencyPriceSelector := "div[class*='rate'] span, span[class*='price']"
  const CurrencyTimeSelector := "span[class*='time'], time"
  const FxChangeSelector := "[class*='change'], [class*='diff'], [class*='gain'], [class*='loss'], [class*='up'], [class*='down']"

  // ---------------------------------------------------------------------
  // Per-element acceptance and scoring
  // ---------------------------------------------------------------------

  /** The loops of the `discover_*` functions, each with the pattern it scans. */
  datatype Rule =
    | Heading(base: string)                // discover_data: "h1, h2" against the base name
    | Price(selector: string)              // discover_data: one of the price patterns
    | PriceFallback                        // discover_data: "span, div"
    | ChangeLabelAbs                       // discover_data: PriceChangeLabel__primary, absolute
    | ChangeLabelPct                       // discover_data: PriceChangeLabel__primary, percentage
    | PctFallback(selector: string)        // discover_data: the percentage fallbacks
    | Time(selector: string)               // discover_data: the time patterns
    | IndexPriceBlock                      // discover_index_data DOM fallbacks
    | IndexPriceInformation
    | IndexChangeAbs
    | IndexChangePct
    | IndexTime
    | CurrencyPrice                        // discover_currency_x_data / _fx_data
    | CurrencyTime
    | FxChangeAbs
    | FxChangePct

  function RuleSelector(rule: Rule): string
  {
    match rule
    case Heading(_) => "h1, h2"
    case Price(s) => s
    case PriceFallback => "span, div"
    case ChangeLabelAbs => "[class*='PriceChangeLabel__primary']"
    case ChangeLabelPct => "[class*='PriceChangeLabel__primary']"
    case PctFallback(s) => s
    case Time(s) => s
    case IndexPriceBlock => IndexPriceBlockSelector
    case IndexPriceInformation => IndexPriceInformationSelector
    case IndexChangeAbs => IndexChangeAbsSelector
    case IndexChangePct => IndexChangePctSelector
    case IndexTime => IndexTimeSelector
    case CurrencyPrice => CurrencyPriceSelector
    case CurrencyTime => CurrencyTimeSelector
    case FxChangeAbs => FxChangeSelector
    case FxChangePct => FxChangeSelector
  }

  /**
   * The base name of `discover_data`: the title before its first `【`, that
   * before its first `(`, that before its first `：`, trimmed.
   */
  function BaseName(title: string): (b: string)
    ensures '【' !in b && OpenParen !in b && '：' !in b
    ensures Contains(title, b)
    ensures b == [] || (!IsWhitespace(b[0]) && !IsWhitespace(b[|b| - 1]))
  {
    var p1 := Before(title, '【');
    var p2 := Before(p1, OpenParen);
    var p3 := Before(p2, '：');
    var b := Trim(p3);
    TrimContained(p3);
    PrefixContained(title, |p1|);
    PrefixContained(p1, |p2|);
    PrefixContained(p2, |p3|);
    ContainsTransitive(p2, p3, b);
    ContainsTransitive(p1, p2, b);
    ContainsTransitive(title, p1, b);
    ContainsExcludes(p3, b, '：');
    ContainsExcludes(p2, b, OpenParen);
    ContainsExcludes(p1, b, '【');
    b
  }

  /**
   * The price score: 50, plus 100 for the PriceBoard pattern, 30 when the
   * text has a `,`, 20 for a class containing `value`, 10 for `large`, minus
   * 40 for `code` or `symbol`. The `u32` never underflows: it stays in [10, 210].
   */
  function PriceScore(priceBoard: bool, text: string, classAttr: string): (score: nat)
    ensures 10 <= score <= 210
    ensures score % 10 == 0
    ensures priceBoard ==> score >= 110
    ensures !priceBoard ==> score <= 110
  {
    var s0 := 50;
    var s1 := s0 + (if priceBoard then 100 else 0);
    var s2 := s1 + (if Contains(text, ",") then 30 else 0);
    var s3 := s2 + (if Contains(classAttr, "value") then 20 else 0);
    var s4 := s3 + (if Contains(classAttr, "large") then 10 else 0);
    if Contains(classAttr, "code") || Contains(classAttr, "symbol") then s4 - 40 else s4
  }

  /** Whether a loop pushes a candidate for an element whose trimmed text is `t`. */
  predicate Accepts(rule: Rule, t: string, num: NumberParser)
  {
    match rule
    case Heading(base) => t != [] && Contains(t, base)
    case Price(_) => HasAsciiDigit(t) && NonNegativeNumber(num, t)
    case PriceFallback => HasAsciiDigit(t) && NonNegativeNumber(num, t)
    case ChangeLabelAbs => StartsWithSign(t) && HasAsciiDigit(t)
    case ChangeLabelPct => Contains(t, "%") && Contains(t, "(")
    case PctFallback(_) => Contains(t, "%") && (StartsWithSign(t) || HasAsciiDigit(t))
    case Time(_) => t != []
    case IndexPriceBlock => !StartsWithSign(t) && NonNegativeNumber(num, t)
    case IndexPriceInformation => HasAsciiDigit(t) && !StartsWithSign(t) && !Contains(t, "%") && NonNegativeNumber(num, t)
    case IndexChangeAbs => StartsWithSign(t)
    case IndexChangePct => t != []
    case IndexTime => t != []
    case CurrencyPrice => num(ReplaceAll(t, ",", "")).Valid? && t != []
    case CurrencyTime => t != []
    case FxChangeAbs => StartsWithSign(t) && !Contains(t, "%")
    case FxChangePct => StartsWithSign(t) && Contains(t, "%")
  }

  /** The score a loop gives an accepted element. */
  function Score(rule: Rule, t: string, classAttr: string): nat
  {
    match rule
    case Heading(base) => if t == base then 110 else 100
    case Price(sel) => PriceScore(sel == PriceBoardSelector, t, classAttr)
    case PriceFallback => 10
    case ChangeLabelAbs => 100
    case ChangeLabelPct => 100
    case PctFallback(_) => 50
    case Time(_) => 100
    case IndexPriceBlock => 90
    case IndexPriceInformation => 70
    case _ => 90
  }

  /** The reason a loop records for an accepted element. */
  function Reason(rule: Rule, e: Element): string
  {
    match rule
    case Heading(base) =>
      if Trim(e.text) == base then "Exact match in <" + e.tag + ">" else "Contains base name in <" + e.tag + ">"
    case Price(sel) => "Found in element with class: " + e.classAttr + " (selector: " + sel + ")"
    case PriceFallback => "Fallback: found number in " + e.tag
    case ChangeLabelAbs => "Found in primary change label"
    case ChangeLabelPct => "Found in secondary change label"
    case PctFallback(sel) => "Broader fallback: found '%' in element with selector: " + sel
    case Time(sel) => "Found in time element with selector: " + sel
    case IndexPriceBlock => "Found in _CommonPriceBoard__priceBlock (fallback)"
    case IndexPriceInformation => "Broader fallback in _BasePriceBoard__priceInformation: " + e.tag
    case IndexChangeAbs => "Found in _PriceChangeLabel__primary (fallback)"
    case IndexChangePct => "Found in _PriceChangeLabel__secondary (fallback)"
    case IndexTime => "Found in DOM (fallback)"
    case CurrencyPrice => "Guessed DOM selector for price"
    case CurrencyTime => "Guessed DOM selector for time"
    case FxChangeAbs => "Guessed DOM selector for change abs"
    case FxChangePct => "Guessed DOM selector for change pct"
  }

  /** One element under one rule: the candidate pushed for it, if any. */
  function Pick(rule: Rule, e: Element, num: NumberParser): Option<Candidate>
  {
    var t := Trim(e.text);
    if Accepts(rule, t, num) then Some(Candidate(t, Score(rule, t, e.classAttr), Reason(rule, e))) else None
  }

  /** A pushed candidate carries its element's trimmed text, which the rule accepted, and the rule's score. */
  lemma PickAccepted(rule: Rule, e: Element, num: NumberParser, c: Candidate)
    requires Pick(rule, e, num) == Some(c)
    ensures c.text == Trim(e.text) && Accepts(rule, c.text, num) && c.score == Score(rule, c.text, e.classAttr)
  {
  }

  /**
   * A heading scores 110 when its trimmed text is the base name, 100 when it
   * only contains it, and is not a candidate when empty or when it does not
   * contain the base name.
   */
  lemma HeadingScore(base: string, e: Element, num: NumberParser)
    ensures var t := Trim(e.text);
      && (Pick(Heading(base), e, num).Some? <==> t != [] && Contains(t, base))
      && (t != [] && t == base ==> Pick(Heading(base), e, num) == Some(Candidate(t, 110, "Exact match in <" + e.tag + ">")))
      && (t != [] && t != base && Contains(t, base) ==>
            Pick(Heading(base), e, num) == Some(Candidate(t, 100, "Contains base name in <" + e.tag + ">")))
  {
    var t := Trim(e.text);
    if t == base { assert OccursAt(t, base, 0); }
  }

  // ---------------------------------------------------------------------
  // Scanning the matched elements
  // ---------------------------------------------------------------------

  function Pushed(o: Option<Candidate>): seq<Candidate>
  {
    if o.Some? then [o.value] else []
  }

  /** The pushed candidates of a sequence of per-element outcomes, in order. */
  function Kept(picks: seq<Option<Candidate>>): seq<Candidate>
  {
    if picks == [] then [] else Kept(picks[..|picks| - 1]) + Pushed(picks[|picks| - 1])
  }

  lemma {:induction false} KeptMembers(picks: seq<Option<Candidate>>, c: Candidate)
    ensures c in Kept(picks) <==> Some(c) in picks
  {
    if picks != [] {
      var init := picks[..|picks| - 1];
      KeptMembers(init, c);
      assert picks == init + [picks[|picks| - 1]];
    }
  }

  /** The outcome of each matched element, in order. */
  function Picks(es: seq<Element>, rule: Rule, num: NumberParser): (ps: seq<Option<Candidate>>)
    ensures |ps| == |es|
    ensures forall i :: 0 <= i < |es| ==> ps[i] == Pick(rule, es[i], num)
  {
    seq(|es|, i requires 0 <= i < |es| => Pick(rule, es[i], num))
  }

  /** The candidates one loop pushes, in element order. */
  function Scanned(es: seq<Element>, rule: Rule, num: NumberParser): seq<Candidate>
  {
    Kept(Picks(es, rule, num))
  }

  /** A candidate is pushed exactly when some matched element yields it. */
  lemma ScannedMembers(es: seq<Element>, rule: Rule, num: NumberParser, c: Candidate)
    ensures c in Scanned(es, rule, num) <==> exists i :: 0 <= i < |es| && Pick(rule, es[i], num) == Some(c)
  {
    var ps := Picks(es, rule, num);
    KeptMembers(ps, c);
    if Some(c) in ps {
      var i :| 0 <= i < |ps| && ps[i] == Some(c);
    }
  }

  /** The candidates of the patterns in `rules`, tried in order. */
  function ScannedAll(doc: Document, rules: seq<Rule>, num: NumberParser): seq<Candidate>
  {
    if rules == [] then []
    else
      var last := rules[|rules| - 1];
      ScannedAll(doc, rules[..|rules| - 1], num) + Scanned(Select(doc, RuleSelector(last)), last, num)
  }

  /** `for element in document.select(&sel) { ... push ... }` */
  method Scan(es: seq<Element>, rule: Rule, num: NumberParser) returns (found: seq<Candidate>)
    ensures found == Scanned(es, rule, num)
  {
    ghost var ps := Picks(es, rule, num);
    found := [];
    for i := 0 to |es|
      invariant found == Kept(ps[..i])
    {
      assert ps[..i + 1][..i] == ps[..i];
      var o := Pick(rule, es[i], num);
      if o.Some? {
        found := found + [o.value];
      }
    }
    assert ps[..|es|] == ps;
  }

  /** `for selector_str in &[...] { for element in document.select(...) { ... } }` */
  method ScanEach(doc: Document, rules: seq<Rule>, num: NumberParser) returns (found: seq<Candidate>)
    ensures found == ScannedAll(doc, rules, num)
  {
    found := [];
    for i := 0 to |rules|
      invariant found == ScannedAll(doc, rules[..i], num)
    {
      assert rules[..i + 1][..i] == rules[..i];
      var more := Scan(Select(doc, RuleSelector(rules[i])), rules[i], num);
      found := found + more;
    }
    assert rules[..|rules|] == rules;
  }

  function PriceRules(): seq<Rule>
  {
    seq(|PriceSelectors|, i requires 0 <= i < |PriceSelectors| => Price(PriceSelectors[i]))
  }

  function PctFallbackRules(): seq<Rule>
  {
    seq(|PctFallbackSelectors|, i requires 0 <= i < |PctFallbackSelectors| => PctFallback(PctFallbackSelectors[i]))
  }

  function TimeRules(): seq<Rule>
  {
    seq(|TimeSelectors|, i requires 0 <= i < |TimeSelectors| => Time(TimeSelectors[i]))
  }

  // ---------------------------------------------------------------------
  // discover_data (equities)
  // ---------------------------------------------------------------------

  /** The title candidate (score 50, the whole title) and the heading candidates, only when the base name is non-empty. */
  function EquityNames(doc: Document, num: NumberParser): seq<Candidate>
  {
    match FirstText(doc, "title")
    case None => []
    case Some(title) =>
      var base := BaseName(title);
      if base == [] then []
      else [Candidate(title, 50, "Original <title> text")] + Scanned(Select(doc, "h1, h2"), Heading(base), num)
  }

  /** The price candidates; the score-10 `span, div` fallback only when no pattern gave one. */
  function EquityPrices(doc: Document, num: NumberParser): seq<Candidate>
  {
    var primary := ScannedAll(doc, PriceRules(), num);
    if primary == [] then Scanned(Select(doc, "span, div"), PriceFallback, num) else primary
  }

  function EquityChangeAbs(doc: Document, num: NumberParser): seq<Candidate>
  {
    Scanned(Select(doc, RuleSelector(ChangeLabelAbs)), ChangeLabelAbs, num)
  }

  /** The percentage candidates; the broader fallback only when the change label gave none. */
  function EquityChangePct(doc: Document, num: NumberParser): seq<Candidate>
  {
    var primary := Scanned(Select(doc, RuleSelector(ChangeLabelPct)), ChangeLabelPct, num);
    if primary == [] then ScannedAll(doc, PctFallbackRules(), num) else primary
  }

  function EquityTimes(doc: Document, num: NumberParser): seq<Candidate>
  {
    ScannedAll(doc, TimeRules(), num)
  }

  /** The title and heading part of `discover_data`. */
  method CollectEquityNames(doc: Document, num: NumberParser) returns (names: seq<Candidate>)
    ensures names == EquityNames(doc, num)
  {
    names := [];
    var base := "";
    var title := FirstText(doc, "title");
    if title.Some? {
      base := BaseName(title.value);
      if base != [] {
        names := names + [Candidate(title.value, 50, "Original <title> text")];
      }
    }
    if base != [] {
      var headings := Scan(Select(doc, "h1, h2"), Heading(base), num);
      assert names == [Candidate(title.value, 50, "Original <title> text")];
      names := names + headings;
    }
  }

  /** The price part of `discover_data`, with its fallback. */
  method CollectEquityPrices(doc: Document, num: NumberParser) returns (prices: seq<Candidate>)
    ensures prices == EquityPrices(doc, num)
  {
    prices := ScanEach(doc, PriceRules(), num);
    if prices == [] {
      prices := Scan(Select(doc, "span, div"), PriceFallback, num);
    }
  }

  /** The percentage part of `discover_data`, with its fallback. */
  method CollectEquityChangePct(doc: Document, num: NumberParser) returns (changePct: seq<Candidate>)
    ensures changePct == EquityChangePct(doc, num)
  {
    changePct := Scan(Select(doc, RuleSelector(ChangeLabelPct)), ChangeLabelPct, num);
    if changePct == [] {
      changePct := ScanEach(doc, PctFallbackRules(), num);
    }
  }

  /** What `discover_data` returns: the fetch error, or the five ranked candidate lists of the page. */
  function EquityDiscovery(code: string, fetch: Fetcher, num: NumberParser): Result<Discovered>
  {
    match fetch(DiscoverUrl(code))
    case Err(m) => Err(m)
    case Ok(page) =>
      var doc := page.doc;
      Ok(Discovered(code, DiscoverUrl(code),
        Ranked(EquityNames(doc, num)), Ranked(EquityPrices(doc, num)),
        Ranked(EquityChangeAbs(doc, num)), Ranked(EquityChangePct(doc, num)),
        Ranked(EquityTimes(doc, num))))
  }

  /** `discover_data` */
  method DiscoverEquity(code: string, fetch: Fetcher, num: NumberParser) returns (r: Result<Discovered>)
    ensures r == EquityDiscovery(code, fetch, num)
  {
    var url := DiscoverUrl(code);
    var page := fetch(url);
    if page.Err? {
      return Err(page.msg);
    }
    var doc := page.value.doc;

    var names := CollectEquityNames(doc, num);
    var prices := CollectEquityPrices(doc, num);
    var changeAbs := Scan(Select(doc, RuleSelector(ChangeLabelAbs)), ChangeLabelAbs, num);
    var changePct := CollectEquityChangePct(doc, num);
    var times := ScanEach(doc, TimeRules(), num);

    var finalNames := DeduplicateAndSort(names);
    var finalPrices := DeduplicateAndSort(prices);
    var finalAbs := DeduplicateAndSort(changeAbs);
    var finalPct := DeduplicateAndSort(changePct);
    var finalTimes := DeduplicateAndSort(times);
    r := Ok(Discovered(code, url, finalNames, finalPrices, finalAbs, finalPct, finalTimes));
  }

  /**
   * Every name candidate is the title (score 50) or a heading whose trimmed
   * text is the base name (110) or contains it (100); the title comes first.
   */
  lemma EquityNameScores(doc: Document, num: NumberParser)
    ensures var ns := EquityNames(doc, num);
      ns != [] ==>
        && FirstText(doc, "title").Some?
        && BaseName(FirstText(doc, "title").value) != []
        && ns[0] == Candidate(FirstText(doc, "title").value, 50, "Original <title> text")
    ensures var ns := EquityNames(doc, num);
      ns != [] ==> forall c :: c in ns[1..] ==>
        (var base := BaseName(FirstText(doc, "title").value);
         (c.score == 110 && c.text == base) || (c.score == 100 && c.text != base && Contains(c.text, base)))
  {
    var ns := EquityNames(doc, num);
    if ns != [] {
      var title := FirstText(doc, "title").value;
      var base := BaseName(title);
      var es := Select(doc, "h1, h2");
      assert ns[1..] == Scanned(es, Heading(base), num);
      forall c | c in ns[1..]
        ensures (c.score == 110 && c.text == base) || (c.score == 100 && c.text != base && Contains(c.text, base))
      {
        ScannedMembers(es, Heading(base), num, c);
        var i :| 0 <= i < |es| && Pick(Heading(base), es[i], num) == Some(c);
        HeadingScore(base, es[i], num);
      }
    }
  }

  /** Pattern candidates score within [10, 210]; fallback candidates score 10 and exist only when no pattern matched. */
  lemma EquityPriceScores(doc: Document, num: NumberParser)
    ensures ScannedAll(doc, PriceRules(), num) != [] ==>
      forall c :: c in EquityPrices(doc, num) ==> 10 <= c.score <= 210
    ensures ScannedAll(doc, PriceRules(), num) == [] ==>
      forall c :: c in EquityPrices(doc, num) ==> c.score == 10
  {
    var rules := PriceRules();
    if ScannedAll(doc, rules, num) != [] {
      forall c | c in ScannedAll(doc, rules, num) ensures 10 <= c.score <= 210 {
        PriceRulesScores(doc, rules, num, c);
      }
    } else {
      var es := Select(doc, "span, div");
      forall c | c in Scanned(es, PriceFallback, num) ensures c.score == 10 {
        ScannedMembers(es, PriceFallback, num, c);
      }
    }
  }

  lemma {:induction false} PriceRulesScores(doc: Document, rules: seq<Rule>, num: NumberParser, c: Candidate)
    requires forall k :: 0 <= k < |rules| ==> rules[k].Price?
    requires c in ScannedAll(doc, rules, num)
    ensures 10 <= c.score <= 210
  {
    var init := rules[..|rules| - 1];
    var last := rules[|rules| - 1];
    if c in ScannedAll(doc, init, num) {
      PriceRulesScores(doc, init, num, c);
    } else {
      var es := Select(doc, RuleSelector(last));
      ScannedMembers(es, last, num, c);
    }
  }

  // ---------------------------------------------------------------------
  // discover_index_data
  // ---------------------------------------------------------------------

  /** The text before the first " - ", trimmed. */
  function BeforeDash(s: string): string
  {
    Trim(BeforeSubstring(s, " - "))
  }

  /** `parsed_json.get("priceBoard").and_then(|b| b.get(key)).and_then(as_str)` */
  function BoardString(state: Option<Json>, key: string): Option<string>
  {
    if state.None? then None
    else match Get(state.value, "priceBoard")
      case None => None
      case Some(board) =>
        match Get(board, key)
        case None => None
        case Some(v) => AsStr(v)
  }

  function JsonName(state: Option<Json>): seq<Candidate>
  {
    if state.None? then []
    else match AsStr(IndexPath(state.value, ["pageInfo", "title"]))
      case None => []
      case Some(t) =>
        var n := BeforeDash(t);
        if n == [] then [] else [Candidate(n, 100, "Found in __PRELOADED_STATE__ (title)")]
  }

  /** The JSON price is taken even when it is the empty string. */
  function JsonPrice(state: Option<Json>): seq<Candidate>
  {
    match BoardString(state, "price")
    case None => []
    case Some(p) => [Candidate(p, 100, "Found in __PRELOADED_STATE__ (price)")]
  }

  function JsonChange(state: Option<Json>): seq<Candidate>
  {
    match BoardString(state, "change")
    case None => []
    case Some(c) => if c == [] then [] else [Candidate(c, 100, "Found in __PRELOADED_STATE__ (change)")]
  }

  /** A non-empty `changePercent` with its surrounding parentheses stripped. */
  function JsonChangePct(state: Option<Json>): seq<Candidate>
  {
    match BoardString(state, "changePercent")
    case None => []
    case Some(c) =>
      if c == [] then []
      else [Candidate(TrimMatches(c, {OpenParen, CloseParen}), 100, "Found in __PRELOADED_STATE__ (changePercent)")]
  }

  /**
   * `board.get("marketTime").or(board.get("tradeTime")).and_then(as_str)`: a
   * `marketTime` that is present but not a string hides `tradeTime`.
   */
  function JsonTime(state: Option<Json>): seq<Candidate>
  {
    if state.None? then []
    else match Get(state.value, "priceBoard")
      case None => []
      case Some(board) =>
        var v := if Get(board, "marketTime").Some? then Get(board, "marketTime") else Get(board, "tradeTime");
        match v
        case None => []
        case Some(x) =>
          match AsStr(x)
          case None => []
          case Some(t) => if t == [] then [] else [Candidate(t, 100, "Found in __PRELOADED_STATE__ (marketTime/tradeTime)")]
  }

  /** The name candidates: from the JSON title, else the `<title>` (80), else the first `h1` (70). */
  function IndexNames(page: Page): seq<Candidate>
  {
    var fromJson := JsonName(page.state);
    if fromJson != [] then fromJson
    else
      var fromTitle := match FirstText(page.doc, "title")
        case None => []
        case Some(t) => if BeforeDash(t) == [] then [] else [Candidate(BeforeDash(t), 80, "Found in <title> tag (fallback)")];
      if fromTitle != [] then fromTitle
      else match FirstText(page.doc, "h1")
        case None => []
        case Some(h) => if Trim(h) == [] then [] else [Candidate(Trim(h), 70, "Found in <h1> tag (fallback)")]
  }

  function IndexPrices(page: Page, num: NumberParser): seq<Candidate>
  {
    var fromJson := JsonPrice(page.state);
    if fromJson != [] then fromJson
    else
      var block := Scanned(Select(page.doc, IndexPriceBlockSelector), IndexPriceBlock, num);
      if block != [] then block
      else Scanned(Select(page.doc, IndexPriceInformationSelector), IndexPriceInformation, num)
  }

  function IndexChangeAbs(page: Page, num: NumberParser): seq<Candidate>
  {
    var fromJson := JsonChange(page.state);
    if fromJson != [] then fromJson
    else Scanned(Select(page.doc, IndexChangeAbsSelector), Rule.IndexChangeAbs, num)
  }

  function IndexChangePct(page: Page, num: NumberParser): seq<Candidate>
  {
    var fromJson := JsonChangePct(page.state);
    if fromJson != [] then fromJson
    else Scanned(Select(page.doc, IndexChangePctSelector), Rule.IndexChangePct, num)
  }

  /** The DOM time fallback sits inside the price/change fallback branch. */
  function IndexTimes(page: Page, num: NumberParser): seq<Candidate>
  {
    var fromJson := JsonTime(page.state);
    var domFallback := JsonPrice(page.state) == [] || JsonChange(page.state) == [] || JsonChangePct(page.state) == [];
    if fromJson == [] && domFallback then Scanned(Select(page.doc, IndexTimeSelector), Rule.IndexTime, num)
    else fromJson
  }

  /** The name part of `discover_index_data`: the JSON title, then the `<title>` tag, then the first `h1`. */
  method CollectIndexNames(page: Page) returns (names: seq<Candidate>)
    ensures names == IndexNames(page)
  {
    names := JsonName(page.state);
    if names == [] {
      var title := FirstText(page.doc, "title");
      if title.Some? {
        var cleaned := BeforeDash(title.value);
        if cleaned != [] {
          names := names + [Candidate(cleaned, 80, "Found in <title> tag (fallback)")];
        }
      }
      if names == [] {
        var h1 := FirstText(page.doc, "h1");
        if h1.Some? {
          var text := Trim(h1.value);
          if text != [] {
            names := names + [Candidate(text, 70, "Found in <h1> tag (fallback)")];
          }
        }
      }
    }
  }

  /** The price, change and time part of `discover_index_data`: the JSON values, then the DOM fallbacks. */
  method CollectIndexFallbacks(page: Page, num: NumberParser)
    returns (prices: seq<Candidate>, changeAbs: seq<Candidate>, changePct: seq<Candidate>, times: seq<Candidate>)
    ensures prices == IndexPrices(page, num)
    ensures changeAbs == IndexChangeAbs(page, num)
    ensures changePct == IndexChangePct(page, num)
    ensures times == IndexTimes(page, num)
  {
    var doc := page.doc;
    prices := JsonPrice(page.state);
    changeAbs := JsonChange(page.state);
    changePct := JsonChangePct(page.state);
    times := JsonTime(page.state);
    if prices == [] || changeAbs == [] || changePct == [] {
      if prices == [] {
        prices := Scan(Select(doc, IndexPriceBlockSelector), IndexPriceBlock, num);
      }
      if prices == [] {
        prices := Scan(Select(doc, IndexPriceInformationSelector), IndexPriceInformation, num);
      }
      if changeAbs == [] {
        changeAbs := Scan(Select(doc, IndexChangeAbsSelector), Rule.IndexChangeAbs, num);
      }
      if changePct == [] {
        changePct := Scan(Select(doc, IndexChangePctSelector), Rule.IndexChangePct, num);
      }
      if times == [] {
        times := Scan(Select(doc, IndexTimeSelector), Rule.IndexTime, num);
      }
    }
  }

  /** What `discover_index_data` returns: the fetch error, or the five ranked candidate lists of the page. */
  function IndexDiscovery(code: string, fetch: Fetcher, num: NumberParser): Result<Discovered>
  {
    match fetch(DiscoverUrl(code))
    case Err(m) => Err(m)
    case Ok(page) =>
      Ok(Discovered(code, DiscoverUrl(code),
        Ranked(IndexNames(page)), Ranked(IndexPrices(page, num)),
        Ranked(IndexChangeAbs(page, num)), Ranked(IndexChangePct(page, num)),
        Ranked(IndexTimes(page, num))))
  }

  /** `discover_index_data` */
  method DiscoverIndex(code: string, fetch: Fetcher, num: NumberParser) returns (r: Result<Discovered>)
    ensures r == IndexDiscovery(code, fetch, num)
  {
    var url := DiscoverUrl(code);
    var fetched := fetch(url);
    if fetched.Err? {
      return Err(fetched.msg);
    }
    var page := fetched.value;
    var doc := page.doc;

    var names := CollectIndexNames(page);
    var prices, changeAbs, changePct, times := CollectIndexFallbacks(page, num);

    var finalNames := DeduplicateAndSort(names);
    var finalPrices := DeduplicateAndSort(prices);
    var finalAbs := DeduplicateAndSort(changeAbs);
    var finalPct := DeduplicateAndSort(changePct);
    var finalTimes := DeduplicateAndSort(times);
    r := Ok(Discovered(code, url, finalNames, finalPrices, finalAbs, finalPct, finalTimes));
  }

  /**
   * The JSON title wins over the `<title>` tag, which wins over the first
   * `h1`; there is at most one name candidate.
   */
  lemma IndexNamePrecedence(page: Page)
    ensures |IndexNames(page)| <= 1
    ensures JsonName(page.state) != [] ==> IndexNames(page) == JsonName(page.state)
    ensures forall c :: c in IndexNames(page) ==> c.text != [] && c.score in {100, 80, 70}
    ensures forall c :: c in IndexNames(page) && c.score == 70 ==>
      FirstText(page.doc, "title").None? || BeforeDash(FirstText(page.doc, "title").value) == []
  {
  }

  /**
   * With price, change and percentage all in the JSON, the DOM is not
   * searched for a time, even when the JSON has none.
   */
  lemma IndexTimeOnlyWithOtherFallbacks(page: Page, num: NumberParser)
    requires JsonPrice(page.state) != [] && JsonChange(page.state) != [] && JsonChangePct(page.state) != []
    ensures IndexTimes(page, num) == JsonTime(page.state)
    ensures IndexPrices(page, num) == JsonPrice(page.state)
  {
  }

  /** A `marketTime` that is not a string hides a string `tradeTime`. */
  lemma MarketTimeHidesTradeTime()
    ensures var board := JObj([("marketTime", JNull), ("tradeTime", JStr("15:00"))]);
      JsonTime(Some(JObj([("priceBoard", board)]))) == []
  {
  }

  // ---------------------------------------------------------------------
  // discover_currency_x_data, discover_currency_fx_data, discover_currency_data
  // ---------------------------------------------------------------------

  /** The first `h1`, before its first " - ", trimmed, at score 100. */
  function CurrencyNames(doc: Document): seq<Candidate>
  {
    match FirstText(doc, "h1")
    case None => []
    case Some(h) => if BeforeDash(h) == [] then [] else [Candidate(BeforeDash(h), 100, "Found in <h1>")]
  }

  function CurrencyPrices(doc: Document, num: NumberParser): seq<Candidate>
  {
    Scanned(Select(doc, CurrencyPriceSelector), CurrencyPrice, num)
  }

  /** `discover_currency_x_data`: name, price and update time; no change candidates. */
  function CurrencyXDiscovery(code: string, fetch: Fetcher, num: NumberParser): Result<Discovered>
  {
    match fetch(DiscoverUrl(code))
    case Err(m) => Err(m)
    case Ok(page) =>
      var doc := page.doc;
      Ok(Discovered(code, DiscoverUrl(code),
        Ranked(CurrencyNames(doc)), Ranked(CurrencyPrices(doc, num)), [], [],
        Ranked(Scanned(Select(doc, CurrencyTimeSelector), CurrencyTime, num))))
  }

  method DiscoverCurrencyX(code: string, fetch: Fetcher, num: NumberParser) returns (r: Result<Discovered>)
    ensures r == CurrencyXDiscovery(code, fetch, num)
  {
    var url := DiscoverUrl(code);
    var fetched := fetch(url);
    if fetched.Err? {
      return Err(fetched.msg);
    }
    var doc := fetched.value.doc;
    var names := CurrencyNames(doc);
    var prices := Scan(Select(doc, CurrencyPriceSelector), CurrencyPrice, num);
    var times := Scan(Select(doc, CurrencyTimeSelector), CurrencyTime, num);
    var finalNames := DeduplicateAndSort(names);
    var finalPrices := DeduplicateAndSort(prices);
    var finalTimes := DeduplicateAndSort(times);
    r := Ok(Discovered(code, url, finalNames, finalPrices, [], [], finalTimes));
  }

  /** `discover_currency_fx_data`: name, price and the signed changes, split on `%`; no update time. */
  function CurrencyFxDiscovery(code: string, fetch: Fetcher, num: NumberParser): Result<Discovered>
  {
    match fetch(DiscoverUrl(code))
    case Err(m) => Err(m)
    case Ok(page) =>
      var doc := page.doc;
      Ok(Discovered(code, DiscoverUrl(code),
        Ranked(CurrencyNames(doc)), Ranked(CurrencyPrices(doc, num)),
        Ranked(Scanned(Select(doc, FxChangeSelector), FxChangeAbs, num)),
        Ranked(Scanned(Select(doc, FxChangeSelector), FxChangePct, num)), []))
  }

  method DiscoverCurrencyFx(code: string, fetch: Fetcher, num: NumberParser) returns (r: Result<Discovered>)
    ensures r == CurrencyFxDiscovery(code, fetch, num)
  {
    var url := DiscoverUrl(code);
    var fetched := fetch(url);
    if fetched.Err? {
      return Err(fetched.msg);
    }
    var doc := fetched.value.doc;
    var names := CurrencyNames(doc);
    var prices := Scan(Select(doc, CurrencyPriceSelector), CurrencyPrice, num);
    var changeAbs := Scan(Select(doc, FxChangeSelector), FxChangeAbs, num);
    var changePct := Scan(Select(doc, FxChangeSelector), FxChangePct, num);
    var finalNames := DeduplicateAndSort(names);
    var finalPrices := DeduplicateAndSort(prices);
    var finalAbs := DeduplicateAndSort(changeAbs);
    var finalPct := DeduplicateAndSort(changePct);
    r := Ok(Discovered(code, url, finalNames, finalPrices, finalAbs, finalPct, []));
  }

  /** A signed text of the change pattern goes to the percentages when it has a `%`, to the absolute changes otherwise. */
  lemma FxChangeExclusive(e: Element, num: NumberParser)
    requires StartsWithSign(Trim(e.text))
    ensures Pick(FxChangeAbs, e, num).Some? <==> !Contains(Trim(e.text), "%")
    ensures Pick(FxChangePct, e, num).Some? <==> Contains(Trim(e.text), "%")
  {
  }

  /** Every absolute change is a signed text without `%`; every percentage is a signed text with one. */
  lemma FxChangeSplit(es: seq<Element>, num: NumberParser, c: Candidate)
    ensures c in Scanned(es, FxChangeAbs, num) ==> StartsWithSign(c.text) && !Contains(c.text, "%")
    ensures c in Scanned(es, FxChangePct, num) ==> StartsWithSign(c.text) && Contains(c.text, "%")
  {
    if c in Scanned(es, FxChangeAbs, num) {
      ScannedMembers(es, FxChangeAbs, num, c);
      var i :| 0 <= i < |es| && Pick(FxChangeAbs, es[i], num) == Some(c);
      PickAccepted(FxChangeAbs, es[i], num, c);
    }
    if c in Scanned(es, FxChangePct, num) {
      ScannedMembers(es, FxChangePct, num, c);
      var i :| 0 <= i < |es| && Pick(FxChangePct, es[i], num) == Some(c);
      PickAccepted(FxChangePct, es[i], num, c);
    }
  }

  /** The `=X` code of `discover_currency_data`. */
  function PrimaryCode(code: string): string
  {
    if EndsWith(code, "=FX") then ReplaceAll(code, "=FX", "=X") else code
  }

  /** The `=FX` code of `discover_currency_data`. */
  function SecondaryCode(code: string): string
  {
    ReplaceAll(PrimaryCode(code), "=X", "=FX")
  }

  /** For a pair code `P=X` or `P=FX` with no `=` in `P`, the two pages are `P=X` and `P=FX`. */
  lemma CodePairing(p: string)
    requires '=' !in p
    ensures PrimaryCode(p + "=X") == p + "=X" && SecondaryCode(p + "=X") == p + "=FX"
    ensures PrimaryCode(p + "=FX") == p + "=X" && SecondaryCode(p + "=FX") == p + "=FX"
  {
    ReplaceSkipsPrefix(p, "=FX", "=FX", "=X");
    ReplaceSkipsPrefix(p, "=X", "=X", "=FX");
    assert ReplaceAll("=FX", "=FX", "=X") == "=X" by {
      assert StartsWith("=FX", "=FX");
      assert "=FX"[3..] == [];
    }
    assert ReplaceAll("=X", "=X", "=FX") == "=FX" by {
      assert StartsWith("=X", "=X");
      assert "=X"[2..] == [];
    }
    assert EndsWith(p + "=FX", "=FX") by {
      assert (p + "=FX")[|p + "=FX"| - 3..] == "=FX";
    }
  }

  /** The merge of `discover_currency_data`. */
  function Merge(code: string, x: Discovered, fx: Discovered): (d: Discovered)
    ensures d.code == code && d.url == x.url
    ensures d.names == x.names && d.prices == x.prices && d.updateTimes == x.updateTimes
    ensures d.changeAbs == fx.changeAbs && d.changePct == fx.changePct
  {
    Discovered(code, x.url, x.names, x.prices, fx.changeAbs, fx.changePct, x.updateTimes)
  }

  /** What `discover_currency_data` returns: the `=X` page's data merged with the `=FX` page's, or the first failure. */
  function CurrencyDiscovery(code: string, fetch: Fetcher, num: NumberParser): Result<Discovered>
  {
    match CurrencyXDiscovery(PrimaryCode(code), fetch, num)
    case Err(m) => Err(m)
    case Ok(x) =>
      match CurrencyFxDiscovery(SecondaryCode(code), fetch, num)
      case Err(m) => Err(m)
      case Ok(fx) => Ok(Merge(code, x, fx))
  }

  /**
   * The currency result fails exactly when one of the two pages fails, the
   * `=X` page's error first; otherwise it keeps the requested code, takes the
   * `=X` page's URL, name, price and update time and the `=FX` page's changes.
   */
  lemma CurrencyFromBothPages(code: string, fetch: Fetcher, num: NumberParser)
    ensures var r := CurrencyDiscovery(code, fetch, num);
      && (fetch(DiscoverUrl(PrimaryCode(code))).Err? ==> r == Err(fetch(DiscoverUrl(PrimaryCode(code))).msg))
      && (fetch(DiscoverUrl(PrimaryCode(code))).Ok? && fetch(DiscoverUrl(SecondaryCode(code))).Err? ==>
          r == Err(fetch(DiscoverUrl(SecondaryCode(code))).msg))
      && (r.Err? <==> fetch(DiscoverUrl(PrimaryCode(code))).Err? || fetch(DiscoverUrl(SecondaryCode(code))).Err?)
    ensures var r := CurrencyDiscovery(code, fetch, num);
      r.Ok? ==>
        var x := fetch(DiscoverUrl(PrimaryCode(code))).value.doc;
        var fx := fetch(DiscoverUrl(SecondaryCode(code))).value.doc;
        && r.value.code == code && r.value.url == DiscoverUrl(PrimaryCode(code))
        && r.value.names == Ranked(CurrencyNames(x))
        && r.value.prices == Ranked(CurrencyPrices(x, num))
        && r.value.updateTimes == Ranked(Scanned(Select(x, CurrencyTimeSelector), CurrencyTime, num))
        && r.value.changeAbs == Ranked(Scanned(Select(fx, FxChangeSelector), FxChangeAbs, num))
        && r.value.changePct == Ranked(Scanned(Select(fx, FxChangeSelector), FxChangePct, num))
  {
  }

  /** `discover_currency_data`: the `=X` page, then the `=FX` page, merged; the first failure is the result. */
  method DiscoverCurrency(code: string, fetch: Fetcher, num: NumberParser) returns (r: Result<Discovered>)
    ensures r == CurrencyDiscovery(code, fetch, num)
  {
    var codeX := PrimaryCode(code);
    var codeFx := ReplaceAll(codeX, "=X", "=FX");
    var dataX := DiscoverCurrencyX(codeX, fetch, num);
    if dataX.Err? {
      return Err(dataX.msg);
    }
    var dataFx := DiscoverCurrencyFx(codeFx, fetch, num);
    if dataFx.Err? {
      return Err(dataFx.msg);
    }
    r := Ok(Merge(code, dataX.value, dataFx.value));
  }
}
