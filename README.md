# win-state quote extraction, modelled in Dafny

win-state pulls stock, index and currency quotes from Yahoo! Finance Japan
quote pages. This project models the core of that work, with its own
contracts and proofs:

- **`selector.rs`** is the "dynamic scraping" Cloudflare worker. Per quote
  code it downloads the quote page and runs one of three discovery pipelines:
  equity, index (`^` codes) or currency (`=X`/`=FX` pairs). Each pipeline
  scores every text it finds for the name, price, change, change rate and
  update time. The candidates are then de-duplicated by text, keeping the
  best score, and ranked by score (descending) and then text. `/quote`
  reports the top candidate of each list. `/discover-data` returns the
  candidate lists themselves.
- **`yf_quote_worker/src/lib.rs`** is the quote worker. For each code in
  `?code=` it chooses the quote URL and finds the page's
  `window.__PRELOADED_STATE__` JSON. It looks the code up first in three
  known price boards and then in any object holding both `code` and
  `name`. If that JSON is missing it falls back to the DOM. It answers with
  one normalized record or error per code.
- **`rust_extractor/src/bin/yf_quote.rs`** is the command-line version of the
  same lookup. It covers the known boards only and prints one block per code.
- **`rust_extractor/src/main.rs`** finds every object in the state JSON that
  holds a given set of keys and prints a Rust `struct` definition for each
  one. It uses PascalCase naming and numbers repeated base names.
- **`rust_extractor/src/mainkey.rs`** lists every key path in the state JSON.

## Module layout

- `Base`: `Option`, `Result`, first-`Some` search and the first value of a
  query pair.
- `Strings`: the standard-library string operations the code relies on.
  These are trimming, `split`/`join`, prefix and suffix tests, containment,
  `replace`, `trim_matches`, byte-wise ordering and decimal rendering.
- `Json`: a `serde_json::Value`. Object members keep their order, and
  `Parsed` says the keys ascend, as a `BTreeMap` keeps them. It also holds
  `get`, indexing and the `to_string` rendering the records use.
- `Codes`: quote URLs, suffix stripping and code-list cleaning.
- `Ranking`: de-duplication and ranking of candidates.
- `Discovery`: the three discovery pipelines.
- `Scrape`: the worker's routing and its `/quote` and `/discover-data`
  endpoints.
- `Locator`: the quote worker.
- `QuoteCli`: the command-line quote tool.
- `KeySearch`: `find_object_paths`, written as a `PathFinder` class whose
  fields are the path stack and the found paths.
- `StructGen`: `to_pascal_case`, `generate_structs` (a `StructGenerator`
  class over the `all_defs` map) and the struct generator's `main`.
- `KeyList`: `print_keys`.

Most loops in the source are methods with loop invariants. Each such method
is proved equal to a specification function, and the lemmas state the
properties of those functions. `print_keys` (`mainkey.rs:8-23`) only
recurses and prints, so `KeyList.Lines` is a recursive function that returns
the lines it prints, with no method beside it. Both copies of `find_object` and
`find_object_paths` are the same function: `yf_quote.rs:45-55` matches
`lib.rs:240-246`, and `main.rs:20-42` matches `lib.rs:252-272`. Each is
modelled once.

The model keeps these facts about the code:

- A state block that does not parse as JSON ends the worker's attempt with
  "Failed to parse JSON". It does not fall back to the DOM
  (`yf_quote_worker/src/lib.rs:101-104`).
- The worker's record carries the code as requested (`lib.rs:136`). The
  command-line tool's record carries the code found in the JSON
  (`yf_quote.rs:148`).
- When no JSON strategy matches, the error is the fixed text "Could not find
  matching data in JSON." (`lib.rs:179`).
- The records are tagged `json_predefined`, `json_fallback` or
  `dom_fallback`.

## Model

| member | source | states |
|---|---|---|
| Base.FirstSomeIsFirst | yf_quote_worker/src/lib.rs:125-148 | trying strategies in order yields nothing iff every strategy yields nothing, and otherwise yields the first one that answers |
| Base.FirstValue | yf_quote_worker/src/lib.rs:52 | `find` over the query pairs returns a value iff some pair has the key, and then the value of the first such pair |
| Strings.StripStateTerminator | yf_quote_worker/src/lib.rs:96-99 | the captured state text is trimmed and loses exactly one trailing `;` iff the trimmed text ends with one |
| Strings.SplitJoin | yf_quote_worker/src/lib.rs:61 | splitting on a separator gives at least one part, no part contains the separator, and joining the parts back restores the input |
| Strings.Before | selector.rs:96-98 | the text before the first occurrence of a character is a prefix without that character, followed by that character when it is shorter than the input |
| Strings.BeforeSubstring | selector.rs:288 | the text before the first occurrence of a substring is a prefix at no position of which the substring occurs, followed by the substring when it is shorter |
| Strings.LeadingIn | selector.rs:316 | the run of trimmed characters at the start: all of them trimmed characters, and the next one, if any, is not |
| Strings.TrailingIn | selector.rs:316 | the run of trimmed characters at the end: all of them trimmed characters, and the one before, if any, is not |
| Strings.TrimMatches | selector.rs:316 | `trim_matches` removes exactly the leading and trailing runs of trimmed characters: the result is the slice between them, only trimmed characters lie outside it, it neither starts nor ends with one, and it is non-empty whenever the input has any other character |
| Strings.TrimMatchesKeeps | yf_quote_worker/src/lib.rs:138 | a text that neither starts nor ends with a trimmed character is left as it is |
| Strings.LexLessTransitive | selector.rs:74 | byte-wise string order is transitive |
| Strings.LexLessTotal | selector.rs:74 | byte-wise string order relates any two distinct strings |
| Strings.NatToStringRoundTrip | rust_extractor/src/main.rs:163 | the decimal rendering of a count reads back as that count |
| Json.Lookup | yf_quote_worker/src/lib.rs:249 | `get` finds a value iff the object has the key, and the value is one stored under that key |
| Json.LookupUnique | yf_quote_worker/src/lib.rs:262 | in an object with distinct keys, `get` of a member's key returns that member's value |
| Json.AscendingKeysAreUnique | rust_extractor/src/main.rs:59 | keys kept in ascending order, as a parsed map keeps them, are distinct |
| Json.Index | yf_quote_worker/src/lib.rs:158 | indexing a value by a key gives the member's value, or `null` when there is none |
| Json.EscapeChar | yf_quote_worker/src/lib.rs:138 | a character is rendered as itself iff it needs no escape, and otherwise as an escape sequence starting with a backslash |
| Json.PlainTextOfString | yf_quote_worker/src/lib.rs:138 | a JSON string with nothing to escape renders, after its quotes are trimmed, as the string itself |
| Json.PlainTextOfNumber | yf_quote_worker/src/lib.rs:138 | a JSON number renders as its own text |
| Codes.Suffixed | yf_quote_worker/src/lib.rs:78-82 | the quote URL uses the code unchanged iff it already names a market (`^`, `=`, `.T`, `.O`), and otherwise the code with `.T` appended, which then names a market |
| Codes.SuffixedIdempotent | yf_quote_worker/src/lib.rs:78-82 | choosing the URL code twice gives the same code, and the same URL, as choosing it once |
| Codes.StripSuffix | yf_quote_worker/src/lib.rs:129 | the code compared against a board is the longest dot-free prefix of the requested code, and a dot follows it when it is shorter |
| Codes.StripSuffixOfSuffixed | yf_quote_worker/src/lib.rs:128-134 | for a bare code, stripping the suffix off the URL code gives back the bare code |
| Codes.TrimmedCodes | selector.rs:688-693 | every code kept is non-empty and already trimmed, and there are no more codes than segments |
| Codes.TrimmedCodesMembers | selector.rs:688-693 | a code is kept iff it is non-empty and is the trimmed form of some segment |
| Codes.TrimmedCodesSnoc | selector.rs:688-693 | one more segment appends its trim to the list, and nothing when the trim is empty |
| Codes.TrimmedCodesCons | selector.rs:688-693 | read from the front, the list is the first segment's non-empty trim followed by the list of the remaining segments |
| Codes.CleanListRoundTrip | selector.rs:688-693 | a list whose segments are already clean is split and kept unchanged, so joining the codes back restores it |
| Codes.KeptThenTrimmed | yf_quote_worker/src/lib.rs:58-64 | dropping empty segments before trimming never yields more codes than segments and every code is trimmed |
| Codes.KeptThenTrimmedMembers | yf_quote_worker/src/lib.rs:58-64 | a code is in the written list exactly when it is the trim of some non-empty segment, a blank segment giving the empty code |
| Codes.KeptThenTrimmedEmpty | yf_quote_worker/src/lib.rs:58-67 | the written list is empty exactly when every segment is empty, so one blank segment is enough to avoid the empty-list error |
| Codes.KeptThenTrimmedCons | yf_quote_worker/src/lib.rs:58-64 | read from the front, the written list is the first segment's trim unless that segment is empty, followed by the rest in segment order |
| Codes.KeptThenTrimmedSnoc | yf_quote_worker/src/lib.rs:58-64 | appending a segment appends its trim unless the segment is empty |
| Codes.BlankSegmentKept | yf_quote_worker/src/lib.rs:61-63 | a segment made only of blanks survives the filter as an empty code when filtering precedes trimming, and is dropped when trimming comes first |
| Codes.KeptThenTrimmedAgrees | yf_quote_worker/src/lib.rs:61-63 | the two orders give the same list exactly when no non-empty segment is blank |
| Ranking.BestIndex | selector.rs:64-72 | the entry kept for a text is the first one with that text whose score no other entry for that text exceeds |
| Ranking.BestStep | selector.rs:65-71 | a new candidate replaces the kept entry for its text only when its score is strictly higher, and a new text is kept with the candidate itself |
| Ranking.RankedBeforeAsymmetric | selector.rs:74 | the ranking order (higher score first, then smaller text) is asymmetric |
| Ranking.RankedBeforeTransitive | selector.rs:74 | the ranking order is transitive |
| Ranking.RankedBeforeTotal | selector.rs:74 | the ranking order relates any two candidates with different texts |
| Ranking.InsertSorted | selector.rs:74 | inserting a candidate into a ranked list keeps it ranked |
| Ranking.InsertMultiset | selector.rs:74 | inserting a candidate adds exactly that candidate |
| Ranking.SortRanked | selector.rs:74 | sorting yields a ranked permutation of its input with the same texts, distinct when the input's were |
| Ranking.StrictRankingsAgree | selector.rs:73-74 | two strictly ranked lists with the same elements are equal, so the arbitrary map order cannot show in the result |
| Ranking.RankingIsUnique | selector.rs:73-76 | there is exactly one ranking of a candidate list |
| Ranking.RankedIsRanking | selector.rs:62-76 | the reference ranking holds exactly the best entry of each distinct text, strictly ranked |
| Ranking.EntriesRank | selector.rs:73-74 | sorting the best entries, in whatever order the map gives them, yields the reference ranking |
| Ranking.KeepBest | selector.rs:63-72 | the map built by the loop has one key per distinct text, holding that text's best entry |
| Ranking.Entries | selector.rs:73 | the map's values, taken in any order, are distinct by text and are exactly the map's entries |
| Ranking.DeduplicateAndSort | selector.rs:62-76 | the result is strictly ranked, has one entry per distinct input text, each the best for its text, and equals the reference ranking |
| Ranking.TopTextIsBest | selector.rs:641-645 | the first entry is empty only for no candidates; otherwise it is a candidate's text with the highest score, and the smallest text among the highest |
| Ranking.TopOutranks | selector.rs:74 | no candidate has a higher score than the head of a ranking, and one with an equal score has the head's text or a larger one |
| Ranking.TopIsHighest | selector.rs:641-645 | the reported text belongs to a candidate whose score no other candidate exceeds |
| Discovery.BaseName | selector.rs:96-99 | the base name is a trimmed substring of the page title containing none of `【`, `(` or `：` |
| Discovery.PriceScore | selector.rs:152-161 | a price score is a multiple of 10 between 10 and 210, at least 110 inside the price board and at most 110 outside it |
| Discovery.PickAccepted | selector.rs:146-166 | a candidate is the element's trimmed text, accepted by its rule and scored by that rule |
| Discovery.HeadingScore | selector.rs:122-130 | a heading that equals the base name scores 110, one that only contains it scores 100, and other headings are not candidates |
| Discovery.ScannedMembers | selector.rs:145-176 | the scan's candidates are exactly the accepted picks of the matched elements |
| Discovery.Scan | selector.rs:145-176 | the element loop pushes exactly the scan's candidates, in element order |
| Discovery.ScanEach | selector.rs:134-178 | the loop over selectors collects the candidates of each selector in turn |
| Discovery.CollectEquityNames | selector.rs:92-131 | the name loop collects exactly the equity name candidates |
| Discovery.EquityNameScores | selector.rs:92-131 | there are name candidates only when the title has a non-empty base name; the title comes first at score 50, and every heading after it is the base name (110) or contains it (100) |
| Discovery.CollectEquityPrices | selector.rs:134-200 | the price loops collect the price candidates, and the fallback loop runs only when the first finds none |
| Discovery.EquityPriceScores | selector.rs:134-200 | pattern price candidates score between 10 and 210; only when there are none do the fallback candidates, all scored 10, take their place |
| Discovery.PriceRulesScores | selector.rs:150-161 | any candidate found by a price selector scores between 10 and 210 |
| Discovery.CollectEquityChangePct | selector.rs:202-237 | the change-rate loops collect the labelled candidates, and the fallback runs only when there are none |
| Discovery.DiscoverEquity | selector.rs:80-266 | the equity pipeline fails iff the page download fails, and otherwise returns every field's candidates ranked |
| Discovery.CollectIndexNames | selector.rs:337-361 | the index name is the JSON name when present, and otherwise the first non-empty heading or title candidate |
| Discovery.IndexNamePrecedence | selector.rs:286-361 | there is at most one name candidate, the JSON one wins, and every one is non-empty with score 100, 80 or 70 |
| Discovery.CollectIndexFallbacks | selector.rs:363-444 | each DOM fallback runs only when its JSON field is missing |
| Discovery.IndexTimeOnlyWithOtherFallbacks | selector.rs:364-444 | when price, change and change rate are all in the JSON, the DOM is never consulted, not even for the time |
| Discovery.DiscoverIndex | selector.rs:268-461 | the index pipeline fails iff the download fails, and otherwise returns the JSON-first candidates ranked |
| Discovery.MarketTimeHidesTradeTime | selector.rs:326 | a board whose `marketTime` is present but not a string yields no time, even when `tradeTime` is set |
| Discovery.DiscoverCurrencyX | selector.rs:463-525 | the `=X` page pipeline fails iff its download fails, and supplies names, prices and times |
| Discovery.DiscoverCurrencyFx | selector.rs:527-598 | the `=FX` page pipeline fails iff its download fails, and supplies the change candidates |
| Discovery.FxChangeExclusive | selector.rs:564-579 | a signed change text goes to the rate list iff it contains `%`, and to the absolute list otherwise |
| Discovery.FxChangeSplit | selector.rs:561-582 | absolute change candidates are signed without `%`, and rate candidates are signed with `%` |
| Discovery.CodePairing | selector.rs:600-607 | both spellings of a pair map to the same `=X` code and the same `=FX` code |
| Discovery.Merge | selector.rs:615-624 | the merged record takes the code requested, the `=X` page's URL, names, prices and times, and the `=FX` page's changes |
| Discovery.CurrencyFromBothPages | selector.rs:600-625 | the currency pipeline fails iff either page fails, with the `=X` page's error first; otherwise it keeps the requested code and the `=X` URL, names, prices and times, and the `=FX` changes |
| Discovery.DiscoverCurrency | selector.rs:600-625 | the method fetches `=X` before `=FX` and returns the merged discovery |
| Scrape.RunPipeline | selector.rs:633-639 | dispatch runs the chosen pipeline and returns its result |
| Scrape.RouteCases | selector.rs:633-639 | `^` codes go to the index pipeline, other codes ending in `=X` or `=FX` to the currency pipeline, and all others to the equity pipeline |
| Scrape.ScrapeDynamically | selector.rs:629-674 | a code's quote fails iff the page download or the pipeline fails, and otherwise reports the top candidate of each list |
| Scrape.PairCodesAreCurrencies | selector.rs:635 | both spellings of a currency pair are routed to the currency pipeline |
| Scrape.PairSpellingsAgree | selector.rs:600-639 | the two spellings of a pair succeed together and report the same quote apart from the code |
| Scrape.EquityPriceIsBest | selector.rs:638-642 | an equity quote's price is the top-ranked price candidate |
| Scrape.QueryCodes | selector.rs:685-695 | every code taken from the query is non-empty and trimmed |
| Scrape.QueryCodesMembers | selector.rs:686-695 | a code is requested iff it is a non-empty trimmed segment of some `code` parameter |
| Scrape.QuoteCodes | selector.rs:685-698 | the loop gives the query's codes, or "Missing stock code query parameter" when there are none |
| Scrape.PushTrimmed | selector.rs:688-693 | the inner loop appends the non-empty trimmed segments of one `code` value, in order |
| Scrape.QuoteEndpoint | selector.rs:683-713 | `/quote` fails iff no code was given, and otherwise answers each code in order with that code's quote |
| Scrape.ScrapeEach | selector.rs:699-700 | the codes are scraped one result per code, in request order |
| Scrape.FxCodeMisrouted | selector.rs:723-729 | as written, `/discover-data` sends `USDJPY=FX` to the equity pipeline while `/quote` sends it to the currency pipeline |
| Scrape.RoutesDiffer | selector.rs:723-729 | the two dispatches differ exactly on `=FX` codes that do not start with `^` |
| Scrape.DiscoverRouteAsWritten | selector.rs:723-729 | as written, `^` codes go to the index pipeline, other codes ending in `=X` to the currency pipeline and everything else, `=FX` included, to the equity pipeline |
| Scrape.DiscoverDataVia | selector.rs:714-735 | a request without `code` is refused with the missing-parameter message; otherwise the answer is the chosen pipeline's lists, or its error behind "Failed to discover data: " |
| Scrape.DiscoverData | selector.rs:714-735 | the endpoint as written refuses a request without `code`, and answers a non-index `=FX` code with the equity pipeline's lists |
| Scrape.DiscoverDataAsIntended | selector.rs:723-729 | the endpoint as written answers as the intended dispatch would for every code except a non-index `=FX` one |
| Scrape.DiscoverDataMatchesQuote | selector.rs:714-735 | with the `/quote` dispatch, `/discover-data` succeeds exactly when `/quote` does for that code, and its top candidates are what `/quote` reports |
| Locator.FindObject | yf_quote_worker/src/lib.rs:240-246 | the loop that walks the path returns what the path lookup specifies |
| Locator.DescendAllKeys | yf_quote_worker/src/lib.rs:240-246 | walking a path succeeds iff every step finds its key, and then it reaches the value indexed along the path |
| Locator.FindObjectCharacterised | yf_quote_worker/src/lib.rs:240-246 | the lookup returns an object iff the path exists and ends at an object, which is then the value at that path |
| Locator.GetStringValue | yf_quote_worker/src/lib.rs:248-250 | a string is returned iff the key is present with a string value, and it is that value |
| Locator.ValueText | yf_quote_worker/src/lib.rs:138 | a missing key reads as "N/A", and a present one as its rendering with the quotes trimmed |
| Locator.SourceRecord | yf_quote_worker/src/lib.rs:135-144 | the record carries the requested code, status "OK" and tag `json_predefined`, with "N/A" for each missing field |
| Locator.PredefinedIsFirstMatch | yf_quote_worker/src/lib.rs:124-148 | the predefined boards yield nothing iff no board matches, and otherwise the record of the first board that matches |
| Locator.SourceMatchIsTagged | yf_quote_worker/src/lib.rs:126-146 | a board matches exactly when its object exists, holds a string code, and that code trimmed equals the compare key; the match is then that board's record under the requested code, tagged `json_predefined` |
| Locator.FallbackRecord | yf_quote_worker/src/lib.rs:164-173 | the fallback record carries the requested code, status "OK" and tag `json_fallback`, with "N/A" for a missing price or time |
| Locator.ProcessJsonData | yf_quote_worker/src/lib.rs:121-180 | the loops return the first predefined match, else the first key-search match, else the fixed error |
| Locator.FirstSourceMatch | yf_quote_worker/src/lib.rs:125-148 | the table loop returns the record of the first source whose object holds the compared code, and nothing when no source does |
| Locator.FirstPathMatch | yf_quote_worker/src/lib.rs:155-177 | the fallback loop returns the record of the first found path that reaches an object whose trimmed code is the code before its first `.`, and nothing otherwise |
| Locator.ProcessedOutcome | yf_quote_worker/src/lib.rs:121-180 | success is tagged with one of the two JSON strategies, and the error occurs iff neither matches, with the fixed message |
| Locator.IndexAlong | yf_quote_worker/src/lib.rs:156-159 | the indexing loop reaches the value at the path, `null` once a step is missing |
| Locator.SuffixStrippedExample | yf_quote_worker/src/lib.rs:128-130 | "7203.T" is compared as "7203" on the stocks board |
| Locator.StocksBoardWins | yf_quote_worker/src/lib.rs:125-145 | a stocks board whose code matches the stripped request decides the answer, which keeps the requested code |
| Locator.Located | yf_quote_worker/src/lib.rs:94-112 | a page without the state block or without its group is left to the DOM fallback; a block that does not parse is the parse error; a parsed block gives the JSON strategies' answer, a record under the requested code tagged `json_predefined` or `json_fallback` |
| Locator.FetchSingleCode | yf_quote_worker/src/lib.rs:77-118 | each code gets data or an error but never both, under the requested code: the fetch and read errors as the code words them; without a state block or its group, the DOM fallback's record or message; with an unparsable block, the parse error; otherwise the record or the no-match error of the JSON strategies |
| Locator.FetchedFromState | yf_quote_worker/src/lib.rs:77-118 | once the page's state block parses, the code's record comes from the JSON strategies, tagged by the one that matched, and the only error is the fixed no-match text; the DOM is never read |
| Locator.BlankCodeRequested | yf_quote_worker/src/lib.rs:58-68 | as written, `?code=%20` passes the emptiness checks and requests the empty code |
| Locator.WorkerCodesAsWritten | yf_quote_worker/src/lib.rs:52-68 | as written, without `code` the request fails with the missing-parameter message; it fails with the empty-list message exactly when every segment is empty; otherwise its codes are the trims of the non-empty segments, in segment order and with repeats kept |
| Locator.WorkerCodes | yf_quote_worker/src/lib.rs:52-68 | the codes requested are non-empty and trimmed, or the request fails with the missing-parameter or empty-list message |
| Locator.WorkerCodesAgree | yf_quote_worker/src/lib.rs:58-64 | the corrected code list equals the one as written whenever no segment is blank but non-empty |
| Locator.QuoteRequest | yf_quote_worker/src/lib.rs:48-74 | the worker answers with the error of its code list as written, or one result per listed code, in order, each the code's own fetch |
| Locator.FetchEach | yf_quote_worker/src/lib.rs:70-71 | the results are built one per code, in request order |
| Locator.FetchedAllAt | yf_quote_worker/src/lib.rs:70-71 | the `k`-th result is the `k`-th code's result, fetched on its own |
| QuoteCli.LocateRecord | rust_extractor/src/bin/yf_quote.rs:137-159 | the loop with `break` returns the first board's match |
| QuoteCli.SameMatchPerSource | rust_extractor/src/bin/yf_quote.rs:138-156 | the tool matches a board exactly when the worker does, with the same fields apart from the code |
| QuoteCli.CliAgreesWithWorker | rust_extractor/src/bin/yf_quote.rs:146-154 | the tool finds a record iff the worker's predefined search does, with the same name, price, change, rate and time |
| QuoteCli.TrimAll | rust_extractor/src/bin/yf_quote.rs:65 | each code is its segment trimmed, one per segment |
| QuoteCli.Run | rust_extractor/src/bin/yf_quote.rs:63-183 | the tool reports one outcome per downloaded code, in order, and stops at the first failed download |
| QuoteCli.RunCodes | rust_extractor/src/bin/yf_quote.rs:104-180 | the loop skips empty codes, examines each page it downloads, and ends with the first download error |
| QuoteCli.DownloadsAt | rust_extractor/src/bin/yf_quote.rs:104-116 | at each code the run skips an empty code, stops with the error of a failed download, or keeps the downloaded page and goes on |
| QuoteCli.Examine | rust_extractor/src/bin/yf_quote.rs:119-179 | a page yields a record, no match, a missing script tag, a missing JSON group or a parse failure |
| QuoteCli.DownloadsCoverCodes | rust_extractor/src/bin/yf_quote.rs:104-116 | the codes downloaded are a prefix of the non-empty trimmed codes, and all of them when no download fails |
| QuoteCli.DownloadsStep | rust_extractor/src/bin/yf_quote.rs:104-116 | an empty code is skipped, a failed download ends the run, and a successful one is reported before the rest |
| KeySearch.PathFinder.Search | yf_quote_worker/src/lib.rs:252-272 | a search restores the path stack and appends the paths the pre-order walk finds |
| KeySearch.FindObjectPaths | yf_quote_worker/src/lib.rs:151-153 | a search from the root with an empty stack yields the pre-order paths |
| KeySearch.PathsExtendPrefix | rust_extractor/src/main.rs:26-41 | every path recorded below a node extends that node's path |
| KeySearch.FoundPathsReachMatches | yf_quote_worker/src/lib.rs:155-160 | in a value without arrays, indexing along a found path reaches an object that holds all the keys |
| KeySearch.ArrayElementsShareThePath | yf_quote_worker/src/lib.rs:267-270 | an object inside an array is recorded under the array's path, so indexing stops at the array |
| KeyList.MemberPrefix | rust_extractor/src/mainkey.rs:9-13 | a top-level member is listed as its key, and a nested one as the prefix, a dot and the key |
| KeyList.ItemPrefix | rust_extractor/src/mainkey.rs:20 | an array element's prefix extends the array's prefix with the element's decimal index in brackets |
| KeyList.Lines | rust_extractor/src/mainkey.rs:5-26 | every line listed below a prefix starts with that prefix |
| KeyList.LineCount | rust_extractor/src/mainkey.rs:5-26 | the listing has exactly one line per object member anywhere in the value |
| KeyList.MemberLineFirst | rust_extractor/src/mainkey.rs:8-16 | in an object's listing, the `i`-th member's line comes after one line per member counted in the members before it, and is followed at once by its value's lines, which all extend it |
| KeyList.OneMemberListing | rust_extractor/src/mainkey.rs:8-16 | the listing of an object with one member is that member's line followed by its value's lines |
| KeyList.ListingExample | rust_extractor/src/mainkey.rs:5-26 | a nested object and an array of objects are listed as `a`, `a.b`, `c`, `c[0].d` |
| KeyList.ListKeys | rust_extractor/src/mainkey.rs:28-49 | the tool prints the missing-tag line, nothing, or one line per member, and fails iff the JSON does not parse |
| StructGen.Upper | rust_extractor/src/main.rs:118 | upper-casing keeps a character alphanumeric and leaves no ASCII lower-case letter |
| StructGen.Segments | rust_extractor/src/main.rs:112 | splitting gives at least one segment, and no segment contains `_` or a non-alphanumeric character |
| StructGen.SegmentsAfterWord | rust_extractor/src/main.rs:112 | a word followed by a separator is the first segment, and splitting continues after the separator |
| StructGen.NonEmpty | rust_extractor/src/main.rs:113 | the filter keeps only non-empty segments of the input |
| StructGen.PascalCaseKeepsAlphanumerics | rust_extractor/src/main.rs:111-122 | PascalCase keeps the input's alphanumeric characters in order, changing at most their case |
| StructGen.PascalCaseAlphanumeric | rust_extractor/src/main.rs:111-122 | a PascalCase name holds only alphanumeric characters |
| StructGen.CapitalizedConcatStartsUpper | rust_extractor/src/main.rs:114-120 | a capitalized concatenation of non-empty words does not start with an ASCII lower-case letter |
| StructGen.PascalCaseOfWord | rust_extractor/src/main.rs:111-122 | a single word just gets its first character upper-cased |
| StructGen.PascalCaseIdempotent | rust_extractor/src/main.rs:111-122 | applying PascalCase twice gives the same name as applying it once |
| StructGen.PascalCaseOfTwoWords | rust_extractor/src/main.rs:111-122 | two words joined by a separator become the two words capitalized and concatenated |
| StructGen.PascalCaseOfCamelCase | rust_extractor/src/main.rs:111-122 | a camel-case key such as `priceBoard` keeps its length and its inner capitals, and its initial lower-case letter is upper-cased |
| StructGen.Singular | rust_extractor/src/main.rs:71 | the element name is the key without one trailing `s`, removed iff the key ends with one |
| StructGen.Generate | rust_extractor/src/main.rs:45-109 | a non-object or an already defined name yields nothing; otherwise the name is registered and the new definitions are the struct followed by its nested ones |
| StructGen.Fields | rust_extractor/src/main.rs:59-92 | there is one field line per member, and the nested definitions only add to the map |
| StructGen.Field | rust_extractor/src/main.rs:61-90 | only an object, or an array whose first element is an object, produces nested definitions |
| StructGen.NestedTypeIsRegistered | rust_extractor/src/main.rs:62-75 | the type a field names, the key or its singular in PascalCase, ends up defined in the map |
| StructGen.ReservedNamesAreUnique | rust_extractor/src/main.rs:50-105 | when a name is reserved before recursing, the definitions produced are distinct by name and are exactly the map's new entries |
| StructGen.DuplicateDefinitionAsWritten | rust_extractor/src/main.rs:52-101 | as written, `{"data":{"data":{"x":1}}}` named `Root` prints two `Data` structs |
| StructGen.StructGenerator.GenerateStructs | rust_extractor/src/main.rs:45-109 | the generator returns the definitions of the generation as written, the name registered after the members, and leaves its map as that generation leaves it |
| StructGen.StructGenerator.FieldType | rust_extractor/src/main.rs:61-90 | the field type and nested definitions are those of the generation as written for that member |
| StructGen.Described | rust_extractor/src/main.rs:150-184 | one object is described per found path, under the name numbered by its base's occurrences, each generated as written against the map the earlier ones left |
| StructGen.RepeatsNumberedApart | rust_extractor/src/main.rs:159-166 | two found objects with the same base get different names |
| StructGen.FirstOfBaseUnnumbered | rust_extractor/src/main.rs:159-166 | the first object with a base is named by the base alone |
| StructGen.NumberedNamesCanCollide | rust_extractor/src/main.rs:159-166 | numbering can still collide: bases `Item2`, `Item`, `Item` name the first and third object both `Item2` |
| StructGen.CountStep | rust_extractor/src/main.rs:159-166 | one counter update keeps the map equal to the occurrences so far and gives the object's name |
| StructGen.NextName | rust_extractor/src/main.rs:156-166 | the counter step returns the object's name and the updated occurrence counts |
| StructGen.DescribeOne | rust_extractor/src/main.rs:151-173 | one found object keeps its path and name; the definitions map only grows; a target that is not an object, or whose name is already defined, gives no definitions; otherwise the first definition is the one registered under the name |
| StructGen.DescribeNext | rust_extractor/src/main.rs:150-173 | one iteration extends the description by the next object, named by the counter and generated as written into the shared map |
| StructGen.DescribeFoundObjects | rust_extractor/src/main.rs:147-184 | the loop describes every found object as specified, each generated as written |
| StructGen.GenerateFromPage | rust_extractor/src/main.rs:124-194 | the generator reports a missing tag, a missing group, a parse failure, no objects, or the described objects of every path found, generated as written |

## Findings

| source | as written | input that shows it | evidently intended | confidence | as-written member | corrected member |
|---|---|---|---|---|---|---|
| rust_extractor/src/main.rs:50-105 | the struct name is registered in `all_defs` only after the members are processed, so a nested object with the same name is generated again | `{"data":{"data":{"x":1}}}` under the name `Root` prints `pub struct Data` twice | each struct name is defined once | not executed | StructGen.DuplicateDefinitionAsWritten | StructGen.ReservedNamesAreUnique |
| yf_quote_worker/src/lib.rs:61-63 | empty segments are dropped before trimming, so a blank segment survives as an empty code | `?code=%20` requests the code "" instead of failing with "cannot be empty" | trimming before the emptiness filter, as `/quote` in `selector.rs` does | not executed | Locator.BlankCodeRequested | Locator.WorkerCodes |
| selector.rs:723-729 | `/discover-data` routes only `=X` codes to the currency pipeline | `USDJPY=FX` goes to the equity pipeline | the routing of `scrape_dynamically`, which the comment at lines 721-722 says it follows | not executed | Scrape.FxCodeMisrouted | Scrape.DiscoverDataMatchesQuote |

The entry points follow the code as written:
- `StructGenerator.GenerateStructs` registers a name only after its members,
  and the generator's `main` (`GenerateFromPage`) is built on it.
- `Locator.QuoteRequest` uses `WorkerCodesAsWritten`.
- `Scrape.DiscoverData` uses `DiscoverRouteAsWritten`.

The corrected forms are kept beside them, with their intended properties
proved:
- `Generate` with `reserve` true, and `ReservedNamesAreUnique`.
- `WorkerCodes`, with `WorkerCodesAgree`.
- `DiscoverDataVia` over `ScrapeRoute`, with `DiscoverDataMatchesQuote`.
  `DiscoverDataAsIntended` says where the written endpoint already agrees.

## Left out

- Network access is a parameter of the model. This covers `Fetch`,
  `reqwest` and `resp.text()`. A fetcher maps a URL to a page or an error,
  and it is assumed to answer the same URL the same way during one request.
- URL parsing (`Url::parse`, `req.url()`) is left out. The query is a
  sequence of decoded key/value pairs.
- The `__PRELOADED_STATE__` regular expression is a parameter. It reports
  no match, a match without the group, or the captured text.
- JSON parsing (`serde_json::from_str`) is a parameter that returns a value
  or an error message.
- Floating-point parsing (`parse::<f64>`) is a parameter. It says whether a
  text is a valid number and whether that number is non-negative.
- HTML parsing and CSS selector matching (`scraper`) are left out. A
  document is a map from each selector the code uses to the elements it
  matches, in document order.
- `process_dom_data` of the quote worker is a parameter of the worker's
  environment. That includes its selectors and its "name/price" error.
- `generate_selector_candidates` and the `used_selectors` map of
  `scrape_dynamically` are not part of this model.
- The `/health`, `/generate-selectors` and `/verify-selector` endpoints are
  not part of this model.
- The worker's `join_all` concurrency is modelled as an in-order sequential
  loop. The results come out in the same order either way.
- `HashMap::into_values` returns values in an arbitrary order.
  `Ranking.Entries` accepts any order, and the ranking is proved not to
  depend on it.
- `discover_currency_fx_data` fills both change lists in one pass over the
  elements. The model makes two passes over the same elements, which
  pushes each list in the same order.
- Serialization errors in `/quote` (`serde_json::to_value`) and the HTTP
  status codes of `Response::error` are left out.
- `console_log`, `println!`/`eprintln!` layout, indentation and braces of
  the generated code, and `clap` argument handling are left out. The tools
  return what they would print.
- The download errors that `main.rs` and `mainkey.rs` propagate with `?`
  are left out. Those tools start from the downloaded body.
- Json.Render: `Value::to_string` escaping is modelled for `"`, `\` and
  ASCII control characters only. A number renders as its own source text,
  not as serde's canonical form.
- StructGen.IsAlphanumeric: Unicode `char::is_alphanumeric` is exact for
  ASCII only. Every other character is classed as alphanumeric unless it
  is whitespace.
- StructGen.Upper: Unicode `to_uppercase` is modelled for ASCII letters
  only. Other characters are left unchanged, whereas Rust may map one to
  several characters.
- Strings.LexLess: string order compares characters by code point. This
  matches Rust's byte order for UTF-8 text.
