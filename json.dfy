/**
 * The parsed `window.__PRELOADED_STATE__` value (serde_json's `Value`), the
 * accessors the extractor uses on it (`get`, indexing with `[]`, `as_str`,
 * `as_object`) and its compact rendering (`Value::to_string`).
 *
 * An object is the sequence of its members in iteration order; serde_json's
 * default `Map` is a `BTreeMap`, so a parsed object iterates in ascending key
 * order, which `Parsed` states.
 */
module Json {
  import opened Base
  import opened Strings

  /**
   * What serde_json knows about a number: `I64` when `is_i64()` holds, `U64`
   * when only `is_u64()` holds, `F64` otherwise.
   */
  datatype NumKind = I64 | U64 | F64

  datatype Json =
    | JNull
    | JBool(b: bool)
    | JNum(kind: NumKind, text: string)   // text: the number as serde_json prints it
    | JStr(s: string)
    | JArr(items: seq<Json>)
    | JObj(members: seq<(string, Json)>)

  predicate HasKey(ms: seq<(string, Json)>, key: string)
  {
    exists i :: 0 <= i < |ms| && ms[i].0 == key
  }

  /** `Map::get`: the value of the first member named `key`. */
  function Lookup(ms: seq<(string, Json)>, key: string): (r: Option<Json>)
    ensures r.Some? <==> HasKey(ms, key)
    ensures r.Some? ==> exists i :: 0 <= i < |ms| && ms[i] == (key, r.value)
  {
    if ms == [] then None
    else if ms[0].0 == key then Some(ms[0].1)
    else
      var r := Lookup(ms[1..], key);
      assert forall i :: 1 <= i < |ms| ==> ms[i] == ms[1..][i - 1];
      assert HasKey(ms[1..], key) ==> HasKey(ms, key);
      r
  }

  /** With unique keys, the first member named `key` is the only one. */
  lemma LookupUnique(ms: seq<(string, Json)>, i: nat)
    requires UniqueKeys(ms) && i < |ms|
    ensures Lookup(ms, ms[i].0) == Some(ms[i].1)
  {
    var r := Lookup(ms, ms[i].0);
    var j :| 0 <= j < |ms| && ms[j] == (ms[i].0, r.value);
  }

  /** `Value::get(key)`: a member of an object; `None` for every other value. */
  function Get(v: Json, key: string): Option<Json>
  {
    if v.JObj? then Lookup(v.members, key) else None
  }

  /** `value[key]` (the `Index` impl): like `get`, but `Null` where `get` gives `None`. */
  function Index(v: Json, key: string): (r: Json)
    ensures Get(v, key).Some? ==> r == Get(v, key).value
    ensures Get(v, key).None? ==> r == JNull
  {
    match Get(v, key)
    case Some(x) => x
    case None => JNull
  }

  /** Indexing along a path of keys, one `[]` per key. */
  function IndexPath(v: Json, path: seq<string>): Json
    decreases |path|
  {
    if path == [] then v else IndexPath(Index(v, path[0]), path[1..])
  }

  function AsStr(v: Json): Option<string>
  {
    if v.JStr? then Some(v.s) else None
  }

  function AsObject(v: Json): Option<seq<(string, Json)>>
  {
    if v.JObj? then Some(v.members) else None
  }

  predicate UniqueKeys(ms: seq<(string, Json)>)
  {
    forall i, j :: 0 <= i < j < |ms| ==> ms[i].0 != ms[j].0
  }

  /** Every object in the tree lists its keys in strictly ascending order, as a `BTreeMap` iterates. */
  ghost predicate Parsed(v: Json)
  {
    match v
    case JObj(ms) =>
      (forall i :: 0 <= i < |ms| - 1 ==> LexLess(ms[i].0, ms[i + 1].0))
      && (forall i :: 0 <= i < |ms| ==> Parsed(ms[i].1))
    case JArr(xs) => forall i :: 0 <= i < |xs| ==> Parsed(xs[i])
    case _ => true
  }

  /** Ascending keys are unique keys. */
  lemma {:induction false} AscendingKeysAreUnique(ms: seq<(string, Json)>)
    requires forall i :: 0 <= i < |ms| - 1 ==> LexLess(ms[i].0, ms[i + 1].0)
    ensures UniqueKeys(ms)
  {
    forall i, j | 0 <= i < j < |ms| ensures ms[i].0 != ms[j].0 {
      AscendingFrom(ms, i, j);
      LexLessIrreflexive(ms[j].0);
    }
  }

  lemma {:induction false} AscendingFrom(ms: seq<(string, Json)>, i: nat, j: nat)
    requires forall k :: 0 <= k < |ms| - 1 ==> LexLess(ms[k].0, ms[k + 1].0)
    requires i < j < |ms|
    ensures LexLess(ms[i].0, ms[j].0)
    decreases j - i
  {
    if i + 1 < j {
      AscendingFrom(ms, i + 1, j);
      LexLessTransitive(ms[i].0, ms[i + 1].0, ms[j].0);
    }
  }

  // ---------------------------------------------------------------------
  // Rendering (`Value::to_string`, compact form)
  // ---------------------------------------------------------------------

  /** Characters serde_json escapes inside a string literal. */
  predicate NeedsEscape(c: char)
  {
    c == DoubleQuote || c == Backslash || c < ' '
  }

  function HexDigit(d: nat): char
    requires d < 16
  {
    "0123456789abcdef"[d]
  }

  /** serde_json's escape of one character. */
  function EscapeChar(c: char): (r: string)
    ensures !NeedsEscape(c) <==> r == [c]
    ensures NeedsEscape(c) ==> |r| >= 2 && r[0] == Backslash
  {
    if c == DoubleQuote then [Backslash, DoubleQuote]
    else if c == Backslash then [Backslash, Backslash]
    else if c == '\U{8}' then "\\b"
    else if c == '\t' then "\\t"
    else if c == '\n' then "\\n"
    else if c == '\U{C}' then "\\f"
    else if c == '\r' then "\\r"
    else if c < ' ' then "\\u00" + [HexDigit(c as int / 16), HexDigit(c as int % 16)]
    else [c]
  }

  function Escape(s: string): (r: string)
    ensures (forall k :: 0 <= k < |s| ==> !NeedsEscape(s[k])) ==> r == s
    ensures r != [] ==> r[0] != DoubleQuote
  {
    if s == [] then [] else EscapeChar(s[0]) + Escape(s[1..])
  }

  function Quote(s: string): string
  {
    [DoubleQuote] + Escape(s) + [DoubleQuote]
  }

  function Render(v: Json): string
    decreases v, 1
  {
    match v
    case JNull => "null"
    case JBool(b) => if b then "true" else "false"
    case JNum(_, t) => t
    case JStr(s) => Quote(s)
    case JArr(xs) => "[" + RenderItems(v, |xs|) + "]"
    case JObj(ms) => "{" + RenderMembers(v, |ms|) + "}"
  }

  /** The first `n` items of an array, comma-separated. */
  function RenderItems(v: Json, n: nat): string
    requires v.JArr? && n <= |v.items|
    decreases v, 0, n
  {
    if n == 0 then []
    else (if n == 1 then [] else RenderItems(v, n - 1) + ",") + Render(v.items[n - 1])
  }

  /** The first `n` members of an object, comma-separated `"key":value` pairs. */
  function RenderMembers(v: Json, n: nat): string
    requires v.JObj? && n <= |v.members|
    decreases v, 0, n
  {
    if n == 0 then []
    else
      (if n == 1 then [] else RenderMembers(v, n - 1) + ",")
      + Quote(v.members[n - 1].0) + ":" + Render(v.members[n - 1].1)
  }

  /** `v.to_string()` with the double quotes trimmed from both ends: how the extractor turns a value into text. */
  function PlainText(v: Json): string
  {
    TrimMatches(Render(v), {DoubleQuote})
  }

  /** A string with nothing to escape and no quote at its ends comes back as itself. */
  lemma PlainTextOfString(s: string)
    requires forall k :: 0 <= k < |s| ==> !NeedsEscape(s[k])
    ensures PlainText(JStr(s)) == s
  {
    var r := Render(JStr(s));
    assert r == [DoubleQuote] + s + [DoubleQuote];
    assert r[1..][..|r| - 2] == s;
    PlainTextOfQuoted(s);
  }

  lemma PlainTextOfQuoted(s: string)
    requires s == [] || (s[0] != DoubleQuote && s[|s| - 1] != DoubleQuote)
    ensures TrimMatches([DoubleQuote] + s + [DoubleQuote], {DoubleQuote}) == s
  {
    var q := [DoubleQuote] + s + [DoubleQuote];
    assert q[1..] == s + [DoubleQuote];
    if s == [] {
      assert TrimMatches(q, {DoubleQuote}) == TrimMatches([DoubleQuote], {DoubleQuote});
    } else {
      assert (s + [DoubleQuote])[..|s|] == s;
      TrimMatchesKeeps(s, {DoubleQuote});
    }
  }

  /** A number comes back as the text serde_json prints for it. */
  lemma PlainTextOfNumber(k: NumKind, t: string)
    requires t == [] || (t[0] != DoubleQuote && t[|t| - 1] != DoubleQuote)
    ensures PlainText(JNum(k, t)) == t
  {
    TrimMatchesKeeps(t, {DoubleQuote});
  }
}
