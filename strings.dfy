/**
 * The handful of Rust `str` operations the extractor relies on, written out
 * over `seq<char>`: `trim`, `starts_with`/`ends_with`/`contains`,
 * `split(..).next()`, `split` into segments, `replace`, `trim_matches`, the
 * byte-wise (code point) ordering of `String`, decimal formatting of counts,
 * and the trailing-`;` removal applied to the captured state block.
 */
module Strings {

  /** Rust's `char::is_whitespace`: the Unicode White_Space property. */
  predicate IsWhitespace(c: char)
  {
    ('\t' <= c <= '\r') || c == ' ' || c == '\U{85}' || c == '\U{A0}' || c == '\U{1680}'
    || ('\U{2000}' <= c <= '\U{200A}') || c == '\U{2028}' || c == '\U{2029}'
    || c == '\U{202F}' || c == '\U{205F}' || c == '\U{3000}'
  }

  /** Punctuation that the extractor trims or matches, named by code point. */
  const DoubleQuote: char := '\U{22}'
  const Backslash: char := '\U{5C}'
  const OpenParen: char := '\U{28}'
  const CloseParen: char := '\U{29}'
  const OpenBracket: char := '\U{5B}'
  const CloseBracket: char := '\U{5D}'

  predicate IsAsciiDigit(c: char)
  {
    '0' <= c <= '9'
  }

  /** `s.chars().any(|c| c.is_ascii_digit())` */
  predicate HasAsciiDigit(s: string)
  {
    exists i :: 0 <= i < |s| && IsAsciiDigit(s[i])
  }

  /** `str::trim_start`: drops the leading whitespace. */
  function TrimStart(s: string): (r: string)
    ensures |r| <= |s|
    ensures r == [] || !IsWhitespace(r[0])
  {
    if s != [] && IsWhitespace(s[0]) then TrimStart(s[1..]) else s
  }

  /** What `trim_start` drops is the leading whitespace, and nothing else. */
  lemma {:induction false} TrimStartDrops(s: string)
    ensures TrimStart(s) == s[|s| - |TrimStart(s)|..]
    ensures forall k :: 0 <= k < |s| - |TrimStart(s)| ==> IsWhitespace(s[k])
  {
    if s != [] && IsWhitespace(s[0]) {
      TrimStartDrops(s[1..]);
    }
  }

  /** `str::trim_end`: drops the trailing whitespace. */
  function TrimEnd(s: string): (r: string)
    ensures |r| <= |s| && r == s[..|r|]
    ensures r == [] || !IsWhitespace(r[|r| - 1])
  {
    if s != [] && IsWhitespace(s[|s| - 1]) then TrimEnd(s[..|s| - 1]) else s
  }

  /** What `trim_end` drops is the trailing whitespace, and nothing else. */
  lemma {:induction false} TrimEndDrops(s: string)
    ensures forall k :: |TrimEnd(s)| <= k < |s| ==> IsWhitespace(s[k])
  {
    if s != [] && IsWhitespace(s[|s| - 1]) {
      TrimEndDrops(s[..|s| - 1]);
    }
  }

  /** `str::trim`: a slice of `s` that neither starts nor ends with whitespace. */
  function Trim(s: string): (r: string)
    ensures r == [] || (!IsWhitespace(r[0]) && !IsWhitespace(r[|r| - 1]))
  {
    TrimEnd(TrimStart(s))
  }

  /** The trimmed string is a slice of the original. */
  lemma TrimContained(s: string)
    ensures Contains(s, Trim(s))
  {
    var t := TrimStart(s);
    TrimStartDrops(s);
    assert OccursAt(s, Trim(s), |s| - |t|);
  }

  /** Trimming a string whose ends are not whitespace leaves it as it is. */
  lemma TrimOfTrimmed(s: string)
    requires s == [] || (!IsWhitespace(s[0]) && !IsWhitespace(s[|s| - 1]))
    ensures Trim(s) == s
  {
  }

  predicate StartsWith(s: string, p: string)
  {
    |p| <= |s| && s[..|p|] == p
  }

  predicate EndsWith(s: string, p: string)
  {
    |p| <= |s| && s[|s| - |p|..] == p
  }

  lemma EndsWithAppended(s: string, p: string)
    ensures EndsWith(s + p, p)
  {
    assert (s + p)[|s + p| - |p|..] == p;
  }

  lemma StartsWithAppended(s: string, t: string, p: string)
    requires |p| <= |s|
    ensures StartsWith(s + t, p) <==> StartsWith(s, p)
  {
    assert (s + t)[..|p|] == s[..|p|];
  }

  predicate OccursAt(s: string, p: string, i: nat)
  {
    i + |p| <= |s| && s[i..i + |p|] == p
  }

  /** `str::contains` with a string pattern. */
  predicate Contains(s: string, p: string)
  {
    exists i: nat | i <= |s| :: OccursAt(s, p, i)
  }

  /**
   * `s.split(c).next().unwrap_or("")`: the text before the first `c`, or
   * all of `s` when it has none.
   */
  function Before(s: string, c: char): (r: string)
    ensures |r| <= |s| && r == s[..|r|]
    ensures c !in r
    ensures |r| < |s| ==> s[|r|] == c
  {
    if s == [] || s[0] == c then [] else [s[0]] + Before(s[1..], c)
  }

  /**
   * `s.split(p).next().unwrap_or("")` for a string pattern: the text before
   * the first occurrence of `p`.
   */
  function BeforeSubstring(s: string, p: string): (r: string)
    ensures |r| <= |s| && r == s[..|r|]
    ensures forall i: nat :: i < |r| ==> !OccursAt(s, p, i)
    ensures |r| < |s| ==> OccursAt(s, p, |r|)
    ensures |r| == |s| ==> !OccursAt(s, p, |s|) || p == []
  {
    if s == [] || StartsWith(s, p) then []
    else
      var t := BeforeSubstring(s[1..], p);
      OccursShifted(s, p);
      assert s[..1 + |t|] == [s[0]] + s[1..][..|t|];
      [s[0]] + t
  }

  /** Past the first character, an occurrence in `s` is one in its tail, one place earlier. */
  lemma OccursShifted(s: string, p: string)
    requires s != []
    ensures forall i: nat :: 1 <= i <= |s| ==> (OccursAt(s, p, i) <==> OccursAt(s[1..], p, i - 1))
  {
    forall i: nat | 1 <= i <= |s|
      ensures OccursAt(s, p, i) <==> OccursAt(s[1..], p, i - 1)
    {
      if i + |p| <= |s| {
        var j := i - 1;
        assert s[1..][j..j + |p|] == s[j + 1..j + 1 + |p|];
      }
    }
  }

  /** `str::split(c)`: the segments between the separators, in order; never empty. */
  function Split(s: string, c: char): (r: seq<string>)
    ensures |r| >= 1
    ensures forall k :: 0 <= k < |r| ==> c !in r[k]
    decreases |s|
  {
    var head := Before(s, c);
    if |head| == |s| then [s] else [head] + Split(s[|head| + 1..], c)
  }

  /** Joining segments back with the separator. */
  function Join(parts: seq<string>, c: char): string
  {
    if |parts| <= 1 then (if parts == [] then [] else parts[0])
    else parts[0] + [c] + Join(parts[1..], c)
  }

  /** Splitting and re-joining gives the original string back. */
  lemma {:induction false} SplitJoin(s: string, c: char)
    ensures Join(Split(s, c), c) == s
    decreases |s|
  {
    var head := Before(s, c);
    if |head| < |s| {
      var rest := s[|head| + 1..];
      SplitJoin(rest, c);
      var parts := Split(s, c);
      assert parts == [head] + Split(rest, c);
      assert parts[0] == head && parts[1..] == Split(rest, c);
      assert Join(parts, c) == head + [c] + Join(Split(rest, c), c);
      assert s == s[..|head|] + [s[|head|]] + rest;
    }
  }

  /**
   * `str::replace(from, to)`: every non-overlapping occurrence of `from`,
   * scanned left to right, is replaced by `to`. An empty `from` matches
   * before every character and at the end.
   */
  function ReplaceAll(s: string, from: string, to: string): string
    decreases |s|
  {
    if from == [] then to + (if s == [] then [] else [s[0]] + ReplaceAll(s[1..], from, to))
    else if StartsWith(s, from) then to + ReplaceAll(s[|from|..], from, to)
    else if s == [] then []
    else [s[0]] + ReplaceAll(s[1..], from, to)
  }

  /** A prefix that cannot start an occurrence of `from` is copied through unchanged. */
  lemma {:induction false} ReplaceSkipsPrefix(p: string, t: string, from: string, to: string)
    requires from != [] && from[0] !in p
    ensures ReplaceAll(p + t, from, to) == p + ReplaceAll(t, from, to)
  {
    if p != [] {
      var s := p + t;
      assert s[0] == p[0];
      assert s[1..] == p[1..] + t;
      ReplaceSkipsPrefix(p[1..], t, from, to);
      assert ReplaceAll(s, from, to) == [s[0]] + ReplaceAll(s[1..], from, to);
      assert p == [p[0]] + p[1..];
    } else {
      assert p + t == t;
    }
  }

  /** A prefix occurs in the string it is cut from. */
  lemma PrefixContained(s: string, n: nat)
    requires n <= |s|
    ensures Contains(s, s[..n])
  {
    assert OccursAt(s, s[..n], 0);
  }

  /** Containment is transitive. */
  lemma ContainsTransitive(a: string, b: string, c: string)
    requires Contains(a, b) && Contains(b, c)
    ensures Contains(a, c)
  {
    var i: nat :| i <= |a| && OccursAt(a, b, i);
    var j: nat :| j <= |b| && OccursAt(b, c, j);
    forall k | 0 <= k < |c| ensures a[i + j + k] == c[k] {
      assert b[j + k] == c[k];
      assert a[i + (j + k)] == b[j + k];
    }
    assert OccursAt(a, c, i + j);
  }

  /** A character absent from a string is absent from everything it contains. */
  lemma ContainsExcludes(s: string, p: string, c: char)
    requires Contains(s, p) && c !in s
    ensures c !in p
  {
    var i: nat :| i <= |s| && OccursAt(s, p, i);
    forall k | 0 <= k < |p| ensures p[k] != c {
      assert s[i + k] == p[k];
    }
  }

  /** Everything of `s` before `i` and from `j` on is drawn from `cs`. */
  predicate OutsideIn(s: string, cs: set<char>, i: int, j: int)
  {
    0 <= i <= j <= |s| && (forall k :: 0 <= k < i ==> s[k] in cs) && (forall k :: j <= k < |s| ==> s[k] in cs)
  }

  /** The length of the run of characters from `cs` that `s` starts with. */
  function LeadingIn(s: string, cs: set<char>): (n: nat)
    ensures n <= |s|
    ensures forall k :: 0 <= k < n ==> s[k] in cs
    ensures n < |s| ==> s[n] !in cs
  {
    if s == [] || s[0] !in cs then 0 else 1 + LeadingIn(s[1..], cs)
  }

  /** The length of the run of characters from `cs` that `s` ends with. */
  function TrailingIn(s: string, cs: set<char>): (n: nat)
    ensures n <= |s|
    ensures forall k :: |s| - n <= k < |s| ==> s[k] in cs
    ensures n < |s| ==> s[|s| - 1 - n] !in cs
  {
    if s == [] || s[|s| - 1] !in cs then 0 else 1 + TrailingIn(s[..|s| - 1], cs)
  }

  /**
   * `str::trim_matches` with a set of characters: the run at the start is
   * skipped, then the run at the end of what is left.
   */
  function TrimMatches(s: string, cs: set<char>): (r: string)
    ensures Contains(s, r)
    ensures r == [] || (r[0] !in cs && r[|r| - 1] !in cs)
    ensures forall k :: 0 <= k < |s| && s[k] !in cs ==> r != []
    ensures exists i, j :: OutsideIn(s, cs, i, j) && r == s[i..j]
  {
    var i := LeadingIn(s, cs);
    var j := |s| - TrailingIn(s[i..], cs);
    TrimBounds(s, cs);
    assert OccursAt(s, s[i..j], i);
    s[i..j]
  }

  /** The two runs leave only `cs` outside the kept slice, whose ends are outside `cs` when it is not empty. */
  lemma TrimBounds(s: string, cs: set<char>)
    ensures var i := LeadingIn(s, cs); var j := |s| - TrailingIn(s[i..], cs);
      && OutsideIn(s, cs, i, j)
      && (i < j ==> s[i] !in cs && s[j - 1] !in cs)
      && (i == j ==> forall k :: 0 <= k < |s| ==> s[k] in cs)
  {
    var i := LeadingIn(s, cs);
    TrailingOfSuffix(s, i, cs);
  }

  /** The trailing run of a suffix, read in the whole string. */
  lemma TrailingOfSuffix(s: string, i: nat, cs: set<char>)
    requires i <= |s|
    ensures var n := TrailingIn(s[i..], cs);
      && (forall k :: |s| - n <= k < |s| ==> s[k] in cs)
      && (i < |s| - n ==> s[|s| - n - 1] !in cs)
  {
    var t := s[i..];
    var n := TrailingIn(t, cs);
    forall k | |s| - n <= k < |s|
      ensures s[k] in cs
    {
      assert s[k] == t[k - i];
    }
    if i < |s| - n {
      assert s[|s| - n - 1] == t[|t| - 1 - n];
    }
  }

  /** Trimming leaves strings whose ends are outside the set unchanged. */
  lemma TrimMatchesKeeps(s: string, cs: set<char>)
    requires s == [] || (s[0] !in cs && s[|s| - 1] !in cs)
    ensures TrimMatches(s, cs) == s
  {
  }

  /**
   * The strict order of Rust's `Ord` for `String`: lexicographic by byte,
   * which for UTF-8 is lexicographic by code point; a proper prefix comes first.
   */
  predicate LexLess(a: string, b: string)
    decreases |a|
  {
    |b| > 0 && (|a| == 0 || a[0] < b[0] || (a[0] == b[0] && LexLess(a[1..], b[1..])))
  }

  lemma {:induction false} LexLessIrreflexive(a: string)
    ensures !LexLess(a, a)
    decreases |a|
  {
    if |a| > 0 { LexLessIrreflexive(a[1..]); }
  }

  lemma {:induction false} LexLessAsymmetric(a: string, b: string)
    requires LexLess(a, b)
    ensures !LexLess(b, a)
    decreases |a|
  {
    if |a| > 0 && a[0] == b[0] { LexLessAsymmetric(a[1..], b[1..]); }
  }

  lemma {:induction false} LexLessTransitive(a: string, b: string, c: string)
    requires LexLess(a, b) && LexLess(b, c)
    ensures LexLess(a, c)
    decreases |a|
  {
    if |a| > 0 && a[0] == b[0] && b[0] == c[0] {
      LexLessTransitive(a[1..], b[1..], c[1..]);
    }
  }

  lemma {:induction false} LexLessTotal(a: string, b: string)
    requires a != b
    ensures LexLess(a, b) || LexLess(b, a)
    decreases |a|
  {
    if |a| > 0 && |b| > 0 && a[0] == b[0] {
      assert a == [a[0]] + a[1..] && b == [b[0]] + b[1..];
      LexLessTotal(a[1..], b[1..]);
    }
  }

  /** Rust's `format!("{}", n)` for a non-negative integer. */
  function NatToString(n: nat): (r: string)
    ensures r != [] && forall k :: 0 <= k < |r| ==> IsAsciiDigit(r[k])
  {
    if n < 10 then [DigitChar(n)] else NatToString(n / 10) + [DigitChar(n % 10)]
  }

  function DigitChar(d: nat): (c: char)
    requires d < 10
    ensures IsAsciiDigit(c) && (c as int) - ('0' as int) == d
  {
    ('0' as int + d) as char
  }

  /** The value of a string of decimal digits. */
  function DecimalValue(s: string): nat
    requires forall k :: 0 <= k < |s| ==> IsAsciiDigit(s[k])
  {
    if s == [] then 0
    else
      assert IsAsciiDigit(s[|s| - 1]);
      10 * DecimalValue(s[..|s| - 1]) + ((s[|s| - 1] as int) - ('0' as int))
  }

  /** Formatting a count and reading it back gives the count. */
  lemma {:induction false} NatToStringRoundTrip(n: nat)
    ensures DecimalValue(NatToString(n)) == n
  {
    if n >= 10 {
      NatToStringRoundTrip(n / 10);
      var r := NatToString(n);
      assert r[..|r| - 1] == NatToString(n / 10);
    }
  }

  /**
   * The step applied to the captured `window.__PRELOADED_STATE__` text
   * before parsing: trim it, then drop one trailing `;` if there is one.
   */
  function StripStateTerminator(captured: string): (r: string)
    ensures r == Trim(captured) || r + ";" == Trim(captured)
    ensures EndsWith(Trim(captured), ";") <==> r + ";" == Trim(captured)
  {
    var t := Trim(captured);
    if EndsWith(t, ";") then t[..|t| - 1] else t
  }
}
