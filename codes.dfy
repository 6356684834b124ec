/**
 * The small code rules shared by the worker and the command-line tool: which
 * codes get the `.T` market suffix in the quote URL, how a suffix is stripped
 * again for comparison, and how a comma-separated code list is cut up.
 */
module Codes {
  import opened Strings

  /**
   * Codes used in the URL as they are: indices (`^`), currency pairs (any
   * `=`) and codes that already carry the `.T` or `.O` market.
   */
  predicate HasMarket(code: string)
  {
    StartsWith(code, "^") || '=' in code || EndsWith(code, ".T") || EndsWith(code, ".O")
  }

  /** The code as it appears in the quote URL: a bare code gets `.T`. */
  function Suffixed(code: string): (s: string)
    ensures HasMarket(s)
    ensures s == code || s == code + ".T"
    ensures HasMarket(code) <==> s == code
  {
    if HasMarket(code) then code
    else
      var s := code + ".T";
      assert s[|s| - 2..] == ".T";
      s
  }

  /** `fetch_single_code`'s and the command-line tool's URL choice. */
  function QuoteUrl(code: string): string
  {
    "https://finance.yahoo.co.jp/quote/" + Suffixed(code) + "/"
  }

  /** Suffixing is idempotent, so a code and its suffixed form share one URL. */
  lemma SuffixedIdempotent(code: string)
    ensures Suffixed(Suffixed(code)) == Suffixed(code)
    ensures QuoteUrl(Suffixed(code)) == QuoteUrl(code)
  {
  }

  /**
   * `code.split('.').next().unwrap_or(code)`: the comparison key when a
   * source strips the market suffix.
   */
  function StripSuffix(code: string): (k: string)
    ensures |k| <= |code| && '.' !in k && k == code[..|k|]
    ensures |k| < |code| ==> code[|k|] == '.'
  {
    Before(code, '.')
  }

  /** Stripping the suffix of a suffixed bare code (one with no `.`) gives the bare code back. */
  lemma StripSuffixOfSuffixed(code: string)
    requires '.' !in code
    ensures StripSuffix(Suffixed(code)) == code
  {
    var s := Suffixed(code);
    assert forall i :: 0 <= i < |code| ==> s[i] == code[i] && code[i] in code;
    if s != code {
      assert s[|code|] == '.';
    }
  }

  /**
   * Each segment trimmed, the empty ones dropped: the `/quote` endpoint's
   * code list and the codes the command-line tool processes.
   */
  function TrimmedCodes(parts: seq<string>): (codes: seq<string>)
    ensures |codes| <= |parts|
    ensures forall k :: 0 <= k < |codes| ==> codes[k] != [] && Trim(codes[k]) == codes[k]
  {
    if parts == [] then []
    else
      var last := Trim(parts[|parts| - 1]);
      TrimOfTrimmed(last);
      TrimmedCodes(parts[..|parts| - 1]) + (if last == [] then [] else [last])
  }

  /** Appending a segment appends its trim, when non-empty. */
  lemma TrimmedCodesSnoc(parts: seq<string>, x: string)
    ensures TrimmedCodes(parts + [x]) == TrimmedCodes(parts) + (if Trim(x) == [] then [] else [Trim(x)])
  {
    assert (parts + [x])[..|parts|] == parts;
  }

  /** The list read from the front: the first segment's trim, when non-empty, then the rest. */
  lemma {:induction false} TrimmedCodesCons(x: string, rest: seq<string>)
    ensures TrimmedCodes([x] + rest) == (if Trim(x) == [] then [] else [Trim(x)]) + TrimmedCodes(rest)
    decreases |rest|
  {
    var whole := [x] + rest;
    if rest != [] {
      var init := rest[..|rest| - 1];
      assert whole[..|whole| - 1] == [x] + init;
      assert whole[|whole| - 1] == rest[|rest| - 1];
      TrimmedCodesCons(x, init);
    } else {
      assert whole[..|whole| - 1] == [];
    }
  }

  /** A code is in the list exactly when it is the non-empty trim of some segment. */
  lemma {:induction false} TrimmedCodesMembers(parts: seq<string>, c: string)
    ensures c in TrimmedCodes(parts) <==> c != [] && exists k :: 0 <= k < |parts| && Trim(parts[k]) == c
  {
    if parts != [] {
      var init := parts[..|parts| - 1];
      var last := Trim(parts[|parts| - 1]);
      var tail := if last == [] then [] else [last];
      TrimmedCodesMembers(init, c);
      assert TrimmedCodes(parts) == TrimmedCodes(init) + tail;
      if c in TrimmedCodes(init) {
        var k :| 0 <= k < |init| && Trim(init[k]) == c;
        assert parts[k] == init[k];
      } else if c in tail {
        assert Trim(parts[|parts| - 1]) == c;
      } else {
        forall k | 0 <= k < |parts|
          ensures c == [] || Trim(parts[k]) != c
        {
          if k < |init| {
            assert parts[k] == init[k];
          }
        }
      }
    }
  }

  /** A list whose segments are already non-empty and trimmed is kept whole, so it joins back to the text. */
  lemma {:induction false} CleanListKept(parts: seq<string>)
    requires forall k :: 0 <= k < |parts| ==> parts[k] != [] && Trim(parts[k]) == parts[k]
    ensures TrimmedCodes(parts) == parts
  {
    if parts != [] {
      CleanListKept(parts[..|parts| - 1]);
    }
  }

  /** A code list with clean segments comes back exactly from the text it was cut from. */
  lemma CleanListRoundTrip(v: string)
    requires forall k :: 0 <= k < |Split(v, ',')| ==> Split(v, ',')[k] != [] && Trim(Split(v, ',')[k]) == Split(v, ',')[k]
    ensures Join(TrimmedCodes(Split(v, ',')), ',') == v
  {
    CleanListKept(Split(v, ','));
    SplitJoin(v, ',');
  }

  /** The worker's code list as written: empty segments dropped first, the rest trimmed. */
  function KeptThenTrimmed(parts: seq<string>): (codes: seq<string>)
    ensures |codes| <= |parts|
    ensures forall k :: 0 <= k < |codes| ==> Trim(codes[k]) == codes[k]
  {
    if parts == [] then []
    else
      var last := parts[|parts| - 1];
      TrimOfTrimmed(Trim(last));
      KeptThenTrimmed(parts[..|parts| - 1]) + (if last == [] then [] else [Trim(last)])
  }

  /** Appending a segment appends its trim, unless the segment is empty. */
  lemma KeptThenTrimmedSnoc(parts: seq<string>, x: string)
    ensures KeptThenTrimmed(parts + [x]) == KeptThenTrimmed(parts) + (if x == [] then [] else [Trim(x)])
  {
    assert (parts + [x])[..|parts|] == parts;
  }

  /** The list read from the front: the first segment's trim unless it is empty, then the rest. */
  lemma {:induction false} KeptThenTrimmedCons(x: string, rest: seq<string>)
    ensures KeptThenTrimmed([x] + rest) == (if x == [] then [] else [Trim(x)]) + KeptThenTrimmed(rest)
    decreases |rest|
  {
    if rest != [] {
      var init := rest[..|rest| - 1];
      var y := rest[|rest| - 1];
      var tail := if y == [] then [] else [Trim(y)];
      assert KeptThenTrimmed([x] + rest) == KeptThenTrimmed([x] + init) + tail by {
        assert [x] + rest == ([x] + init) + [y];
        KeptThenTrimmedSnoc([x] + init, y);
      }
      assert KeptThenTrimmed(rest) == KeptThenTrimmed(init) + tail by {
        assert rest == init + [y];
        KeptThenTrimmedSnoc(init, y);
      }
      KeptThenTrimmedCons(x, init);
    } else {
      assert [x] == [] + [x];
      KeptThenTrimmedSnoc([], x);
    }
  }

  /** One code is in the written list exactly when it is the trim of some non-empty segment. */
  lemma {:induction false} KeptThenTrimmedMember(parts: seq<string>, c: string)
    ensures c in KeptThenTrimmed(parts) <==> exists k :: 0 <= k < |parts| && parts[k] != [] && c == Trim(parts[k])
  {
    if parts != [] {
      var init := parts[..|parts| - 1];
      var last := parts[|parts| - 1];
      var tail := if last == [] then [] else [Trim(last)];
      KeptThenTrimmedMember(init, c);
      assert KeptThenTrimmed(parts) == KeptThenTrimmed(init) + tail;
      if c in KeptThenTrimmed(init) {
        var k :| 0 <= k < |init| && init[k] != [] && c == Trim(init[k]);
        assert parts[k] == init[k];
      } else if c in tail {
        assert parts[|parts| - 1] == last;
      } else {
        forall k | 0 <= k < |parts| && parts[k] != []
          ensures c != Trim(parts[k])
        {
          if k < |init| {
            assert parts[k] == init[k];
          }
        }
      }
    }
  }

  /** A code is in the written list exactly when it is the trim of some non-empty segment, blank ones included. */
  lemma KeptThenTrimmedMembers(parts: seq<string>)
    ensures forall c :: c in KeptThenTrimmed(parts) <==> exists k :: 0 <= k < |parts| && parts[k] != [] && c == Trim(parts[k])
  {
    forall c {
      KeptThenTrimmedMember(parts, c);
    }
  }

  /** The written list is empty exactly when every segment is empty: a blank segment still counts. */
  lemma KeptThenTrimmedEmpty(parts: seq<string>)
    ensures KeptThenTrimmed(parts) == [] <==> forall k :: 0 <= k < |parts| ==> parts[k] == []
  {
    KeptThenTrimmedMembers(parts);
    var codes := KeptThenTrimmed(parts);
    forall k | 0 <= k < |parts| && parts[k] != [] ensures Trim(parts[k]) in codes {
    }
    if codes != [] {
      assert codes[0] in codes;
    }
  }

  /** A segment of spaces survives the worker's filter and becomes an empty code. */
  lemma BlankSegmentKept()
    ensures Split(" ", ',') == [" "]
    ensures KeptThenTrimmed(Split(" ", ',')) == [""]
    ensures TrimmedCodes(Split(" ", ',')) == []
  {
    assert Before(" ", ',') == " " by {
      assert Before(" "[1..], ',') == [];
    }
    assert Trim(" ") == "" by {
      assert TrimStart(" ") == TrimStart(" "[1..]);
    }
  }

  /** The two orders agree exactly when no segment is blank without being empty. */
  lemma KeptThenTrimmedAgrees(parts: seq<string>)
    ensures KeptThenTrimmed(parts) == TrimmedCodes(parts) <==>
      forall k :: 0 <= k < |parts| ==> parts[k] == [] || Trim(parts[k]) != []
  {
    if forall k :: 0 <= k < |parts| ==> parts[k] == [] || Trim(parts[k]) != [] {
      NoBlankSegmentAgrees(parts);
    } else {
      var k :| 0 <= k < |parts| && parts[k] != [] && Trim(parts[k]) == [];
      KeptThenTrimmedMember(parts, []);
      assert [] in KeptThenTrimmed(parts);
      assert [] !in TrimmedCodes(parts);
    }
  }

  /** Without a blank non-empty segment, filtering before or after trimming keeps the same codes in the same order. */
  lemma {:induction false} NoBlankSegmentAgrees(parts: seq<string>)
    requires forall k :: 0 <= k < |parts| ==> parts[k] == [] || Trim(parts[k]) != []
    ensures KeptThenTrimmed(parts) == TrimmedCodes(parts)
  {
    if parts != [] {
      var last := parts[|parts| - 1];
      NoBlankSegmentAgrees(parts[..|parts| - 1]);
      if last == [] {
        assert Trim(last) == [];
      }
    }
  }
}
