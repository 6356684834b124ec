/**
 * Candidate ranking: `deduplicate_and_sort_candidates` of selector.rs.
 *
 * The source folds the candidates into a `HashMap` keyed by text (an entry is
 * replaced only by a strictly higher score), takes the map's values in the
 * map's own unspecified order, and sorts them by descending score, then
 * ascending text. The model keeps the same three steps; the values are taken
 * out of the map in an arbitrary order, and the result is proved not to
 * depend on that order.
 */
module Ranking {
  import opened Strings

  /** `RankedCandidate`: a text, its `u32` score and the reason it was found. */
  datatype Candidate = Candidate(text: string, score: nat, reason: string)

  function Texts(cs: seq<Candidate>): set<string>
  {
    set c | c in cs :: c.text
  }

  lemma TextsAppend(cs: seq<Candidate>, c: Candidate)
    ensures Texts(cs + [c]) == Texts(cs) + {c.text}
  {
    assert forall x :: x in cs + [c] <==> x in cs || x == c;
  }

  predicate DistinctTexts(cs: seq<Candidate>)
  {
    forall i, j :: 0 <= i < j < |cs| ==> cs[i].text != cs[j].text
  }

  lemma AppendDistinct(cs: seq<Candidate>, c: Candidate)
    requires DistinctTexts(cs) && c.text !in Texts(cs)
    ensures DistinctTexts(cs + [c])
  {
    assert forall k :: 0 <= k < |cs| ==> cs[k] in cs;
  }

  /**
   * The index of the entry the source's map holds for `t` after folding in
   * `cs`: the first candidate with text `t` whose score is the largest among
   * those with text `t` (a later one replaces it only with a strictly higher
   * score).
   */
  function BestIndex(cs: seq<Candidate>, t: string): (i: nat)
    requires t in Texts(cs)
    ensures i < |cs| && cs[i].text == t
    ensures forall k :: 0 <= k < |cs| && cs[k].text == t ==> cs[k].score <= cs[i].score
    ensures forall k :: 0 <= k < i && cs[k].text == t ==> cs[k].score < cs[i].score
    decreases |cs|
  {
    var n := |cs| - 1;
    var init := cs[..n];
    assert cs == init + [cs[n]];
    TextsAppend(init, cs[n]);
    if t !in Texts(init) then
      assert forall k :: 0 <= k < n ==> init[k] in init;
      n
    else
      var j := BestIndex(init, t);
      assert forall k :: 0 <= k < n ==> cs[k] == init[k];
      if cs[n].text == t && cs[n].score > cs[j].score then n else j
  }

  function Best(cs: seq<Candidate>, t: string): Candidate
    requires t in Texts(cs)
  {
    cs[BestIndex(cs, t)]
  }

  /** Folding one more candidate into the map. */
  lemma BestStep(cs: seq<Candidate>, c: Candidate, t: string)
    requires t in Texts(cs + [c])
    ensures t !in Texts(cs) ==> Best(cs + [c], t) == c
    ensures t in Texts(cs) && c.text == t && c.score > Best(cs, t).score ==> Best(cs + [c], t) == c
    ensures t in Texts(cs) && !(c.text == t && c.score > Best(cs, t).score) ==> Best(cs + [c], t) == Best(cs, t)
  {
    assert (cs + [c])[..|cs|] == cs;
  }

  /** The sort key of the source: higher score first, then smaller text. */
  predicate RankedBefore(a: Candidate, b: Candidate)
  {
    a.score > b.score || (a.score == b.score && LexLess(a.text, b.text))
  }

  lemma RankedBeforeAsymmetric(a: Candidate, b: Candidate)
    requires RankedBefore(a, b)
    ensures !RankedBefore(b, a)
  {
    if a.score == b.score { LexLessAsymmetric(a.text, b.text); }
  }

  lemma RankedBeforeTransitive(a: Candidate, b: Candidate, c: Candidate)
    requires RankedBefore(a, b) && RankedBefore(b, c)
    ensures RankedBefore(a, c)
  {
    if a.score == b.score == c.score { LexLessTransitive(a.text, b.text, c.text); }
  }

  lemma RankedBeforeTotal(a: Candidate, b: Candidate)
    requires a.text != b.text
    ensures RankedBefore(a, b) || RankedBefore(b, a)
  {
    LexLessTotal(a.text, b.text);
  }

  /** Ordered as `sort_by` leaves it: no element is ranked before an earlier one. */
  predicate Sorted(r: seq<Candidate>)
  {
    forall i, j :: 0 <= i < j < |r| ==> !RankedBefore(r[j], r[i])
  }

  /** Ordered strictly: every element is ranked before every later one. */
  predicate StrictlyRanked(r: seq<Candidate>)
  {
    forall i, j :: 0 <= i < j < |r| ==> RankedBefore(r[i], r[j])
  }

  /** Where `x` goes: after every leading element it is not ranked before. */
  function InsertPos(sorted: seq<Candidate>, x: Candidate): (k: nat)
    ensures k <= |sorted|
    ensures forall j :: 0 <= j < k ==> !RankedBefore(x, sorted[j])
    ensures k < |sorted| ==> RankedBefore(x, sorted[k])
  {
    if sorted == [] || RankedBefore(x, sorted[0]) then 0
    else 1 + InsertPos(sorted[1..], x)
  }

  /** Inserting after every element not ranked after `x` (keeps the sort stable). */
  function Insert(sorted: seq<Candidate>, x: Candidate): seq<Candidate>
  {
    var k := InsertPos(sorted, x);
    sorted[..k] + [x] + sorted[k..]
  }

  lemma InsertSorted(sorted: seq<Candidate>, x: Candidate)
    requires Sorted(sorted)
    ensures Sorted(Insert(sorted, x))
  {
    var k := InsertPos(sorted, x);
    var r := Insert(sorted, x);
    forall j | k <= j < |sorted| ensures !RankedBefore(sorted[j], x) {
      if RankedBefore(sorted[j], x) {
        RankedBeforeTransitive(sorted[j], x, sorted[k]);
        if j == k { RankedBeforeAsymmetric(sorted[k], sorted[k]); }
      }
    }
    assert forall i :: 0 <= i < k ==> r[i] == sorted[i];
    assert r[k] == x;
    assert forall i :: k < i < |r| ==> r[i] == sorted[i - 1];
  }

  lemma InsertMultiset(sorted: seq<Candidate>, x: Candidate)
    ensures multiset(Insert(sorted, x)) == multiset(sorted) + multiset{x}
  {
    var k := InsertPos(sorted, x);
    assert sorted == sorted[..k] + sorted[k..];
  }

  lemma InsertTexts(sorted: seq<Candidate>, x: Candidate)
    ensures Texts(Insert(sorted, x)) == Texts(sorted) + {x.text}
  {
    var k := InsertPos(sorted, x);
    var r := Insert(sorted, x);
    assert sorted == sorted[..k] + sorted[k..];
    assert forall c :: c in r <==> c in sorted || c == x;
  }

  lemma InsertDistinct(sorted: seq<Candidate>, x: Candidate)
    requires DistinctTexts(sorted) && x.text !in Texts(sorted)
    ensures DistinctTexts(Insert(sorted, x))
  {
    var k := InsertPos(sorted, x);
    var r := Insert(sorted, x);
    forall i, j | 0 <= i < j < |r| ensures r[i].text != r[j].text {
      var a := if i < k then i else i - 1;
      var b := if j <= k then j else j - 1;
      if i == k {
        assert r[i] == x && r[j] == sorted[b];
        assert sorted[b] in sorted;
      } else if j == k {
        assert r[j] == x && r[i] == sorted[a];
        assert sorted[a] in sorted;
      } else {
        assert r[i] == sorted[a] && r[j] == sorted[b] && a < b;
      }
    }
  }

  /** The model of `sort_by` with the source's comparator (a stable insertion sort). */
  function SortRanked(s: seq<Candidate>): (r: seq<Candidate>)
    ensures Sorted(r)
    ensures multiset(r) == multiset(s)
    ensures Texts(r) == Texts(s)
    ensures DistinctTexts(s) ==> DistinctTexts(r)
  {
    if s == [] then []
    else
      var init := s[..|s| - 1];
      var last := s[|s| - 1];
      assert s == init + [last];
      TextsAppend(init, last);
      var sortedInit := SortRanked(init);
      InsertSorted(sortedInit, last);
      InsertMultiset(sortedInit, last);
      InsertTexts(sortedInit, last);
      if DistinctTexts(s) then
        assert forall k :: 0 <= k < |init| ==> init[k].text != last.text;
        InsertDistinct(sortedInit, last);
        Insert(sortedInit, last)
      else
        Insert(sortedInit, last)
  }

  /**
   * What deduplication promises: strictly ranked, exactly the input texts,
   * and each carrying the entry the map keeps for its text.
   */
  ghost predicate IsRanking(cs: seq<Candidate>, r: seq<Candidate>)
  {
    && StrictlyRanked(r)
    && Texts(r) == Texts(cs)
    && (forall k :: 0 <= k < |r| ==> r[k].text in Texts(cs) && r[k] == Best(cs, r[k].text))
  }

  /** Sorting the kept entries, one per text, yields a ranking. */
  lemma SortedBestsRank(cs: seq<Candidate>, vals: seq<Candidate>)
    requires DistinctTexts(vals) && Texts(vals) == Texts(cs)
    requires forall k :: 0 <= k < |vals| ==> vals[k].text in Texts(cs) && vals[k] == Best(cs, vals[k].text)
    ensures IsRanking(cs, SortRanked(vals))
  {
    var r := SortRanked(vals);
    forall k | 0 <= k < |r| ensures r[k].text in Texts(cs) && r[k] == Best(cs, r[k].text) {
      assert r[k] in multiset(vals);
      var j :| 0 <= j < |vals| && vals[j] == r[k];
    }
    forall i, j | 0 <= i < j < |r| ensures RankedBefore(r[i], r[j]) {
      RankedBeforeTotal(r[i], r[j]);
    }
  }

  /** Two strict rankings of the same elements are the same sequence. */
  lemma {:induction false} StrictRankingsAgree(a: seq<Candidate>, b: seq<Candidate>)
    requires StrictlyRanked(a) && StrictlyRanked(b)
    requires forall x :: x in a <==> x in b
    ensures a == b
    decreases |a|
  {
    if a == [] {
      assert forall i :: 0 <= i < |b| ==> b[i] in b;
    } else {
      assert a[0] in a;
      assert b != [];
      assert b[0] in b;
      if a[0] != b[0] {
        var i :| 0 <= i < |a| && a[i] == b[0];
        var j :| 0 <= j < |b| && b[j] == a[0];
        RankedBeforeAsymmetric(a[0], b[0]);
        assert false;
      }
      assert a == [a[0]] + a[1..] && b == [b[0]] + b[1..];
      forall x ensures x in a[1..] <==> x in b[1..] {
        if x in a[1..] {
          var i :| 1 <= i < |a| && a[i] == x;
          RankedBeforeAsymmetric(a[0], x);
          assert x in a && x != b[0];
          assert x in b;
        }
        if x in b[1..] {
          var j :| 1 <= j < |b| && b[j] == x;
          RankedBeforeAsymmetric(b[0], x);
          assert x in b && x != a[0];
          assert x in a;
        }
      }
      StrictRankingsAgree(a[1..], b[1..]);
      assert a == [a[0]] + a[1..] && b == [b[0]] + b[1..];
    }
  }

  /** A ranking is determined by its input: the map's iteration order cannot show through. */
  lemma RankingIsUnique(cs: seq<Candidate>, r1: seq<Candidate>, r2: seq<Candidate>)
    requires IsRanking(cs, r1) && IsRanking(cs, r2)
    ensures r1 == r2
  {
    forall x ensures x in r1 <==> x in r2 {
      if x in r1 {
        var k :| 0 <= k < |r1| && r1[k] == x;
        assert x.text in Texts(r2);
        var c :| c in r2 && c.text == x.text;
        var j :| 0 <= j < |r2| && r2[j] == c;
      }
      if x in r2 {
        var k :| 0 <= k < |r2| && r2[k] == x;
        assert x.text in Texts(r1);
        var c :| c in r1 && c.text == x.text;
        var j :| 0 <= j < |r1| && r1[j] == c;
      }
    }
    StrictRankingsAgree(r1, r2);
  }

  /** The distinct texts of `cs` in order of first appearance. */
  function FirstTexts(cs: seq<Candidate>): (ts: seq<string>)
    ensures forall i, j :: 0 <= i < j < |ts| ==> ts[i] != ts[j]
    ensures forall t :: t in ts <==> t in Texts(cs)
  {
    if cs == [] then []
    else
      var init := cs[..|cs| - 1];
      var last := cs[|cs| - 1];
      assert cs == init + [last];
      TextsAppend(init, last);
      var ts := FirstTexts(init);
      if last.text in ts then ts else ts + [last.text]
  }

  /** The specification of the deduplicated, sorted candidate list. */
  function Ranked(cs: seq<Candidate>): seq<Candidate>
  {
    var ts := FirstTexts(cs);
    SortRanked(seq(|ts|, i requires 0 <= i < |ts| => Best(cs, ts[i])))
  }

  lemma RankedIsRanking(cs: seq<Candidate>)
    ensures IsRanking(cs, Ranked(cs))
  {
    var ts := FirstTexts(cs);
    var vals := seq(|ts|, i requires 0 <= i < |ts| => Best(cs, ts[i]));
    assert forall k :: 0 <= k < |vals| ==> vals[k].text == ts[k];
    forall t ensures t in Texts(vals) <==> t in Texts(cs) {
      if t in Texts(cs) {
        var k :| 0 <= k < |ts| && ts[k] == t;
        assert vals[k] in vals;
      }
    }
    SortedBestsRank(cs, vals);
  }

  /** Sorting the map's entries, in any order, gives the specified ranking. */
  lemma EntriesRank(cs: seq<Candidate>, vals: seq<Candidate>)
    requires DistinctTexts(vals) && Texts(vals) == Texts(cs)
    requires forall k :: 0 <= k < |vals| ==> vals[k].text in Texts(cs) && vals[k] == Best(cs, vals[k].text)
    ensures IsRanking(cs, SortRanked(vals)) && SortRanked(vals) == Ranked(cs)
  {
    SortedBestsRank(cs, vals);
    RankedIsRanking(cs);
    RankingIsUnique(cs, SortRanked(vals), Ranked(cs));
  }

  /** The first half of the source: folding the candidates into a map keyed by text. */
  method KeepBest(candidates: seq<Candidate>) returns (m: map<string, Candidate>)
    ensures m.Keys == Texts(candidates)
    ensures forall t :: t in m ==> m[t].text == t && m[t] == Best(candidates, t)
  {
    m := map[];
    for i := 0 to |candidates|
      invariant m.Keys == Texts(candidates[..i])
      invariant forall t :: t in m ==> m[t].text == t && m[t] == Best(candidates[..i], t)
    {
      var c := candidates[i];
      ghost var seen := candidates[..i];
      ghost var prev := m;
      assert candidates[..i + 1] == seen + [c];
      TextsAppend(seen, c);
      if c.text in m {
        if c.score > m[c.text].score {
          m := m[c.text := c];
        }
      } else {
        m := m[c.text := c];
      }
      assert m.Keys == prev.Keys + {c.text};
      forall t | t in m ensures m[t].text == t && m[t] == Best(seen + [c], t) {
        BestStep(seen, c, t);
        if t != c.text { assert m[t] == prev[t]; }
      }
    }
    assert candidates[..|candidates|] == candidates;
  }

  /** Every entry of `values` is the map's entry for its own text. */
  predicate EntriesOf(m: map<string, Candidate>, values: seq<Candidate>)
  {
    forall k :: 0 <= k < |values| ==> values[k].text in m && values[k] == m[values[k].text]
  }

  lemma EntriesAppend(m: map<string, Candidate>, values: seq<Candidate>, t: string)
    requires EntriesOf(m, values) && t in m && m[t].text == t
    ensures EntriesOf(m, values + [m[t]])
  {
    var vs := values + [m[t]];
    forall k | 0 <= k < |vs| ensures vs[k].text in m && vs[k] == m[vs[k].text] {
      if k < |values| { assert vs[k] == values[k]; } else { assert vs[k] == m[t]; }
    }
  }

  /** `into_values`: the entries of the map, in whatever order the map yields them. */
  method Entries(m: map<string, Candidate>) returns (values: seq<Candidate>)
    requires forall t :: t in m ==> m[t].text == t
    ensures Texts(values) == m.Keys
    ensures DistinctTexts(values)
    ensures forall k :: 0 <= k < |values| ==> values[k].text in m && values[k] == m[values[k].text]
  {
    values := [];
    var rest := m.Keys;
    while rest != {}
      invariant rest <= m.Keys
      invariant Texts(values) == m.Keys - rest
      invariant DistinctTexts(values)
      invariant EntriesOf(m, values)
      decreases |rest|
    {
      var t :| t in rest;
      assert m.Keys - (rest - {t}) == (m.Keys - rest) + {t};
      TextsAppend(values, m[t]);
      AppendDistinct(values, m[t]);
      EntriesAppend(m, values, t);
      values := values + [m[t]];
      rest := rest - {t};
    }
  }

  /**
   * `deduplicate_and_sort_candidates`: one entry per text, the first of the
   * highest-scoring candidates for that text, ordered by descending score and
   * then ascending text.
   */
  method DeduplicateAndSort(candidates: seq<Candidate>) returns (r: seq<Candidate>)
    ensures StrictlyRanked(r)
    ensures DistinctTexts(r)
    ensures Texts(r) == Texts(candidates)
    ensures forall k :: 0 <= k < |r| ==> r[k].text in Texts(candidates) && r[k] == Best(candidates, r[k].text)
    ensures r == Ranked(candidates)
  {
    var m := KeepBest(candidates);
    var values := Entries(m);
    r := SortRanked(values);
    EntriesRank(candidates, values);
  }

  /** `candidates.get(0).map_or(String::new(), |c| c.text.clone())` */
  function TopText(ranked: seq<Candidate>): string
  {
    if ranked == [] then "" else ranked[0].text
  }

  /**
   * The picked text is a text of a highest-scoring candidate, and the smallest
   * such text; with no candidates it is empty.
   */
  lemma TopTextIsBest(cs: seq<Candidate>)
    ensures cs == [] <==> TopText(Ranked(cs)) == [] && Ranked(cs) == []
    ensures cs != [] ==> exists c :: c in cs && c.text == TopText(Ranked(cs))
    ensures forall c :: c in cs && cs != [] ==> c.score <= Ranked(cs)[0].score
    ensures forall c :: c in cs && c.score == Ranked(cs)[0].score ==>
              c.text == TopText(Ranked(cs)) || LexLess(TopText(Ranked(cs)), c.text)
  {
    var r := Ranked(cs);
    RankedIsRanking(cs);
    if cs != [] {
      assert cs[0] in cs;
      assert cs[0].text in Texts(r);
      assert r != [];
      assert r[0] == Best(cs, r[0].text);
    }
    forall c | c in cs ensures c.score <= r[0].score
      && (c.score == r[0].score ==> c.text == r[0].text || LexLess(r[0].text, c.text))
    {
      TopOutranks(cs, r, c);
    }
  }

  /** No candidate outranks the head of a ranking. */
  lemma TopOutranks(cs: seq<Candidate>, r: seq<Candidate>, c: Candidate)
    requires IsRanking(cs, r) && c in cs
    ensures r != [] && c.score <= r[0].score
    ensures c.score == r[0].score ==> c.text == r[0].text || LexLess(r[0].text, c.text)
  {
    assert c.text in Texts(r);
    var d :| d in r && d.text == c.text;
    var k :| 0 <= k < |r| && r[k] == d;
    var bi := BestIndex(cs, c.text);
    var ci :| 0 <= ci < |cs| && cs[ci] == c;
    assert c.score <= d.score;
  }

  /** The picked text belongs to a candidate no other candidate outscores. */
  lemma TopIsHighest(cs: seq<Candidate>)
    ensures cs == [] ==> TopText(Ranked(cs)) == []
    ensures cs != [] ==> exists c :: c in cs && c.text == TopText(Ranked(cs)) && forall c' :: c' in cs ==> c'.score <= c.score
  {
    TopTextIsBest(cs);
    if cs != [] {
      RankedIsRanking(cs);
      var r := Ranked(cs);
      assert cs[0] in cs && cs[0].text in Texts(r);
      var top := r[0];
      assert top in r && top.text in Texts(cs);
      assert top == Best(cs, top.text);
      var bi := BestIndex(cs, top.text);
      assert top == cs[bi] && cs[bi] in cs;
      assert TopText(r) == top.text;
      assert forall c' :: c' in cs ==> c'.score <= top.score;
    }
  }
}
