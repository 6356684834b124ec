/**
 * `print_keys` of the key-listing tool: a pre-order walk over the parsed
 * state value that prints one line per object member, the member's dotted
 * path (`prefix.key`, or just `key` at the top), and extends the prefix with
 * `[i]` when it steps into the `i`-th element of an array. The model returns
 * the lines it would print, in order.
 */
module KeyList {
  import opened Base
  import opened Strings
  import opened Json
  import Locator

  /** The line for member `key` under `prefix`, which is also the prefix its own members are listed under. */
  function MemberPrefix(prefix: string, key: string): (p: string)
    ensures prefix == [] ==> p == key
    ensures prefix != [] ==> StartsWith(p, prefix + ".") && p[|prefix| + 1..] == key
  {
    if prefix == [] then key else prefix + "." + key
  }

  /** The prefix the `i`-th element of an array under `prefix` is listed under. */
  function ItemPrefix(prefix: string, i: nat): (p: string)
    ensures StartsWith(p, prefix) && |p| > |prefix| + 2
    ensures p[|prefix|] == OpenBracket && p[|p| - 1] == CloseBracket
    ensures p[|prefix| + 1..|p| - 1] == NatToString(i)
  {
    prefix + "[" + NatToString(i) + "]"
  }

  /** The number of object members anywhere in a value: an independent count of what the listing visits. */
  function MemberCount(v: Json): nat
    decreases v, 1
  {
    match v
    case JObj(ms) => |ms| + MemberSum(v, |ms|)
    case JArr(xs) => ItemSum(v, |xs|)
    case _ => 0
  }

  /** The members counted inside the values of the first `n` members of an object. */
  function MemberSum(v: Json, n: nat): nat
    requires v.JObj? && n <= |v.members|
    decreases v, 0, n
  {
    if n == 0 then 0 else MemberSum(v, n - 1) + MemberCount(v.members[n - 1].1)
  }

  /** The members counted inside the first `n` elements of an array. */
  function ItemSum(v: Json, n: nat): nat
    requires v.JArr? && n <= |v.items|
    decreases v, 0, n
  {
    if n == 0 then 0 else ItemSum(v, n - 1) + MemberCount(v.items[n - 1])
  }

  /**
   * The lines `print_keys(v, prefix)` prints: one per object member, then its
   * own members' lines; nothing for a scalar. Every line extends the prefix.
   */
  function Lines(v: Json, prefix: string): (r: seq<string>)
    ensures forall k :: 0 <= k < |r| ==> StartsWith(r[k], prefix)
    decreases v, 1
  {
    match v
    case JObj(ms) => MemberLines(v, prefix, |ms|)
    case JArr(xs) => ItemLines(v, prefix, |xs|)
    case _ => []
  }

  /** The lines printed for the first `n` members of an object. */
  function MemberLines(v: Json, prefix: string, n: nat): (r: seq<string>)
    requires v.JObj? && n <= |v.members|
    ensures forall k :: 0 <= k < |r| ==> StartsWith(r[k], prefix)
    decreases v, 0, n
  {
    if n == 0 then []
    else
      var p := MemberPrefix(prefix, v.members[n - 1].0);
      var sub := Lines(v.members[n - 1].1, p);
      assert forall k :: 0 <= k < |sub| ==> StartsWith(sub[k], prefix) by {
        forall k | 0 <= k < |sub| ensures StartsWith(sub[k], prefix) {
          assert sub[k][..|p|] == p;
          assert p[..|prefix|] == prefix;
        }
      }
      MemberLines(v, prefix, n - 1) + [p] + sub
  }

  /** The lines printed for the first `n` elements of an array, each under its indexed prefix. */
  function ItemLines(v: Json, prefix: string, n: nat): (r: seq<string>)
    requires v.JArr? && n <= |v.items|
    ensures forall k :: 0 <= k < |r| ==> StartsWith(r[k], prefix)
    decreases v, 0, n
  {
    if n == 0 then []
    else
      var p := ItemPrefix(prefix, n - 1);
      var sub := Lines(v.items[n - 1], p);
      assert forall k :: 0 <= k < |sub| ==> StartsWith(sub[k], prefix) by {
        forall k | 0 <= k < |sub| ensures StartsWith(sub[k], prefix) {
          assert sub[k][..|p|] == p;
          assert p[..|prefix|] == prefix;
        }
      }
      ItemLines(v, prefix, n - 1) + sub
  }

  /** Exactly one line per object member in the whole tree. */
  lemma {:induction false} LineCount(v: Json, prefix: string)
    ensures |Lines(v, prefix)| == MemberCount(v)
    decreases v, 1
  {
    match v
    case JObj(ms) => MemberLineCount(v, prefix, |ms|);
    case JArr(xs) => ItemLineCount(v, prefix, |xs|);
    case _ =>
  }

  lemma {:induction false} MemberLineCount(v: Json, prefix: string, n: nat)
    requires v.JObj? && n <= |v.members|
    ensures |MemberLines(v, prefix, n)| == n + MemberSum(v, n)
    decreases v, 0, n
  {
    if n > 0 {
      var p := MemberPrefix(prefix, v.members[n - 1].0);
      MemberLineCount(v, prefix, n - 1);
      LineCount(v.members[n - 1].1, p);
    }
  }

  lemma {:induction false} ItemLineCount(v: Json, prefix: string, n: nat)
    requires v.JArr? && n <= |v.items|
    ensures |ItemLines(v, prefix, n)| == ItemSum(v, n)
    decreases v, 0, n
  {
    if n > 0 {
      ItemLineCount(v, prefix, n - 1);
      LineCount(v.items[n - 1], ItemPrefix(prefix, n - 1));
    }
  }

  /** Every one of `lines` extends `p`. */
  predicate AllExtend(lines: seq<string>, p: string)
  {
    forall k :: 0 <= k < |lines| ==> StartsWith(lines[k], p)
  }

  /**
   * A member's line comes right before its descendants' lines: in the listing
   * of an object, the `i`-th member's line follows the lines of the members
   * before it (one per member counted inside them) and is followed at once by
   * the lines of its value, each of which extends the member's line.
   */
  lemma {:induction false} MemberLineFirst(v: Json, prefix: string, i: nat)
    requires v.JObj? && i < |v.members|
    ensures var p := MemberPrefix(prefix, v.members[i].0);
      var b := |MemberLines(v, prefix, i)|;
      var sub := Lines(v.members[i].1, p);
      && b == i + MemberSum(v, i)
      && b + 1 + |sub| <= |Lines(v, prefix)|
      && Lines(v, prefix)[b] == p
      && Lines(v, prefix)[b + 1..b + 1 + |sub|] == sub
      && AllExtend(sub, p)
  {
    var p := MemberPrefix(prefix, v.members[i].0);
    var before := MemberLines(v, prefix, i);
    var sub := Lines(v.members[i].1, p);
    assert AllExtend(sub, p);
    MemberLineCount(v, prefix, i);
    ListingThrough(v, prefix, i);
    LinesAfter(Lines(v, prefix), before + [p] + sub, before, p, sub);
  }

  /** An object's listing begins with the lines of the members before the `i`-th, its line, and its value's lines. */
  lemma {:induction false} ListingThrough(v: Json, prefix: string, i: nat)
    requires v.JObj? && i < |v.members|
    ensures var p := MemberPrefix(prefix, v.members[i].0);
      var upTo := MemberLines(v, prefix, i) + [p] + Lines(v.members[i].1, p);
      && |upTo| <= |Lines(v, prefix)|
      && Lines(v, prefix)[..|upTo|] == upTo
  {
    var all := MemberLines(v, prefix, |v.members|);
    var upTo := MemberLines(v, prefix, i + 1);
    assert Lines(v, prefix) == all;
    MemberLinesGrow(v, prefix, i + 1, |v.members|);
    assert all[..|upTo|] == upTo;
    MemberLinesStep(v, prefix, i);
  }

  /** One more member adds its line and then the lines of its value. */
  lemma MemberLinesStep(v: Json, prefix: string, n: nat)
    requires v.JObj? && n < |v.members|
    ensures var p := MemberPrefix(prefix, v.members[n].0);
      MemberLines(v, prefix, n + 1) == MemberLines(v, prefix, n) + [p] + Lines(v.members[n].1, p)
  {
  }

  /** A listing that begins with `before`, a line and `sub` holds that line right after `before`, then `sub`. */
  lemma {:induction false} LinesAfter(all: seq<string>, upTo: seq<string>, before: seq<string>, p: string, sub: seq<string>)
    requires |upTo| <= |all| && all[..|upTo|] == upTo && upTo == before + [p] + sub
    ensures |before| + 1 + |sub| <= |all|
    ensures all[|before|] == p && all[|before| + 1..|before| + 1 + |sub|] == sub
  {
    assert all[|before|] == upTo[|before|];
    assert all[|before| + 1..|before| + 1 + |sub|] == upTo[|before| + 1..];
  }

  /** The lines of the first `n` members begin the lines of the first `m`, for `n <= m`. */
  lemma {:induction false} MemberLinesGrow(v: Json, prefix: string, n: nat, m: nat)
    requires v.JObj? && n <= m <= |v.members|
    ensures |MemberLines(v, prefix, n)| <= |MemberLines(v, prefix, m)|
    ensures MemberLines(v, prefix, m)[..|MemberLines(v, prefix, n)|] == MemberLines(v, prefix, n)
    decreases m - n
  {
    if n < m {
      MemberLinesGrow(v, prefix, n, m - 1);
      var shorter := MemberLines(v, prefix, m - 1);
      assert MemberLines(v, prefix, m)[..|shorter|] == shorter;
    }
  }

  /** The listing of an object with the one member `key`: that member's line, then the lines of its value. */
  lemma OneMemberListing(prefix: string, key: string, x: Json)
    ensures Lines(JObj([(key, x)]), prefix) == [MemberPrefix(prefix, key)] + Lines(x, MemberPrefix(prefix, key))
  {
    var v := JObj([(key, x)]);
    var p := MemberPrefix(prefix, key);
    assert MemberLines(v, prefix, 0) == [];
    assert MemberLines(v, prefix, 1) == [] + [p] + Lines(x, p);
  }

  /** The nested object of the example below: one line for its one member. */
  lemma NestedObjectListing(x: Json)
    requires !x.JObj? && !x.JArr?
    ensures Lines(JObj([("b", x)]), "a") == ["a.b"]
  {
    OneMemberListing("a", "b", x);
    assert MemberPrefix("a", "b") == "a.b";
  }

  /** The array of the example below: its one object listed under `c[0]`. */
  lemma ArrayListing(x: Json)
    requires !x.JObj? && !x.JArr?
    ensures Lines(JArr([JObj([("d", x)])]), "c") == ["c[0].d"]
  {
    var item := JObj([("d", x)]);
    assert ItemPrefix("c", 0) == "c[0]" by {
      assert NatToString(0) == "0";
    }
    OneMemberListing("c[0]", "d", x);
    assert MemberPrefix("c[0]", "d") == "c[0].d";
    assert ItemLines(JArr([item]), "c", 1) == ItemLines(JArr([item]), "c", 0) + Lines(item, "c[0]");
  }

  /** A nested object and an array of objects, listed in pre-order with indexed array steps. */
  lemma ListingExample()
    ensures var v := JObj([("a", JObj([("b", JNum(I64, "1"))])), ("c", JArr([JObj([("d", JBool(true))])]))]);
      Lines(v, "") == ["a", "a.b", "c", "c[0].d"]
  {
    var inner := JObj([("b", JNum(I64, "1"))]);
    var arr := JArr([JObj([("d", JBool(true))])]);
    var v := JObj([("a", inner), ("c", arr)]);
    NestedObjectListing(JNum(I64, "1"));
    ArrayListing(JBool(true));
    assert MemberPrefix("", "a") == "a" && MemberPrefix("", "c") == "c";
    assert MemberLines(v, "", 1) == [] + ["a"] + ["a.b"];
    assert MemberLines(v, "", 2) == MemberLines(v, "", 1) + ["c"] + ["c[0].d"];
  }

  // ---------------------------------------------------------------------
  // The tool's `main`, after the download
  // ---------------------------------------------------------------------

  /** What the key-listing tool ends with: its printed lines, or the parse error `main` returns. */
  function ListKeys(body: string, capture: string -> Locator.Capture, parse: string -> Result<Json>): (r: Result<seq<string>>)
    ensures capture(body).NoMatch? ==> r == Ok(["Could not find window.__PRELOADED_STATE__"])
    ensures capture(body).NoGroup? ==> r == Ok([])
    ensures capture(body).Group? ==>
      var parsed := parse(StripStateTerminator(capture(body).text));
      && (parsed.Err? <==> r.Err?)
      && (parsed.Ok? ==> |r.value| == MemberCount(parsed.value))
  {
    match capture(body)
    case NoMatch => Ok(["Could not find window.__PRELOADED_STATE__"])
    case NoGroup => Ok([])
    case Group(captured) =>
      match parse(StripStateTerminator(captured))
      case Err(e) => Err(e)
      case Ok(data) =>
        LineCount(data, "");
        Ok(Lines(data, ""))
  }
}
