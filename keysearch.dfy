/**
 * `find_object_paths`, the key-set search over a parsed state value the
 * worker's generic fallback and the struct generator both use: a pre-order
 * walk that records the key path of every object holding all the keys it is
 * given. The walk pushes a member's key before descending into it and pops it
 * after; an array's elements are searched under the array's own path.
 */
module KeySearch {
  import opened Json

  /** `keys_to_find.iter().all(|key| map.contains_key(key))`. */
  predicate HasAll(ms: seq<(string, Json)>, keys: seq<string>)
  {
    forall k :: k in keys ==> HasKey(ms, k)
  }

  /** The paths the search appends below a node whose path is `prefix`, in the order it appends them. */
  function Paths(v: Json, keys: seq<string>, prefix: seq<string>): seq<seq<string>>
    decreases v, 1
  {
    match v
    case JObj(ms) => (if HasAll(ms, keys) then [prefix] else []) + MemberPaths(v, keys, prefix, |ms|)
    case JArr(xs) => ItemPaths(v, keys, prefix, |xs|)
    case _ => []
  }

  /** The paths found under the first `n` members of an object, each searched with its key pushed. */
  function MemberPaths(v: Json, keys: seq<string>, prefix: seq<string>, n: nat): seq<seq<string>>
    requires v.JObj? && n <= |v.members|
    decreases v, 0, n
  {
    if n == 0 then []
    else MemberPaths(v, keys, prefix, n - 1) + Paths(v.members[n - 1].1, keys, prefix + [v.members[n - 1].0])
  }

  /** The paths found under the first `n` items of an array, all searched with the array's path. */
  function ItemPaths(v: Json, keys: seq<string>, prefix: seq<string>, n: nat): seq<seq<string>>
    requires v.JArr? && n <= |v.items|
    decreases v, 0, n
  {
    if n == 0 then []
    else ItemPaths(v, keys, prefix, n - 1) + Paths(v.items[n - 1], keys, prefix)
  }

  /** The recursion's state: the path stack and the paths found so far. */
  class PathFinder {
    var currentPath: seq<string>
    var foundPaths: seq<seq<string>>

    constructor ()
      ensures currentPath == [] && foundPaths == []
    {
      currentPath := [];
      foundPaths := [];
    }

    /** One call of `find_object_paths`: the stack comes back as it was, the found paths are extended. */
    method Search(v: Json, keys: seq<string>)
      modifies this
      ensures currentPath == old(currentPath)
      ensures foundPaths == old(foundPaths) + Paths(v, keys, old(currentPath))
      decreases v
    {
      match v {
        case JObj(ms) =>
          if HasAll(ms, keys) {
            foundPaths := foundPaths + [currentPath];
          }
          ghost var start := foundPaths;
          for i := 0 to |ms|
            invariant currentPath == old(currentPath)
            invariant foundPaths == start + MemberPaths(v, keys, old(currentPath), i)
          {
            currentPath := currentPath + [ms[i].0];
            Search(ms[i].1, keys);
            currentPath := currentPath[..|currentPath| - 1];
          }
        case JArr(xs) =>
          ghost var start := foundPaths;
          for i := 0 to |xs|
            invariant currentPath == old(currentPath)
            invariant foundPaths == start + ItemPaths(v, keys, old(currentPath), i)
          {
            Search(xs[i], keys);
          }
        case _ =>
      }
    }
  }

  /** The search from the root with an empty stack. */
  method FindObjectPaths(v: Json, keys: seq<string>) returns (found: seq<seq<string>>)
    ensures found == Paths(v, keys, [])
  {
    var finder := new PathFinder();
    finder.Search(v, keys);
    found := finder.foundPaths;
  }

  /** A value with no array anywhere in it. */
  predicate ArrayFree(v: Json)
  {
    match v
    case JArr(_) => false
    case JObj(ms) => forall i :: 0 <= i < |ms| ==> ArrayFree(ms[i].1)
    case _ => true
  }

  lemma {:induction false} MemberPathsFrom(v: Json, keys: seq<string>, prefix: seq<string>, n: nat, q: seq<string>)
    requires v.JObj? && n <= |v.members|
    requires q in MemberPaths(v, keys, prefix, n)
    ensures exists i :: 0 <= i < n && q in Paths(v.members[i].1, keys, prefix + [v.members[i].0])
  {
    if q !in Paths(v.members[n - 1].1, keys, prefix + [v.members[n - 1].0]) {
      MemberPathsFrom(v, keys, prefix, n - 1, q);
    }
  }

  /**
   * In a parsed value without arrays, every path found below `prefix` extends
   * it, and indexing the value along the rest of the path, one key at a time,
   * reaches an object holding all the keys.
   */
  lemma {:induction false} FoundPathsReachMatches(v: Json, keys: seq<string>, prefix: seq<string>, q: seq<string>)
    requires Parsed(v) && ArrayFree(v)
    requires q in Paths(v, keys, prefix)
    ensures |prefix| <= |q| && q[..|prefix|] == prefix
    ensures IndexPath(v, q[|prefix|..]).JObj? && HasAll(IndexPath(v, q[|prefix|..]).members, keys)
    decreases v
  {
    var ms := v.members;
    if q != prefix || !HasAll(ms, keys) {
      assert q in MemberPaths(v, keys, prefix, |ms|);
      MemberPathsFrom(v, keys, prefix, |ms|, q);
      var i :| 0 <= i < |ms| && q in Paths(ms[i].1, keys, prefix + [ms[i].0]);
      var p' := prefix + [ms[i].0];
      FoundPathsReachMatches(ms[i].1, keys, p', q);
      assert q[..|prefix|] == q[..|p'|][..|prefix|];
      assert q[|prefix|] == ms[i].0;
      var rest := q[|prefix|..];
      assert rest[0] == ms[i].0 && rest[1..] == q[|p'|..];
      AscendingKeysAreUnique(ms);
      LookupUnique(ms, i);
      assert Index(v, ms[i].0) == ms[i].1;
    } else {
      assert q[|prefix|..] == [];
    }
  }

  /**
   * Every path the search records below a node extends that node's path: the
   * stack is only ever pushed onto below it, and array steps push nothing.
   */
  lemma {:induction false} PathsExtendPrefix(v: Json, keys: seq<string>, prefix: seq<string>, q: seq<string>)
    requires q in Paths(v, keys, prefix)
    ensures |prefix| <= |q| && q[..|prefix|] == prefix
    decreases v, 1
  {
    match v
    case JObj(ms) =>
      if q != prefix {
        MemberPathsExtend(v, keys, prefix, |ms|, q);
      }
    case JArr(xs) => ItemPathsExtend(v, keys, prefix, |xs|, q);
    case _ =>
  }

  lemma {:induction false} MemberPathsExtend(v: Json, keys: seq<string>, prefix: seq<string>, n: nat, q: seq<string>)
    requires v.JObj? && n <= |v.members|
    requires q in MemberPaths(v, keys, prefix, n)
    ensures |prefix| <= |q| && q[..|prefix|] == prefix
    decreases v, 0, n
  {
    if q in MemberPaths(v, keys, prefix, n - 1) {
      MemberPathsExtend(v, keys, prefix, n - 1, q);
    } else {
      var p' := prefix + [v.members[n - 1].0];
      PathsExtendPrefix(v.members[n - 1].1, keys, p', q);
      assert q[..|prefix|] == q[..|p'|][..|prefix|];
    }
  }

  lemma {:induction false} ItemPathsExtend(v: Json, keys: seq<string>, prefix: seq<string>, n: nat, q: seq<string>)
    requires v.JArr? && n <= |v.items|
    requires q in ItemPaths(v, keys, prefix, n)
    ensures |prefix| <= |q| && q[..|prefix|] == prefix
    decreases v, 0, n
  {
    if q in ItemPaths(v, keys, prefix, n - 1) {
      ItemPathsExtend(v, keys, prefix, n - 1, q);
    } else {
      PathsExtendPrefix(v.items[n - 1], keys, prefix, q);
    }
  }

  /**
   * An object inside an array is recorded under the array's path, so
   * indexing along that path stops at the array, not at the object.
   */
  lemma ArrayElementsShareThePath()
    ensures var item := JObj([("code", JStr("7203")), ("name", JStr("Toyota"))]);
      var v := JObj([("items", JArr([item]))]);
      && Paths(v, ["code", "name"], []) == [["items"]]
      && IndexPath(v, ["items"]).JArr?
  {
    var item := JObj([("code", JStr("7203")), ("name", JStr("Toyota"))]);
    var v := JObj([("items", JArr([item]))]);
    var keys := ["code", "name"];
    assert !HasKey(v.members, "code");
    assert HasAll(item.members, keys) by {
      assert item.members[0].0 == "code" && item.members[1].0 == "name";
      assert forall k :: k in keys ==> k == "code" || k == "name";
    }
    assert MemberPaths(item, keys, ["items"], 2) == [];
    assert Paths(item, keys, ["items"]) == [["items"]];
    assert ItemPaths(JArr([item]), keys, ["items"], 1) == [["items"]];
    assert Paths(JArr([item]), keys, [] + ["items"]) == [["items"]] by {
      assert [] + ["items"] == ["items"];
    }
    assert MemberPaths(v, keys, [], 1) == [["items"]];
  }
}
