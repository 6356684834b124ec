/** Option and Result, the two failure-carrying shapes the extractor uses. */
module Base {

  datatype Option<+T> = None | Some(value: T)

  /** A computation that either produced a value or failed with a message. */
  datatype Result<+T> = Ok(value: T) | Err(msg: string)

  /** The first present value of a sequence of attempts: a loop that returns at its first success. */
  function FirstSome<T>(os: seq<Option<T>>): Option<T>
  {
    if os == [] then None
    else if os[0].Some? then os[0]
    else FirstSome(os[1..])
  }

  /** The result is the first success, with every earlier attempt failed; no success gives none. */
  lemma {:induction false} FirstSomeIsFirst<T>(os: seq<Option<T>>)
    ensures FirstSome(os).None? <==> forall i :: 0 <= i < |os| ==> os[i].None?
    ensures FirstSome(os).Some? ==>
      exists i :: 0 <= i < |os| && os[i] == FirstSome(os) && forall j :: 0 <= j < i ==> os[j].None?
  {
    if os != [] {
      var rest := os[1..];
      FirstSomeIsFirst(rest);
      assert forall i :: 0 <= i < |rest| ==> rest[i] == os[i + 1];
      if os[0].None? && FirstSome(rest).Some? {
        var i :| 0 <= i < |rest| && rest[i] == FirstSome(rest) && forall j :: 0 <= j < i ==> rest[j].None?;
        assert os[i + 1] == FirstSome(os);
        assert forall j :: 0 <= j < i + 1 ==> os[j].None? by {
          assert forall j :: 1 <= j < i + 1 ==> os[j] == rest[j - 1];
        }
      }
    }
  }

  /** A success with every earlier attempt failed is the result. */
  lemma {:induction false} FirstSomeAt<T>(os: seq<Option<T>>, k: nat)
    requires k < |os| && os[k].Some?
    requires forall j :: 0 <= j < k ==> os[j].None?
    ensures FirstSome(os) == os[k]
  {
    if k > 0 {
      var rest := os[1..];
      assert forall j :: 0 <= j < k - 1 ==> rest[j] == os[j + 1];
      FirstSomeAt(rest, k - 1);
    }
  }

  /** `query_pairs().find(|(k, _)| k == key)`: the value of the first query pair named `key`. */
  function FirstValue(pairs: seq<(string, string)>, key: string): (v: Option<string>)
    ensures v.Some? <==> exists i :: 0 <= i < |pairs| && pairs[i].0 == key
    ensures v.Some? ==>
      exists i :: (0 <= i < |pairs| && pairs[i] == (key, v.value) && forall j :: 0 <= j < i ==> pairs[j].0 != key)
  {
    if pairs == [] then None
    else if pairs[0].0 == key then Some(pairs[0].1)
    else
      var v := FirstValue(pairs[1..], key);
      assert forall i :: 1 <= i < |pairs| ==> pairs[i] == pairs[1..][i - 1];
      if v.Some? then
        var i :| (0 <= i < |pairs[1..]| && pairs[1..][i] == (key, v.value) && forall j :: 0 <= j < i ==> pairs[1..][j].0 != key);
        assert pairs[i + 1] == (key, v.value);
        v
      else v
  }
}
