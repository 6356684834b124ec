/**
 * The struct generator (rust_extractor/src/main.rs): for every object the
 * key-set search finds, a Rust struct definition is generated from the
 * object's members, recursing into nested objects and into the first element
 * of arrays of objects. Definitions already generated, by struct name, are
 * remembered in a map and not generated again. Struct names are the
 * PascalCase of a key, numbered when the same name repeats.
 */
module StructGen {
  import opened Base
  import opened Strings
  import opened Json
  import opened KeySearch
  import Locator

  // ---------------------------------------------------------------------
  // `to_pascal_case`
  // ---------------------------------------------------------------------

  /**
   * `char::is_alphanumeric`: exact on ASCII; every other character that is
   * not white space counts as alphanumeric (see README, "Left out").
   */
  predicate IsAlphanumeric(c: char)
  {
    ('a' <= c <= 'z') || ('A' <= c <= 'Z') || ('0' <= c <= '9') || (c >= '\U{80}' && !IsWhitespace(c))
  }

  /** Where `to_pascal_case` splits: `_` and every non-alphanumeric character. */
  predicate IsSeparator(c: char)
  {
    c == '_' || !IsAlphanumeric(c)
  }

  /** `char::to_uppercase` on ASCII letters; every other character is kept. */
  function Upper(c: char): (u: char)
    ensures IsAlphanumeric(c) ==> IsAlphanumeric(u)
    ensures !('a' <= u <= 'z')
  {
    if 'a' <= c <= 'z' then (c as int - 32) as char else c
  }

  /** The index of the first separator, or `|s|` when there is none. */
  function SeparatorIndex(s: string): (i: nat)
    ensures i <= |s|
    ensures forall k :: 0 <= k < i ==> !IsSeparator(s[k])
    ensures i < |s| ==> IsSeparator(s[i])
  {
    if s == [] || IsSeparator(s[0]) then 0 else 1 + SeparatorIndex(s[1..])
  }

  /** `str::split` on separators: the runs between them, empty runs included; never empty. */
  function Segments(s: string): (r: seq<string>)
    ensures |r| >= 1
    ensures forall j, k :: 0 <= j < |r| && 0 <= k < |r[j]| ==> !IsSeparator(r[j][k])
    decreases |s|
  {
    var i := SeparatorIndex(s);
    if i == |s| then [s] else [s[..i]] + Segments(s[i + 1..])
  }

  /** `.filter(|s| !s.is_empty())`. */
  function NonEmpty(ss: seq<string>): (r: seq<string>)
    ensures forall j :: 0 <= j < |r| ==> r[j] != [] && r[j] in ss
  {
    if ss == [] then []
    else (if ss[0] == [] then [] else [ss[0]]) + NonEmpty(ss[1..])
  }

  /** The words of a key: the non-empty runs of alphanumeric characters. */
  function Words(s: string): seq<string>
  {
    NonEmpty(Segments(s))
  }

  /** The first character uppercased, the rest unchanged. */
  function Capitalize(w: string): string
  {
    if w == [] then [] else [Upper(w[0])] + w[1..]
  }

  /** The capitalized words, concatenated. */
  function CapitalizedConcat(ws: seq<string>): string
  {
    if ws == [] then [] else Capitalize(ws[0]) + CapitalizedConcat(ws[1..])
  }

  /** `to_pascal_case`. */
  function PascalCase(s: string): string
  {
    CapitalizedConcat(Words(s))
  }

  /** The characters `to_pascal_case` keeps: the alphanumeric ones, in order. */
  function AlphanumericOnly(s: string): string
  {
    if s == [] then [] else (if IsSeparator(s[0]) then [] else [s[0]]) + AlphanumericOnly(s[1..])
  }

  /** `a` is `b` with some characters uppercased. */
  predicate SameUpToCase(a: string, b: string)
  {
    |a| == |b| && forall k :: 0 <= k < |a| ==> a[k] == b[k] || a[k] == Upper(b[k])
  }

  function Concat(ws: seq<string>): string
  {
    if ws == [] then [] else ws[0] + Concat(ws[1..])
  }

  lemma {:induction false} AlphanumericOnlyAppend(a: string, b: string)
    ensures AlphanumericOnly(a + b) == AlphanumericOnly(a) + AlphanumericOnly(b)
  {
    if a != [] {
      assert (a + b)[1..] == a[1..] + b;
      AlphanumericOnlyAppend(a[1..], b);
    } else {
      assert a + b == b;
    }
  }

  lemma {:induction false} AlphanumericOnlyOfWord(w: string)
    requires forall k :: 0 <= k < |w| ==> !IsSeparator(w[k])
    ensures AlphanumericOnly(w) == w
  {
    if w != [] {
      AlphanumericOnlyOfWord(w[1..]);
    }
  }

  /** The segments hold exactly the kept characters. */
  lemma {:induction false} SegmentsKeepAlphanumerics(s: string)
    ensures Concat(Segments(s)) == AlphanumericOnly(s)
    decreases |s|
  {
    var i := SeparatorIndex(s);
    var word := s[..i];
    AlphanumericOnlyOfWord(word);
    if i == |s| {
      assert word == s;
      assert Concat([s]) == s + Concat([]);
    } else {
      var rest := s[i + 1..];
      var segs := Segments(rest);
      SegmentsKeepAlphanumerics(rest);
      assert Segments(s) == [word] + segs;
      assert Concat([word] + segs) == word + Concat(segs) by {
        assert ([word] + segs)[1..] == segs;
      }
      var tail := [s[i]] + rest;
      assert s == word + tail;
      AlphanumericOnlyAppend(word, tail);
      assert AlphanumericOnly(tail) == AlphanumericOnly(rest) by {
        assert tail[1..] == rest;
        assert IsSeparator(tail[0]);
      }
    }
  }

  lemma {:induction false} NonEmptyConcat(ss: seq<string>)
    ensures Concat(NonEmpty(ss)) == Concat(ss)
  {
    if ss != [] {
      NonEmptyConcat(ss[1..]);
      var rest := NonEmpty(ss[1..]);
      if ss[0] != [] {
        assert NonEmpty(ss) == [ss[0]] + rest;
        assert ([ss[0]] + rest)[1..] == rest;
      } else {
        assert NonEmpty(ss) == rest;
      }
    }
  }

  lemma {:induction false} CapitalizedConcatCase(ws: seq<string>)
    ensures SameUpToCase(CapitalizedConcat(ws), Concat(ws))
  {
    if ws != [] {
      CapitalizedConcatCase(ws[1..]);
      var a, b := Capitalize(ws[0]), CapitalizedConcat(ws[1..]);
      var c, d := ws[0], Concat(ws[1..]);
      assert SameUpToCase(a, c);
      forall k | 0 <= k < |a + b| ensures (a + b)[k] == (c + d)[k] || (a + b)[k] == Upper((c + d)[k]) {
        if k >= |a| {
          assert (a + b)[k] == b[k - |a|] && (c + d)[k] == d[k - |a|];
        }
      }
    }
  }

  /**
   * `to_pascal_case` drops exactly the separators: what remains is the
   * key's alphanumeric characters, in order, some of them uppercased.
   */
  lemma PascalCaseKeepsAlphanumerics(s: string)
    ensures SameUpToCase(PascalCase(s), AlphanumericOnly(s))
  {
    CapitalizedConcatCase(Words(s));
    NonEmptyConcat(Segments(s));
    SegmentsKeepAlphanumerics(s);
  }

  lemma {:induction false} AlphanumericOnlyAlphanumeric(s: string)
    ensures forall k :: 0 <= k < |AlphanumericOnly(s)| ==> !IsSeparator(AlphanumericOnly(s)[k])
  {
    if s != [] {
      AlphanumericOnlyAlphanumeric(s[1..]);
    }
  }

  /** The PascalCase name holds only alphanumeric characters (no `_` in particular). */
  lemma PascalCaseAlphanumeric(s: string)
    ensures forall k :: 0 <= k < |PascalCase(s)| ==> IsAlphanumeric(PascalCase(s)[k]) && PascalCase(s)[k] != '_'
  {
    PascalCaseKeepsAlphanumerics(s);
    AlphanumericOnlyAlphanumeric(s);
  }

  /** A capitalized concatenation of non-empty words starts with an uppercased character. */
  lemma {:induction false} CapitalizedConcatStartsUpper(ws: seq<string>)
    requires forall j :: 0 <= j < |ws| ==> ws[j] != []
    ensures CapitalizedConcat(ws) == [] || !('a' <= CapitalizedConcat(ws)[0] <= 'z')
  {
  }

  /** A single word (no separator) is capitalized as a whole. */
  lemma PascalCaseOfWord(w: string)
    requires forall k :: 0 <= k < |w| ==> !IsSeparator(w[k])
    ensures PascalCase(w) == Capitalize(w)
  {
    assert SeparatorIndex(w) == |w|;
    assert Segments(w) == [w];
    assert NonEmpty([w]) == (if w == [] then [] else [w]) + NonEmpty([]);
    if w != [] {
      assert CapitalizedConcat([w]) == Capitalize(w) + CapitalizedConcat([]);
    }
  }

  /**
   * `to_pascal_case` is idempotent, so the name a nested struct is
   * registered under is the one its field's type mentions.
   */
  lemma PascalCaseIdempotent(s: string)
    ensures PascalCase(PascalCase(s)) == PascalCase(s)
  {
    var t := PascalCase(s);
    PascalCaseAlphanumeric(s);
    PascalCaseOfWord(t);
    CapitalizedConcatStartsUpper(Words(s));
    if t != [] {
      assert !('a' <= t[0] <= 'z');
      assert Capitalize(t) == [t[0]] + t[1..];
    }
  }

  /** A word, a separator and the rest split as the word followed by the rest's segments. */
  lemma SegmentsAfterWord(w: string, c: char, rest: string)
    requires forall k :: 0 <= k < |w| ==> !IsSeparator(w[k])
    requires IsSeparator(c)
    ensures Segments(w + [c] + rest) == [w] + Segments(rest)
  {
    var s := w + [c] + rest;
    assert forall k :: 0 <= k < |w| ==> s[k] == w[k];
    SeparatorRun(s, |w|);
    var i := SeparatorIndex(s);
    assert s[|w|] == c;
    assert i == |w|;
    assert s[..|w|] == w && s[|w| + 1..] == rest;
    assert Segments(s) == [s[..i]] + Segments(s[i + 1..]);
  }

  /** Two words joined by a separator are capitalized and run together. */
  lemma PascalCaseOfTwoWords(a: string, c: char, b: string)
    requires a != [] && b != []
    requires forall k :: 0 <= k < |a| ==> !IsSeparator(a[k])
    requires forall k :: 0 <= k < |b| ==> !IsSeparator(b[k])
    requires IsSeparator(c)
    ensures PascalCase(a + [c] + b) == Capitalize(a) + Capitalize(b)
  {
    SegmentsAfterWord(a, c, b);
    SeparatorRun(b, |b|);
    assert Segments(b) == [b];
    var segs := [a, b];
    assert Segments(a + [c] + b) == segs;
    assert NonEmpty(segs[1..]) == [b] + NonEmpty([]);
    assert NonEmpty(segs) == [a] + NonEmpty(segs[1..]);
    assert Words(a + [c] + b) == segs;
    assert CapitalizedConcat(segs[1..]) == Capitalize(b) + CapitalizedConcat([]);
    assert CapitalizedConcat(segs) == Capitalize(a) + CapitalizedConcat(segs[1..]);
  }

  /** A run of ASCII letters is a single word. */
  lemma LettersAreWord(w: string)
    requires forall k :: 0 <= k < |w| ==> ('a' <= w[k] <= 'z') || ('A' <= w[k] <= 'Z')
    ensures forall k :: 0 <= k < |w| ==> !IsSeparator(w[k])
  {
  }

  /** A camel-case key such as `priceBoard` keeps its inner capitals and gets an initial one. */
  lemma PascalCaseOfCamelCase(w: string)
    requires w != [] && 'a' <= w[0] <= 'z'
    requires forall k :: 0 <= k < |w| ==> ('a' <= w[k] <= 'z') || ('A' <= w[k] <= 'Z')
    ensures |PascalCase(w)| == |w|
    ensures 'A' <= PascalCase(w)[0] <= 'Z' && PascalCase(w)[0] as int == w[0] as int - 32
    ensures PascalCase(w)[1..] == w[1..]
  {
    LettersAreWord(w);
    PascalCaseOfWord(w);
  }

  /** Alphanumeric characters up to `n` put the first separator at `n` or later. */
  lemma {:induction false} SeparatorRun(s: string, n: nat)
    requires n <= |s|
    requires forall k :: 0 <= k < n ==> !IsSeparator(s[k])
    ensures SeparatorIndex(s) >= n
  {
    if n > 0 {
      SeparatorRun(s[1..], n - 1);
    }
  }

  // ---------------------------------------------------------------------
  // `generate_structs`
  // ---------------------------------------------------------------------

  /** `all_defs`: struct name to definition. */
  type Defs = map<string, string>

  /** One generated definition with the struct name it was registered under. */
  type Entry = (string, string)

  /** What one struct's generation gives: its entries, its own first, and the map after them. */
  type Generated = (seq<Entry>, Defs)

  /** The field lines of some members, the entries they generated and the map after them. */
  type GeneratedFields = (seq<string>, seq<Entry>, Defs)

  /** One member's field type, the entries it generated and the map after them. */
  type GeneratedField = (string, seq<Entry>, Defs)

  /** The definitions alone, the `Vec<String>` the generator returns. */
  function Definitions(es: seq<Entry>): (ds: seq<string>)
    ensures |ds| == |es| && forall i :: 0 <= i < |es| ==> ds[i] == es[i].1
  {
    if es == [] then [] else [es[0].1] + Definitions(es[1..])
  }

  function Names(es: seq<Entry>): set<string>
  {
    set i | 0 <= i < |es| :: es[i].0
  }

  /**
   * `after` is `defs` with the entries' names added: nothing registered
   * before is changed or removed, and every name added is new and belongs
   * to an entry.
   */
  ghost predicate Extends(defs: Defs, es: seq<Entry>, after: Defs)
  {
    && (forall k :: k in defs ==> k in after && after[k] == defs[k])
    && Names(es) !! defs.Keys
    && after.Keys == defs.Keys + Names(es)
  }

  /** The entries have distinct names, each registered with its own definition. */
  ghost predicate Exact(es: seq<Entry>, after: Defs)
  {
    && (forall i, j :: 0 <= i < j < |es| ==> es[i].0 != es[j].0)
    && (forall i :: 0 <= i < |es| ==> es[i].0 in after && after[es[i].0] == es[i].1)
  }

  lemma NamesAppend(a: seq<Entry>, b: seq<Entry>)
    ensures Names(a + b) == Names(a) + Names(b)
  {
    forall n | n in Names(a + b) ensures n in Names(a) + Names(b) {
      var i :| 0 <= i < |a + b| && (a + b)[i].0 == n;
      if i >= |a| { assert b[i - |a|].0 == n; }
    }
    forall n | n in Names(a) + Names(b) ensures n in Names(a + b) {
      if n in Names(a) {
        var i :| 0 <= i < |a| && a[i].0 == n;
        assert (a + b)[i].0 == n;
      } else {
        var i :| 0 <= i < |b| && b[i].0 == n;
        assert (a + b)[|a| + i].0 == n;
      }
    }
  }

  lemma DefinitionsAppend(a: seq<Entry>, b: seq<Entry>)
    ensures Definitions(a + b) == Definitions(a) + Definitions(b)
  {
  }

  /** Two extensions in a row are one extension, and exactness carries over. */
  lemma ExtendsTransitive(a: Defs, e1: seq<Entry>, b: Defs, e2: seq<Entry>, c: Defs)
    requires Extends(a, e1, b) && Extends(b, e2, c)
    ensures Extends(a, e1 + e2, c)
    ensures Exact(e1, b) && Exact(e2, c) ==> Exact(e1 + e2, c)
  {
    NamesAppend(e1, e2);
    if Exact(e1, b) && Exact(e2, c) {
      var es := e1 + e2;
      forall i, j | 0 <= i < j < |es| ensures es[i].0 != es[j].0 {
        if i < |e1| && j >= |e1| {
          assert es[i].0 in b.Keys;
          assert es[j].0 == e2[j - |e1|].0 && e2[j - |e1|].0 in Names(e2);
        } else if i >= |e1| {
          assert es[i] == e2[i - |e1|] && es[j] == e2[j - |e1|];
        }
      }
      forall i | 0 <= i < |es| ensures es[i].0 in c && c[es[i].0] == es[i].1 {
        if i >= |e1| { assert es[i] == e2[i - |e1|]; }
      }
    }
  }

  lemma ExtendsNothing(defs: Defs)
    ensures Extends(defs, [], defs) && Exact([], defs)
  {
    assert Names([]) == {};
  }

  /**
   * The struct's own definition, registered last under its name, in front of
   * the nested ones; `start` is the map the members were generated from,
   * which holds `sn` exactly when the name was reserved.
   */
  lemma RegisterLast(defs: Defs, sn: string, start: Defs, es: seq<Entry>, after: Defs, def: string)
    requires sn !in defs
    requires start == defs || start == defs[sn := ""]
    requires Extends(start, es, after)
    ensures Extends(defs, [(sn, def)] + es, after[sn := def])
    ensures sn in start && Exact(es, after) ==> Exact([(sn, def)] + es, after[sn := def])
  {
    NamesAppend([(sn, def)], es);
    assert Names([(sn, def)]) == {sn} by {
      assert [(sn, def)][0].0 == sn;
    }
    var all := [(sn, def)] + es;
    if sn in start && Exact(es, after) {
      forall i, j | 0 <= i < j < |all| ensures all[i].0 != all[j].0 {
        assert all[j] == es[j - 1];
        if i == 0 {
          assert es[j - 1].0 in Names(es);
        } else {
          assert all[i] == es[i - 1];
        }
      }
      forall i | 0 <= i < |all| ensures all[i].0 in after[sn := def] && after[sn := def][all[i].0] == all[i].1 {
        if i > 0 {
          assert all[i] == es[i - 1];
          assert es[i - 1].0 in Names(es);
        }
      }
    }
  }

  /** `format!("    pub {}: {},", field_name, field_type)`. */
  function FieldLine(key: string, fieldType: string): string
  {
    "    pub " + key + ": " + fieldType + ","
  }

  /** The struct definition: the derive line, the header and the field lines joined by newlines. */
  function StructDef(structName: string, fields: seq<string>): string
  {
    "#[derive(Debug, serde::Deserialize)]\npub struct " + structName + " {\n" + Join(fields, '\n') + "\n}"
  }

  /** `strip_suffix('s').unwrap_or(field_name)`: one trailing `s` removed. */
  function Singular(key: string): (r: string)
    ensures r == key || r + "s" == key
    ensures EndsWith(key, "s") <==> r + "s" == key
  {
    if EndsWith(key, "s") then key[..|key| - 1] else key
  }

  /** The Rust type of a number field: `i64` when it fits, else `u64`, else `f64`. */
  function NumberType(kind: NumKind): string
  {
    match kind
    case I64 => "Option<i64>"
    case U64 => "Option<u64>"
    case F64 => "Option<f64>"
  }

  /**
   * `generate_structs(name, value, all_defs)` as written when `reserve` is
   * false: the struct name is checked against the map before the members
   * are generated but registered only after them. With `reserve` the name is
   * registered (with an empty definition) before the members are generated.
   * Returns the entries generated, this struct's first, and the new map.
   */
  function Generate(name: string, v: Json, defs: Defs, reserve: bool): (g: Generated)
    ensures Extends(defs, g.0, g.1)
    ensures reserve ==> Exact(g.0, g.1)
    ensures v.JObj? ==> PascalCase(name) in g.1
    ensures !v.JObj? || PascalCase(name) in defs ==> g == ([], defs)
    ensures v.JObj? && PascalCase(name) !in defs ==>
      g.0 != [] && g.0[0].0 == PascalCase(name) && g.1[PascalCase(name)] == g.0[0].1
    decreases v, 2
  {
    var sn := PascalCase(name);
    if !v.JObj? || sn in defs then
      ExtendsNothing(defs);
      ([], defs)
    else
      var start := if reserve then defs[sn := ""] else defs;
      var f := Fields(v, |v.members|, start, reserve);
      var def := StructDef(sn, f.0);
      RegisterLast(defs, sn, start, f.1, f.2, def);
      ([(sn, def)] + f.1, f.2[sn := def])
  }

  /**
   * The field lines of the first `n` members, the entries their nested
   * structs generated, in member order, and the map after them.
   */
  function Fields(v: Json, n: nat, defs: Defs, reserve: bool): (f: GeneratedFields)
    requires v.JObj? && n <= |v.members|
    ensures |f.0| == n
    ensures Extends(defs, f.1, f.2)
    ensures reserve ==> Exact(f.1, f.2)
    decreases v, 1, n
  {
    if n == 0 then
      ExtendsNothing(defs);
      ([], [], defs)
    else
      var prev := Fields(v, n - 1, defs, reserve);
      var key := v.members[n - 1].0;
      var field := Field(key, v.members[n - 1].1, prev.2, reserve);
      ExtendsTransitive(defs, prev.1, prev.2, field.1, field.2);
      (prev.0 + [FieldLine(key, field.0)], prev.1 + field.1, field.2)
  }

  /**
   * One member's field type, with the entries generated for it: a nested
   * object gets a struct named after its key, an array whose first element
   * is an object a struct named after the key without one trailing `s`.
   */
  function Field(key: string, x: Json, defs: Defs, reserve: bool): (f: GeneratedField)
    ensures Extends(defs, f.1, f.2)
    ensures reserve ==> Exact(f.1, f.2)
    ensures !x.JObj? && !(x.JArr? && x.items != [] && x.items[0].JObj?) ==> f.1 == [] && f.2 == defs
    decreases x, 3
  {
    match x
    case JObj(_) =>
      var nestedName := PascalCase(key);
      var g := Generate(nestedName, x, defs, reserve);
      ("Option<" + nestedName + ">", g.0, g.1)
    case JArr(items) =>
      if items != [] && items[0].JObj? then
        var nestedName := PascalCase(Singular(key));
        var g := Generate(nestedName, items[0], defs, reserve);
        ("Option<Vec<" + nestedName + ">>", g.0, g.1)
      else
        ExtendsNothing(defs);
        ("Option<Vec<String>>", [], defs)
    case JStr(_) =>
      ExtendsNothing(defs);
      ("Option<String>", [], defs)
    case JNum(kind, _) =>
      ExtendsNothing(defs);
      (NumberType(kind), [], defs)
    case JBool(_) =>
      ExtendsNothing(defs);
      ("Option<bool>", [], defs)
    case JNull =>
      ExtendsNothing(defs);
      ("Option<serde_json::Value>", [], defs)
  }

  /**
   * The struct a nested field's type names is registered once the field is
   * generated: `to_pascal_case` of the already-cased name is the name itself.
   */
  lemma NestedTypeIsRegistered(key: string, x: Json, defs: Defs, reserve: bool)
    ensures x.JObj? ==> PascalCase(key) in Field(key, x, defs, reserve).2
    ensures x.JArr? && x.items != [] && x.items[0].JObj? ==> PascalCase(Singular(key)) in Field(key, x, defs, reserve).2
  {
    PascalCaseIdempotent(key);
    PascalCaseIdempotent(Singular(key));
  }

  /** With the name reserved first, every struct name is defined once in what the generator returns. */
  lemma ReservedNamesAreUnique(name: string, v: Json, defs: Defs)
    ensures var g := Generate(name, v, defs, true);
      && (forall i, j :: 0 <= i < j < |g.0| ==> g.0[i].0 != g.0[j].0)
      && (forall i :: 0 <= i < |g.0| ==> g.0[i].0 !in defs && g.1[g.0[i].0] == g.0[i].1)
  {
    var g := Generate(name, v, defs, true);
    forall i | 0 <= i < |g.0| ensures g.0[i].0 !in defs {
      assert g.0[i].0 in Names(g.0);
    }
  }

  /** The names in the example below are single words, so PascalCase only capitalizes them. */
  lemma ExampleNames()
    ensures PascalCase("data") == "Data" && PascalCase("Data") == "Data" && PascalCase("Root") == "Root"
  {
    LettersAreWord("data");
    LettersAreWord("Data");
    LettersAreWord("Root");
    PascalCaseOfWord("data");
    PascalCaseOfWord("Data");
    PascalCaseOfWord("Root");
    assert Upper('d') == 'D' && Upper('D') == 'D' && Upper('R') == 'R';
    assert "data"[1..] == "ata" && "Data"[1..] == "ata" && "Root"[1..] == "oot";
    assert ['D'] + "ata" == "Data" && ['R'] + "oot" == "Root";
  }

  /**
   * As written, an object whose one member holds an object generates its own
   * struct, then whatever the nested object generates against the same map.
   */
  lemma SingleNestedMember(name: string, key: string, x: Json, defs: Defs)
    requires x.JObj? && PascalCase(name) !in defs
    ensures var g := Generate(name, JObj([(key, x)]), defs, false);
      var nested := Generate(PascalCase(key), x, defs, false);
      && |g.0| == 1 + |nested.0| && g.0[0].0 == PascalCase(name) && g.0[1..] == nested.0
  {
    var v := JObj([(key, x)]);
    assert Fields(v, 0, defs, false).1 == [];
    assert Fields(v, 1, defs, false).1 == Generate(PascalCase(key), x, defs, false).0;
  }

  /** An object whose one member is a scalar generates its own struct and nothing else. */
  lemma SingleScalarMember(name: string, key: string, x: Json, defs: Defs)
    requires !x.JObj? && !x.JArr? && PascalCase(name) !in defs
    ensures var g := Generate(name, JObj([(key, x)]), defs, false);
      |g.0| == 1 && g.0[0].0 == PascalCase(name)
  {
    var v := JObj([(key, x)]);
    assert Fields(v, 0, defs, false).1 == [];
    assert Fields(v, 1, defs, false).1 == [];
  }

  /**
   * As written, a struct whose member has a nested object with the struct's
   * own name is generated twice: the inner call does not find the outer
   * name, which is registered only after the members.
   */
  lemma DuplicateDefinitionAsWritten()
    ensures var leaf := JObj([("x", JNum(I64, "1"))]);
      var root := JObj([("data", JObj([("data", leaf)]))]);
      var g := Generate("Root", root, map[], false);
      |g.0| == 3 && g.0[1].0 == "Data" && g.0[2].0 == "Data"
  {
    var leaf := JObj([("x", JNum(I64, "1"))]);
    var mid := JObj([("data", leaf)]);
    var empty: Defs := map[];
    ExampleNames();
    var gLeaf := Generate("Data", leaf, empty, false);
    var gMid := Generate("Data", mid, empty, false);
    var g := Generate("Root", JObj([("data", mid)]), empty, false);
    SingleScalarMember("Data", "x", JNum(I64, "1"), empty);
    SingleNestedMember("Data", "data", leaf, empty);
    SingleNestedMember("Root", "data", mid, empty);
    assert gMid.0[1] == gLeaf.0[0];
    assert g.0[1] == gMid.0[0] && g.0[2] == gMid.0[1];
  }

  // ---------------------------------------------------------------------
  // The generator's state
  // ---------------------------------------------------------------------

  /** The `all_defs` map that the recursive calls of `generate_structs` share. */
  class StructGenerator {
    var allDefs: Defs

    constructor ()
      ensures allDefs == map[]
    {
      allDefs := map[];
    }

    /**
     * `generate_structs(name, value, &mut all_defs)` as written: the struct
     * name is looked up before its members are generated and registered only
     * after them, so the generation it follows is the non-reserving one.
     */
    method GenerateStructs(name: string, v: Json) returns (defs: seq<string>)
      modifies this
      ensures var g := Generate(name, v, old(allDefs), false);
        defs == Definitions(g.0) && allDefs == g.1
      decreases v, 1
    {
      if !v.JObj? {
        return [];
      }
      var ms := v.members;
      var structName := PascalCase(name);
      if structName in allDefs {
        return [];
      }
      ghost var start := allDefs;
      var fields: seq<string> := [];
      var nested: seq<string> := [];
      ghost var entries: seq<Entry> := [];
      for i := 0 to |ms|
        invariant Fields(v, i, start, false) == (fields, entries, allDefs)
        invariant nested == Definitions(entries)
      {
        var key := ms[i].0;
        ghost var field := Field(key, ms[i].1, allDefs, false);
        var fieldType, sub := FieldType(key, ms[i].1);
        DefinitionsAppend(entries, field.1);
        entries := entries + field.1;
        nested := nested + sub;
        fields := fields + [FieldLine(key, fieldType)];
      }
      var structDef := StructDef(structName, fields);
      allDefs := allDefs[structName := structDef];
      defs := [structDef] + nested;
    }
  
    /** The `match v` that gives a member's field type, generating the nested struct it names. */
    method FieldType(key: string, x: Json) returns (fieldType: string, nested: seq<string>)
      modifies this
      ensures var f := Field(key, x, old(allDefs), false);
        fieldType == f.0 && nested == Definitions(f.1) && allDefs == f.2
      decreases x, 2
    {
      match x {
        case JObj(_) =>
          var nestedName := PascalCase(key);
          nested := GenerateStructs(nestedName, x);
          fieldType := "Option<" + nestedName + ">";
        case JArr(items) =>
          if items != [] && items[0].JObj? {
            var nestedName := PascalCase(Singular(key));
            nested := GenerateStructs(nestedName, items[0]);
            fieldType := "Option<Vec<" + nestedName + ">>";
          } else {
            fieldType, nested := "Option<Vec<String>>", [];
          }
        case JStr(_) =>
          fieldType, nested := "Option<String>", [];
        case JNum(kind, _) =>
          fieldType, nested := NumberType(kind), [];
        case JBool(_) =>
          fieldType, nested := "Option<bool>", [];
        case JNull =>
          fieldType, nested := "Option<serde_json::Value>", [];
      }
    }
  }

  // ---------------------------------------------------------------------
  // Naming the found objects and the tool's `main`
  // ---------------------------------------------------------------------

  /** The base struct name of a found path: the PascalCase of its last key, `Root` for the root itself. */
  function StructBase(path: seq<string>): string
  {
    PascalCase(if path == [] then "Root" else path[|path| - 1])
  }

  function Bases(paths: seq<seq<string>>): (bs: seq<string>)
    ensures |bs| == |paths| && forall i :: 0 <= i < |paths| ==> bs[i] == StructBase(paths[i])
  {
    seq(|paths|, i requires 0 <= i < |paths| => StructBase(paths[i]))
  }

  /** How often `b` occurs in `bs`: the value of `name_counts[b]` after `bs`. */
  function Occurrences(bs: seq<string>, b: string): nat
  {
    if bs == [] then 0 else Occurrences(bs[..|bs| - 1], b) + (if bs[|bs| - 1] == b then 1 else 0)
  }

  /** The name of the `i`-th found object: its base, with the count appended from the second occurrence on. */
  function NameAt(bases: seq<string>, i: nat): string
    requires i < |bases|
  {
    var count := Occurrences(bases[..i + 1], bases[i]);
    if count > 1 then bases[i] + NatToString(count) else bases[i]
  }

  /** One found object: its path, the struct name it was given and the definitions printed for it. */
  datatype FoundObject = FoundObject(path: seq<string>, structName: string, definitions: seq<string>)

  /** A found object with the map after its definitions. */
  type DescribedObject = (FoundObject, Defs)

  /** The found objects so far with the map after all their definitions. */
  type DescribedObjects = (seq<FoundObject>, Defs)

  /** One found object, generated under `name` against the definitions so far, and the map after it. */
  function DescribeOne(data: Json, path: seq<string>, name: string, defs: Defs): (d: DescribedObject)
    ensures d.0.path == path && d.0.structName == name
    ensures forall k :: k in defs ==> k in d.1 && d.1[k] == defs[k]
    ensures !IndexPath(data, path).JObj? || PascalCase(name) in defs ==> d.0.definitions == [] && d.1 == defs
    ensures IndexPath(data, path).JObj? && PascalCase(name) !in defs ==>
      PascalCase(name) in d.1 && d.0.definitions != [] && d.1[PascalCase(name)] == d.0.definitions[0]
  {
    var g := Generate(name, IndexPath(data, path), defs, false);
    (FoundObject(path, name, Definitions(g.0)), g.1)
  }

  /** The objects of the first `n` paths, with the definitions map they share. */
  function Described(data: Json, paths: seq<seq<string>>, n: nat): (r: DescribedObjects)
    requires n <= |paths|
    ensures |r.0| == n
    ensures forall i :: 0 <= i < n ==> r.0[i].path == paths[i] && r.0[i].structName == NameAt(Bases(paths), i)
  {
    if n == 0 then ([], map[])
    else
      var prev := Described(data, paths, n - 1);
      var one := DescribeOne(data, paths[n - 1], NameAt(Bases(paths), n - 1), prev.1);
      (prev.0 + [one.0], one.1)
  }

  lemma {:induction false} OccurrencesGrow(bs: seq<string>, b: string, m: nat, n: nat)
    requires m <= n <= |bs|
    ensures Occurrences(bs[..m], b) <= Occurrences(bs[..n], b)
    ensures m < n && bs[n - 1] == b ==> Occurrences(bs[..m], b) < Occurrences(bs[..n], b)
    decreases n - m
  {
    if m < n {
      OccurrencesGrow(bs, b, m, n - 1);
      assert bs[..n][..n - 1] == bs[..n - 1];
    }
  }

  /** One more element adds one occurrence of itself and none of anything else. */
  lemma OccurrencesStep(bs: seq<string>, i: nat)
    requires i < |bs|
    ensures forall b :: Occurrences(bs[..i + 1], b) == Occurrences(bs[..i], b) + (if bs[i] == b then 1 else 0)
  {
    assert bs[..i + 1][..i] == bs[..i];
  }

  lemma NatToStringInjective(a: nat, b: nat)
    requires NatToString(a) == NatToString(b)
    ensures a == b
  {
    NatToStringRoundTrip(a);
    NatToStringRoundTrip(b);
  }

  /** Two objects with the same base name get different struct names. */
  lemma RepeatsNumberedApart(bases: seq<string>, i: nat, j: nat)
    requires i < j < |bases| && bases[i] == bases[j]
    ensures NameAt(bases, i) != NameAt(bases, j)
  {
    var b := bases[i];
    OccurrencesGrow(bases, b, i + 1, j + 1);
    OccurrencesGrow(bases, b, 0, i + 1);
    var ci, cj := Occurrences(bases[..i + 1], b), Occurrences(bases[..j + 1], b);
    assert cj > 1;
    if ci > 1 && NameAt(bases, i) == NameAt(bases, j) {
      assert NameAt(bases, i)[|b|..] == NatToString(ci);
      assert NameAt(bases, j)[|b|..] == NatToString(cj);
      NatToStringInjective(ci, cj);
    }
  }

  /** The first object with a given base name is named by the base alone. */
  lemma FirstOfBaseUnnumbered(bases: seq<string>, i: nat)
    requires i < |bases|
    requires forall k :: 0 <= k < i ==> bases[k] != bases[i]
    ensures NameAt(bases, i) == bases[i]
  {
    var b := bases[i];
    assert Occurrences(bases[..i], b) == 0 by {
      OccurrencesAbsent(bases[..i], b);
    }
    assert bases[..i + 1][..i] == bases[..i];
  }

  lemma {:induction false} OccurrencesAbsent(bs: seq<string>, b: string)
    requires forall k :: 0 <= k < |bs| ==> bs[k] != b
    ensures Occurrences(bs, b) == 0
  {
    if bs != [] {
      OccurrencesAbsent(bs[..|bs| - 1], b);
    }
  }

  /**
   * A key already ending in a count can take the name a later repeat is
   * numbered to: bases `Item2`, `Item`, `Item` are named `Item2`, `Item`,
   * `Item2`, and the third object then finds its name taken.
   */
  lemma NumberedNamesCanCollide()
    ensures var bases := ["Item2", "Item", "Item"];
      NameAt(bases, 0) == "Item2" && NameAt(bases, 1) == "Item" && NameAt(bases, 2) == "Item2"
  {
    var bases := ["Item2", "Item", "Item"];
    assert bases[..1] == ["Item2"] && bases[..2] == ["Item2", "Item"] && bases[..3] == bases;
    assert Occurrences(bases[..1], "Item2") == 1 by {
      assert bases[..1][..0] == [];
    }
    assert Occurrences(bases[..2], "Item") == 1 by {
      assert bases[..2][..1] == ["Item2"];
      assert ["Item2"][..0] == [];
      assert "Item2" != "Item";
    }
    assert Occurrences(bases[..3], "Item") == 2 by {
      assert bases[..3][..2] == bases[..2];
      assert bases[..2][..1] == ["Item2"];
      assert ["Item2"][..0] == [];
      assert "Item2" != "Item";
    }
    assert NatToString(2) == "2";
  }

  /** `name_counts` after the bases `bs`: each base seen mapped to how often it was seen. */
  ghost predicate CountsAgree(nameCounts: map<string, nat>, bs: seq<string>)
  {
    && (forall b :: b in nameCounts ==> nameCounts[b] == Occurrences(bs, b))
    && (forall b :: b !in nameCounts ==> Occurrences(bs, b) == 0)
  }

  /** `*name_counts.entry(base).or_insert(0) += 1` keeps the counts in step and gives the new count. */
  lemma CountStep(nameCounts: map<string, nat>, bases: seq<string>, i: nat, count: nat)
    requires i < |bases| && CountsAgree(nameCounts, bases[..i])
    requires count == (if bases[i] in nameCounts then nameCounts[bases[i]] else 0) + 1
    ensures CountsAgree(nameCounts[bases[i] := count], bases[..i + 1])
    ensures NameAt(bases, i) == if count > 1 then bases[i] + NatToString(count) else bases[i]
  {
    OccurrencesStep(bases, i);
  }

  /** The objects of one more path: those before, then the next one generated into their map. */
  lemma DescribedStep(data: Json, paths: seq<seq<string>>, i: nat, before: Defs, defs: seq<string>, after: Defs)
    requires i < |paths| && before == Described(data, paths, i).1
    requires var g := Generate(NameAt(Bases(paths), i), IndexPath(data, paths[i]), before, false);
      defs == Definitions(g.0) && after == g.1
    ensures Described(data, paths, i + 1)
      == (Described(data, paths, i).0 + [FoundObject(paths[i], NameAt(Bases(paths), i), defs)], after)
  {
  }

  /** The counter's step for one found object, and the struct name it gives. */
  method NextName(nameCounts: map<string, nat>, baseName: string, bases: seq<string>, i: nat) returns (counts: map<string, nat>, structName: string)
    requires i < |bases| && bases[i] == baseName && CountsAgree(nameCounts, bases[..i])
    ensures CountsAgree(counts, bases[..i + 1]) && structName == NameAt(bases, i)
  {
    var count := (if baseName in nameCounts then nameCounts[baseName] else 0) + 1;
    CountStep(nameCounts, bases, i, count);
    counts := nameCounts[baseName := count];
    structName := if count > 1 then baseName + NatToString(count) else baseName;
  }

  /** One turn of `main`'s loop: name the `i`-th found object and generate its definitions. */
  method DescribeNext(generator: StructGenerator, nameCounts: map<string, nat>, data: Json, paths: seq<seq<string>>, i: nat) returns (counts: map<string, nat>, found: FoundObject)
    requires i < |paths| && generator.allDefs == Described(data, paths, i).1
    requires CountsAgree(nameCounts, Bases(paths)[..i])
    modifies generator
    ensures CountsAgree(counts, Bases(paths)[..i + 1])
    ensures Described(data, paths, i + 1) == (Described(data, paths, i).0 + [found], generator.allDefs)
  {
    var path := paths[i];
    var target := Locator.IndexAlong(data, path);
    var structName;
    counts, structName := NextName(nameCounts, StructBase(path), Bases(paths), i);
    ghost var before := generator.allDefs;
    var defs := generator.GenerateStructs(structName, target);
    DescribedStep(data, paths, i, before, defs, generator.allDefs);
    found := FoundObject(path, structName, defs);
  }

  /**
   * The loop of `main` over the found paths: each object is reached by
   * indexing along its path, named from its base and the count of that base
   * so far, and generated into the one shared definitions map.
   */
  method DescribeFoundObjects(data: Json, paths: seq<seq<string>>) returns (report: seq<FoundObject>)
    ensures report == Described(data, paths, |paths|).0
  {
    var generator := new StructGenerator();
    var nameCounts: map<string, nat> := map[];
    report := [];
    for i := 0 to |paths|
      invariant report == Described(data, paths, i).0 && generator.allDefs == Described(data, paths, i).1
      invariant CountsAgree(nameCounts, Bases(paths)[..i])
    {
      var found;
      nameCounts, found := DescribeNext(generator, nameCounts, data, paths, i);
      report := report + [found];
    }
  }

  /** What the generator tool ends with. */
  datatype StructReport =
    | NoStateTag          // "Could not find window.__PRELOADED_STATE__ script tag."
    | NoJsonGroup         // "Could not find the JSON data in the script tag."
    | ParseFailed(msg: string)
    | NoObjects           // "No objects found with the specified keys: ..."
    | Objects(found: seq<FoundObject>)

  /** The state block captured from `body`, trimmed, stripped of a trailing `;` and parsed. */
  function StateValue(body: string, capture: string -> Locator.Capture, parse: string -> Result<Json>): Result<Json>
    requires capture(body).Group?
  {
    parse(StripStateTerminator(capture(body).text))
  }

  /**
   * `main` after the download: capture the state block, trim it and drop a
   * trailing `;`, parse it, search it for objects holding every key and
   * describe each one found.
   */
  method GenerateFromPage(body: string, capture: string -> Locator.Capture, parse: string -> Result<Json>, keys: seq<string>) returns (r: StructReport)
    ensures capture(body).NoMatch? ==> r == NoStateTag
    ensures capture(body).NoGroup? ==> r == NoJsonGroup
    ensures capture(body).Group? && StateValue(body, capture, parse).Err? ==>
      r == ParseFailed(StateValue(body, capture, parse).msg)
    ensures capture(body).Group? && StateValue(body, capture, parse).Ok? ==>
      var data := StateValue(body, capture, parse).value;
      var paths := Paths(data, keys, []);
      && (paths == [] ==> r == NoObjects)
      && (paths != [] ==> r.Objects? && r.found == Described(data, paths, |paths|).0)
  {
    match capture(body) {
      case NoMatch => return NoStateTag;
      case NoGroup => return NoJsonGroup;
      case Group(captured) =>
        var parsed := parse(StripStateTerminator(captured));
        if parsed.Err? {
          return ParseFailed(parsed.msg);
        }
        var data := parsed.value;
        var paths := FindObjectPaths(data, keys);
        if paths == [] {
          return NoObjects;
        }
        var found := DescribeFoundObjects(data, paths);
        r := Objects(found);
    }
  }
}
