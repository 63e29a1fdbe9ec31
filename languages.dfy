/** get_languages (highlighter.py:102-107): on first use the module-level list
    `languages` is extended with the sorted names of the lexer registry; later
    calls return it as it is.  The registry (the first field of every entry
    of get_all_lexers()) is an input sequence; names that occur twice stay
    twice. */
module Languages {

  /** Python's `<=` on str: lexicographic by code point, a prefix first. */
  predicate StrLe(a: string, b: string)
    decreases |a|
  {
    if a == [] then true
    else if b == [] then false
    else a[0] < b[0] || (a[0] == b[0] && StrLe(a[1..], b[1..]))
  }

  lemma {:induction false} StrLeTotal(a: string, b: string)
    ensures StrLe(a, b) || StrLe(b, a)
    decreases |a|
  {
    if a != [] && b != [] && a[0] == b[0] {
      StrLeTotal(a[1..], b[1..]);
    }
  }

  lemma {:induction false} StrLeTrans(a: string, b: string, c: string)
    requires StrLe(a, b) && StrLe(b, c)
    ensures StrLe(a, c)
    decreases |a|
  {
    if a != [] && b != [] && c != [] && a[0] == b[0] == c[0] {
      StrLeTrans(a[1..], b[1..], c[1..]);
    }
  }

  lemma {:induction false} StrLeAntisym(a: string, b: string)
    requires StrLe(a, b) && StrLe(b, a)
    ensures a == b
    decreases |a|
  {
    if a != [] {
      StrLeAntisym(a[1..], b[1..]);
      assert a == [a[0]] + a[1..] && b == [b[0]] + b[1..];
    }
  }

  /** Every name is at most every later one. */
  predicate IsSorted(s: seq<string>) {
    forall i, j :: 0 <= i < j < |s| ==> StrLe(s[i], s[j])
  }

  /** Places `x` in front of the first name it is at most. */
  function Insert(x: string, s: seq<string>): (r: seq<string>)
    requires IsSorted(s)
    ensures IsSorted(r)
    ensures multiset(r) == multiset(s) + multiset{x}
  {
    if s == [] then [x]
    else if StrLe(x, s[0]) then
      assert forall j :: 0 <= j < |s| ==> StrLe(x, s[j]) by {
        forall j | 0 <= j < |s| ensures StrLe(x, s[j]) {
          if j > 0 { StrLeTrans(x, s[0], s[j]); }
        }
      }
      [x] + s
    else
      StrLeTotal(x, s[0]);
      var tail := Insert(x, s[1..]);
      assert s == [s[0]] + s[1..];
      assert forall y :: y in multiset(tail) ==> StrLe(s[0], y);
      assert forall j :: 0 <= j < |tail| ==> StrLe(s[0], tail[j]) by {
        forall j | 0 <= j < |tail| ensures StrLe(s[0], tail[j]) {
          assert tail[j] in multiset(tail);
        }
      }
      [s[0]] + tail
  }

  /** sorted(names). */
  function SortNames(names: seq<string>): (r: seq<string>)
    ensures IsSorted(r)
    ensures multiset(r) == multiset(names)
  {
    if names == [] then []
    else
      assert names == names[..|names| - 1] + [names[|names| - 1]];
      Insert(names[|names| - 1], SortNames(names[..|names| - 1]))
  }

  /** The first name of a sorted list is at most every name in it. */
  lemma HeadIsLeast(s: seq<string>, x: string)
    requires IsSorted(s) && x in s
    ensures StrLe(s[0], x)
  {
    var i :| 0 <= i < |s| && s[i] == x;
    if i == 0 {
      StrLeTotal(x, x);
    }
  }

  lemma TailMultiset(s: seq<string>)
    requires s != []
    ensures multiset(s[1..]) == multiset(s) - multiset{s[0]}
  {
    assert s == [s[0]] + s[1..];
  }

  /** There is only one sorted arrangement of a multiset of names, so the
      catalog is determined by the registry's names alone. */
  lemma {:induction false} SortedUnique(s: seq<string>, t: seq<string>)
    requires IsSorted(s) && IsSorted(t)
    requires multiset(s) == multiset(t)
    ensures s == t
  {
    assert |s| == |multiset(s)| == |multiset(t)| == |t|;
    if s != [] {
      assert s[0] in multiset(t) && t[0] in multiset(s);
      HeadIsLeast(t, s[0]);
      HeadIsLeast(s, t[0]);
      StrLeAntisym(s[0], t[0]);
      TailMultiset(s);
      TailMultiset(t);
      SortedUnique(s[1..], t[1..]);
      assert s == [s[0]] + s[1..] && t == [t[0]] + t[1..];
    }
  }

  class LanguageCatalog {
    /** The module-level list `languages`. */
    var languages: seq<string>

    /** `languages` starts empty. */
    constructor ()
      ensures languages == []
    {
      languages := [];
    }

    /** get_languages(): fills the list from the registry only when it is
        empty, and returns it. */
    method GetLanguages(registry: seq<string>) returns (r: seq<string>)
      modifies this
      ensures old(languages) == [] ==> IsSorted(languages) && multiset(languages) == multiset(registry)
      ensures old(languages) != [] ==> languages == old(languages)
      ensures r == languages
    {
      if languages == [] {
        languages := languages + SortNames(registry);
      }
      r := languages;
    }
  }

  /** After the first call every later call returns the same list, as long as
      the registry was not empty. */
  method GetLanguagesTwice(catalog: LanguageCatalog, registry: seq<string>, later: seq<string>)
    returns (first: seq<string>, second: seq<string>)
    requires registry != []
    modifies catalog
    ensures old(catalog.languages) == [] ==> first == SortNames(registry)
    ensures second == first
  {
    first := catalog.GetLanguages(registry);
    if old(catalog.languages) == [] {
      SortedUnique(first, SortNames(registry));
      assert |first| == |registry| by { assert |multiset(first)| == |multiset(registry)|; }
    }
    second := catalog.GetLanguages(later);
  }
}
