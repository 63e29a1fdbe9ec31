/** get_matrix_file (highlighter.py:68-69): the sidecar file of a background
    is its path with everything after the last "." replaced by ".json";
    a path without a dot gets ".json" appended. */
module Sidecar {
  import opened Wrappers

  const JsonSuffix: string := ".json"

  /** Index of the last occurrence of `c` in `s`, if any. */
  function LastIndexOf(s: string, c: char): (r: Option<nat>)
    ensures r.None? ==> forall k :: 0 <= k < |s| ==> s[k] != c
    ensures r.Some? ==> r.value < |s| && s[r.value] == c
                        && forall k :: r.value < k < |s| ==> s[k] != c
  {
    if s == [] then None
    else if s[|s| - 1] == c then Some(|s| - 1)
    else LastIndexOf(s[..|s| - 1], c)
  }

  /** background.rsplit(".", maxsplit=1)[0]: the text before the last dot,
      or the whole text when there is no dot. */
  function Stem(background: string): (stem: string)
    ensures stem <= background
    ensures (stem == background && '.' !in background)
            || (|stem| < |background| && background[|stem|] == '.' && '.' !in background[|stem| + 1..])
  {
    match LastIndexOf(background, '.')
    case None => background
    case Some(k) => background[..k]
  }

  /** get_matrix_file(background). */
  function MatrixFile(background: string): (r: string)
    ensures |r| >= |JsonSuffix| && r[|r| - |JsonSuffix|..] == JsonSuffix
    ensures var stem := r[..|r| - |JsonSuffix|];
            stem <= background
            && ((stem == background && '.' !in background)
                || (|stem| < |background| && background[|stem|] == '.' && '.' !in background[|stem| + 1..]))
  {
    var r := Stem(background) + JsonSuffix;
    assert r[..|r| - |JsonSuffix|] == Stem(background);
    r
  }

  /** In a text ending in ".json" the last dot is the one of ".json". */
  lemma {:induction false} LastDotOfJson(stem: string)
    ensures LastIndexOf(stem + JsonSuffix, '.') == Some(|stem|)
  {
    var s := stem + JsonSuffix;
    assert s[|s| - 1] == 'n';
    assert s[..|s| - 1] == stem + ".jso";
    assert (stem + ".jso")[|s| - 2] == 'o';
    assert (stem + ".jso")[..|s| - 2] == stem + ".js";
    assert (stem + ".js")[|s| - 3] == 's';
    assert (stem + ".js")[..|s| - 3] == stem + ".j";
    assert (stem + ".j")[|s| - 4] == 'j';
    assert (stem + ".j")[..|s| - 4] == stem + ".";
    assert (stem + ".")[|stem|] == '.';
  }

  /** Deriving the sidecar path of a sidecar path changes nothing. */
  lemma MatrixFileIdempotent(background: string)
    ensures MatrixFile(MatrixFile(background)) == MatrixFile(background)
  {
    var stem := Stem(background);
    LastDotOfJson(stem);
    assert (stem + JsonSuffix)[..|stem|] == stem;
  }
}
