/** limit_input (highlighter.py:56-62): the source text is cut or padded to a
    fixed number of display lines before it is highlighted.  Python's
    str.splitlines is modelled in full: it breaks at every line boundary
    Python knows, treats "\r\n" as one boundary, and does not produce an empty
    last line for a trailing boundary. */
module Lines {

  /** The default of max_lines. */
  const DefaultMaxLines: nat := 47

  /** The line boundaries of str.splitlines. */
  predicate IsLineBoundary(c: char) {
    c == '\n' || c == '\r' || c == '\U{000B}' || c == '\U{000C}'
    || c == '\U{001C}' || c == '\U{001D}' || c == '\U{001E}'
    || c == '\U{0085}' || c == '\U{2028}' || c == '\U{2029}'
  }

  /** No character of `s` is a line boundary. */
  predicate NoBoundary(s: string) {
    forall k :: 0 <= k < |s| ==> !IsLineBoundary(s[k])
  }

  /** Index of the first line boundary of `s`, or |s| when there is none. */
  function LineEnd(s: string): (n: nat)
    ensures n <= |s|
    ensures NoBoundary(s[..n])
    ensures n < |s| ==> IsLineBoundary(s[n])
  {
    if s == [] then 0
    else if IsLineBoundary(s[0]) then 0
    else
      var n := 1 + LineEnd(s[1..]);
      assert s[..n] == [s[0]] + s[1..][..n - 1];
      n
  }

  /** Length of the boundary that starts at s[n]: two for "\r\n", one otherwise. */
  function BoundaryLength(s: string, n: nat): (w: nat)
    requires n < |s|
    ensures 1 <= w <= 2 && n + w <= |s|
  {
    if s[n] == '\r' && n + 1 < |s| && s[n + 1] == '\n' then 2 else 1
  }

  /** Python's str.splitlines() without keepends. */
  function SplitLines(s: string): (lines: seq<string>)
    ensures forall i :: 0 <= i < |lines| ==> NoBoundary(lines[i])
    decreases |s|
  {
    if s == [] then []
    else
      var n := LineEnd(s);
      if n == |s| then [s]
      else [s[..n]] + SplitLines(s[n + BoundaryLength(s, n)..])
  }

  /** Number of occurrences of `c` in `s`. */
  function Count(s: string, c: char): nat
  {
    if s == [] then 0
    else (if s[0] == c then 1 else 0) + Count(s[1..], c)
  }

  /** The line list of limit_input: the first maxLines lines when there are
      more, otherwise every line followed by single-space padding lines. */
  function LimitLines(lines: seq<string>, maxLines: nat): (r: seq<string>)
    ensures |r| == maxLines
    ensures forall i :: 0 <= i < maxLines ==> r[i] == if i < |lines| then lines[i] else " "
  {
    if |lines| > maxLines then lines[..maxLines]
    else lines + seq(maxLines - |lines|, _ => " ")
  }

  /** Counts add up over a concatenation. */
  lemma CountAppend(a: string, b: string, c: char)
    ensures Count(a + b, c) == Count(a, c) + Count(b, c)
  {
    if a == [] {
      assert a + b == b;
    } else {
      assert (a + b)[1..] == a[1..] + b;
      CountAppend(a[1..], b, c);
    }
  }

  /** A text without `c` holds no `c`. */
  lemma {:induction false} CountNone(s: string, c: char)
    ensures c !in s ==> Count(s, c) == 0
  {
    if s != [] {
      CountNone(s[1..], c);
      assert c !in s ==> c !in s[1..];
    }
  }

  lemma OneMoreSeparator(n: int, c: int)
    ensures c + (n - 2) * c == (n - 1) * c
  {
  }

  /** sep.join(lines).  When no line holds a newline, the newlines of the
      result are those of the separators between the lines. */
  function Join(lines: seq<string>, sep: string): (r: string)
    ensures lines == [] ==> r == ""
    ensures (forall i :: 0 <= i < |lines| ==> '\n' !in lines[i]) ==>
              Count(r, '\n') == if lines == [] then 0 else (|lines| - 1) * Count(sep, '\n')
  {
    if lines == [] then ""
    else if |lines| == 1 then
      CountNone(lines[0], '\n');
      lines[0]
    else
      var rest := Join(lines[1..], sep);
      CountNone(lines[0], '\n');
      CountAppend(lines[0], sep, '\n');
      CountAppend(lines[0] + sep, rest, '\n');
      OneMoreSeparator(|lines|, Count(sep, '\n'));
      assert (forall i :: 0 <= i < |lines| ==> '\n' !in lines[i]) ==>
               (forall i :: 0 <= i < |lines[1..]| ==> '\n' !in lines[1..][i]);
      lines[0] + sep + rest
  }

  /** limit_input(content, max_lines): whatever the content, the text holds
      max_lines - 1 newlines, so it has max_lines lines (none at all when
      max_lines is 0). */
  function LimitInput(content: string, maxLines: nat): (r: string)
    ensures maxLines >= 1 ==> Count(r, '\n') == maxLines - 1
    ensures maxLines == 0 ==> r == ""
  {
    var lines := SplitLines(content);
    var kept := LimitLines(lines, maxLines);
    assert forall i :: 0 <= i < |kept| ==> '\n' !in kept[i] by {
      forall i | 0 <= i < |kept| ensures '\n' !in kept[i] {
        if i < |lines| {
          assert NoBoundary(lines[i]);
        } else {
          assert kept[i] == " ";
        }
      }
    }
    Join(kept, "\n")
  }

  /** The first line boundary of a line followed by "\n" and more text is
      that "\n". */
  lemma {:induction false} LineEndOfJoined(line: string, rest: string)
    requires NoBoundary(line)
    ensures LineEnd(line + "\n" + rest) == |line|
  {
    if line != [] {
      assert (line + "\n" + rest)[1..] == line[1..] + "\n" + rest;
      LineEndOfJoined(line[1..], rest);
    }
  }

  /** splitlines undoes "\n".join when no line holds a boundary and the
      last line is not empty. */
  lemma {:induction false} SplitJoin(lines: seq<string>)
    requires forall i :: 0 <= i < |lines| ==> NoBoundary(lines[i])
    requires lines != [] ==> lines[|lines| - 1] != ""
    ensures SplitLines(Join(lines, "\n")) == lines
  {
    if |lines| > 1 {
      var s := Join(lines, "\n");
      var rest := Join(lines[1..], "\n");
      assert s == lines[0] + "\n" + rest;
      LineEndOfJoined(lines[0], rest);
      var n := |lines[0]|;
      assert s[n] == '\n';
      assert BoundaryLength(s, n) == 1;
      assert s[..n] == lines[0];
      assert s[n + 1..] == rest;
      SplitJoin(lines[1..]);
    }
  }

  /** When the text is padded, or the last kept line is not empty, splitting
      the output of limit_input again gives back exactly the kept lines. */
  lemma LimitInputResplit(content: string, maxLines: nat)
    requires maxLines >= 1
    requires |SplitLines(content)| < maxLines || SplitLines(content)[maxLines - 1] != ""
    ensures SplitLines(LimitInput(content, maxLines)) == LimitLines(SplitLines(content), maxLines)
  {
    var kept := LimitLines(SplitLines(content), maxLines);
    forall i | 0 <= i < |kept| ensures NoBoundary(kept[i]) {
      if i >= |SplitLines(content)| {
        assert kept[i] == " ";
      }
    }
    SplitJoin(kept);
  }

  lemma SplitExample()
    ensures SplitLines("a\n\nb") == ["a", "", "b"]
  {
    assert LineEnd("b") == 1;
    assert SplitLines("b") == ["b"];
    assert LineEnd("\nb") == 0;
    assert "\nb"[..0] == "" && "\nb"[1..] == "b";
    assert SplitLines("\nb") == [""] + ["b"];
    assert LineEnd("a\n\nb") == 1;
    assert BoundaryLength("a\n\nb", 1) == 1;
    assert "a\n\nb"[..1] == "a" && "a\n\nb"[2..] == "\nb";
  }

  lemma ResplitExample()
    ensures SplitLines("a\n") == ["a"]
  {
    assert LineEnd("a\n") == 1;
    assert "a\n"[..1] == "a" && "a\n"[2..] == [];
  }

  /** A truncated text whose last kept line is empty ends in "\n", so it
      re-splits into fewer than maxLines lines. */
  lemma TruncatedEmptyLastLine()
    ensures SplitLines("a\n\nb") == ["a", "", "b"]
    ensures LimitInput("a\n\nb", 2) == "a\n"
    ensures SplitLines(LimitInput("a\n\nb", 2)) == ["a"]
  {
    SplitExample();
    assert LimitLines(["a", "", "b"], 2) == ["a", ""];
    assert Join(["a", ""], "\n") == "a\n";
    ResplitExample();
  }
}
