/**
 * Text helpers with the meaning Python gives them in the autograder:
 * `str.splitlines`, `str.strip`, `str.lower`, `str.count`, the `in`
 * substring test, `str(int)` and the `repr` of a list of ints.
 */
module Text {

  // ---------------------------------------------------------------------
  // Character classes
  // ---------------------------------------------------------------------

  /** The characters `str.splitlines` treats as line boundaries. */
  predicate IsLineBoundary(c: char) {
    c == '\n' || c == '\r' || c == '\U{B}' || c == '\U{C}' ||
    c == '\U{1C}' || c == '\U{1D}' || c == '\U{1E}' || c == '\U{85}' ||
    c == '\U{2028}' || c == '\U{2029}'
  }

  /** The characters for which `str.isspace()` holds; `str.strip()` and the regex class `\s` use the same set. */
  predicate IsSpace(c: char) {
    ('\t' <= c <= '\r') || ('\U{1C}' <= c <= ' ') || c == '\U{85}' || c == '\U{A0}' ||
    c == '\U{1680}' || ('\U{2000}' <= c <= '\U{200A}') || c == '\U{2028}' || c == '\U{2029}' ||
    c == '\U{202F}' || c == '\U{205F}' || c == '\U{3000}'
  }

  /** Every line boundary is whitespace, so a blank line stays blank whatever it ends with. */
  lemma BoundaryIsSpace(c: char)
    requires IsLineBoundary(c)
    ensures IsSpace(c)
  {
  }

  predicate NoBoundary(s: string) {
    forall k :: 0 <= k < |s| ==> !IsLineBoundary(s[k])
  }

  // ---------------------------------------------------------------------
  // str.splitlines()
  // ---------------------------------------------------------------------

  /** The first index at or after `i` that holds a line boundary, or `|s|`. */
  function BoundaryFrom(s: string, i: nat): (k: nat)
    requires i <= |s|
    ensures i <= k <= |s|
    ensures k < |s| ==> IsLineBoundary(s[k])
    ensures forall j :: i <= j < k ==> !IsLineBoundary(s[j])
    decreases |s| - i
  {
    if i == |s| || IsLineBoundary(s[i]) then i else BoundaryFrom(s, i + 1)
  }

  /** How many characters the boundary at `k` takes: "\r\n" counts as one boundary of two characters. */
  function BoundaryLength(s: string, k: nat): (n: nat)
    requires k < |s|
    ensures 1 <= n <= 2 && k + n <= |s|
  {
    if s[k] == '\r' && k + 1 < |s| && s[k + 1] == '\n' then 2 else 1
  }

  /** `s.splitlines(True)`: the lines of `s`, each with its terminator. */
  function SplitLinesKeepEnds(s: string): (lines: seq<string>)
    ensures lines == [] <==> s == []
    decreases |s|
  {
    if s == [] then []
    else
      var k := BoundaryFrom(s, 0);
      if k == |s| then [s]
      else
        var n := k + BoundaryLength(s, k);
        [s[..n]] + SplitLinesKeepEnds(s[n..])
  }

  /** A line terminator: one boundary character, or "\r\n". */
  predicate IsTerminator(t: string) {
    (|t| == 1 && IsLineBoundary(t[0])) || t == "\r\n"
  }

  /**
   * `line` is the line `kept` without its terminator; only the last line
   * of a text may have no terminator.
   */
  predicate DropsTerminator(kept: string, line: string, last: bool) {
    |line| <= |kept| && kept[..|line|] == line &&
    (IsTerminator(kept[|line|..]) || (last && |line| == |kept|))
  }

  /** `s.splitlines()`: the lines of `s` without their terminators; a final terminator adds no empty line. */
  function SplitLines(s: string): (lines: seq<string>)
    ensures lines == [] <==> s == []
    ensures forall j :: 0 <= j < |lines| ==> NoBoundary(lines[j])
    decreases |s|
  {
    if s == [] then []
    else
      var k := BoundaryFrom(s, 0);
      if k == |s| then [s]
      else [s[..k]] + SplitLines(s[k + BoundaryLength(s, k)..])
  }

  /** Each line is its kept line with the terminator cut off, and only the last may have none. */
  predicate LinesMatch(kept: seq<string>, lines: seq<string>) {
    |kept| == |lines| &&
    forall j :: 0 <= j < |lines| ==> DropsTerminator(kept[j], lines[j], j == |lines| - 1)
  }

  lemma LinesMatchCons(keptLine: string, line: string, kept: seq<string>, lines: seq<string>)
    requires DropsTerminator(keptLine, line, lines == []) && LinesMatch(kept, lines)
    ensures LinesMatch([keptLine] + kept, [line] + lines)
  {
    var k2, l2 := [keptLine] + kept, [line] + lines;
    forall j | 0 <= j < |l2|
      ensures DropsTerminator(k2[j], l2[j], j == |l2| - 1)
    {
      if j > 0 {
        assert k2[j] == kept[j - 1] && l2[j] == lines[j - 1];
      }
    }
  }

  /** Cutting a text at a boundary character `k` leaves the text up to `k` and the terminator that starts there. */
  lemma CutAtBoundary(s: string, k: nat, last: bool)
    requires k < |s| && IsLineBoundary(s[k])
    ensures DropsTerminator(s[..k + BoundaryLength(s, k)], s[..k], last)
  {
    var n := k + BoundaryLength(s, k);
    var kept := s[..n];
    assert kept[..k] == s[..k];
    var t := kept[k..];
    assert IsTerminator(t) by {
      if n == k + 2 {
        assert s[k] == '\r' && s[k + 1] == '\n';
        assert t == "\r\n";
      } else {
        assert |t| == 1 && t[0] == s[k];
      }
    }
  }

  /**
   * `s.splitlines()` and `s.splitlines(True)` give the same lines, one for
   * one, except that the first cuts off each terminator.
   */
  lemma {:induction false} SplitLinesDropsTerminators(s: string)
    ensures LinesMatch(SplitLinesKeepEnds(s), SplitLines(s))
    decreases |s|
  {
    if s != [] {
      var k := BoundaryFrom(s, 0);
      if k == |s| {
        assert DropsTerminator(s, s, true);
        LinesMatchCons(s, s, [], []);
      } else {
        var n := k + BoundaryLength(s, k);
        SplitLinesDropsTerminators(s[n..]);
        CutAtBoundary(s, k, SplitLines(s[n..]) == []);
        LinesMatchCons(s[..n], s[..k], SplitLinesKeepEnds(s[n..]), SplitLines(s[n..]));
      }
    }
  }

  function Concat(parts: seq<string>): string {
    if parts == [] then "" else parts[0] + Concat(parts[1..])
  }

  lemma ConcatCons(first: string, rest: seq<string>)
    ensures Concat([first] + rest) == first + Concat(rest)
  {
    assert ([first] + rest)[1..] == rest;
  }

  /** The first kept line of a text with a boundary runs up to and including its terminator. */
  lemma KeepEndsStep(s: string, k: nat, n: nat)
    requires s != [] && k == BoundaryFrom(s, 0) && k < |s| && n == k + BoundaryLength(s, k)
    ensures SplitLinesKeepEnds(s) == [s[..n]] + SplitLinesKeepEnds(s[n..])
  {
  }

  /** Keeping the terminators loses nothing: the lines put back together are the text. */
  lemma {:induction false} SplitLinesKeepEndsConcat(s: string)
    ensures Concat(SplitLinesKeepEnds(s)) == s
    decreases |s|
  {
    if s != [] {
      var k := BoundaryFrom(s, 0);
      if k < |s| {
        var n := k + BoundaryLength(s, k);
        SplitLinesKeepEndsConcat(s[n..]);
        KeepEndsStep(s, k, n);
        ConcatCons(s[..n], SplitLinesKeepEnds(s[n..]));
        assert s[..n] + s[n..] == s;
      } else {
        assert SplitLinesKeepEnds(s) == [s];
        ConcatCons(s, []);
      }
    }
  }

  /** A text of three lines, the middle one empty, keeps its terminators line by line. */
  lemma SplitLinesKeepEndsExample()
    ensures SplitLinesKeepEnds("a\n\nb") == ["a\n", "\n", "b"]
  {
    assert BoundaryFrom("b", 0) == 1;
    assert SplitLinesKeepEnds("b") == ["b"];
    assert BoundaryFrom("\nb", 0) == 0 && BoundaryLength("\nb", 0) == 1;
    assert "\nb"[1..] == "b" && "\nb"[..1] == "\n";
    assert SplitLinesKeepEnds("\nb") == ["\n", "b"];
    assert BoundaryFrom("a\n\nb", 1) == 1;
    assert BoundaryFrom("a\n\nb", 0) == 1 && BoundaryLength("a\n\nb", 1) == 1;
    assert "a\n\nb"[2..] == "\nb" && "a\n\nb"[..2] == "a\n";
  }

  /** `sep.join(parts)`. */
  function Join(parts: seq<string>, sep: string): string {
    if parts == [] then ""
    else if |parts| == 1 then parts[0]
    else parts[0] + sep + Join(parts[1..], sep)
  }

  // ---------------------------------------------------------------------
  // str.strip()
  // ---------------------------------------------------------------------

  function LeadingSpaces(s: string, i: nat): (k: nat)
    requires i <= |s|
    ensures i <= k <= |s|
    ensures forall j :: i <= j < k ==> IsSpace(s[j])
    ensures k < |s| ==> !IsSpace(s[k])
    decreases |s| - i
  {
    if i == |s| || !IsSpace(s[i]) then i else LeadingSpaces(s, i + 1)
  }

  function TrailingStart(s: string, j: nat): (k: nat)
    requires j <= |s|
    ensures k <= j
    ensures forall m :: k <= m < j ==> IsSpace(s[m])
    ensures k > 0 ==> !IsSpace(s[k - 1])
  {
    if j == 0 || !IsSpace(s[j - 1]) then j else TrailingStart(s, j - 1)
  }

  /** `s.strip()`: `s` with the whitespace at both ends removed, and nothing else. */
  function Strip(s: string): (r: string)
    ensures r == [] || (!IsSpace(r[0]) && !IsSpace(r[|r| - 1]))
    ensures r == [] ==> forall j :: 0 <= j < |s| ==> IsSpace(s[j])
    ensures r != [] ==> exists a :: StrippedAt(s, a, r)
  {
    var a := LeadingSpaces(s, 0);
    var b := TrailingStart(s, |s|);
    if a < b then assert StrippedAt(s, a, s[a..b]); s[a..b] else []
  }

  /** `r` is the slice of `s` at offset `a`, and only whitespace lies outside that slice. */
  predicate StrippedAt(s: string, a: int, r: string) {
    0 <= a <= |s| - |r| && s[a..a + |r|] == r &&
    (forall j :: 0 <= j < a ==> IsSpace(s[j])) &&
    (forall j :: a + |r| <= j < |s| ==> IsSpace(s[j]))
  }

  // ---------------------------------------------------------------------
  // Case, prefixes, substrings, counting
  // ---------------------------------------------------------------------

  function LowerChar(c: char): char {
    if 'A' <= c <= 'Z' then (c as int + 32) as char else c
  }

  /** `s.lower()`, on ASCII letters. */
  function Lower(s: string): (r: string)
    ensures |r| == |s|
    ensures forall k :: 0 <= k < |s| ==> r[k] == LowerChar(s[k])
  {
    if s == [] then [] else [LowerChar(s[0])] + Lower(s[1..])
  }

  predicate StartsWith(s: string, prefix: string) {
    |prefix| <= |s| && s[..|prefix|] == prefix
  }

  /** Python's `needle in hay`, computed by trying every start position in turn. */
  predicate Contains(hay: string, needle: string)
    decreases |hay|
  {
    StartsWith(hay, needle) || (hay != [] && Contains(hay[1..], needle))
  }

  /** What `needle in hay` means: some slice of `hay` is `needle`. */
  ghost predicate IsSubstring(needle: string, hay: string) {
    exists i :: OccursAt(hay, i, needle)
  }

  predicate OccursAt(hay: string, i: int, needle: string) {
    0 <= i <= |hay| - |needle| && hay[i..i + |needle|] == needle
  }

  /** A slice of the tail is the slice of the whole shifted by one. */
  lemma SliceOfTail(hay: string, i: nat, m: nat)
    requires i + m < |hay|
    ensures hay[1..][i..i + m] == hay[i + 1..i + 1 + m]
  {
    var a, b := hay[1..][i..i + m], hay[i + 1..i + 1 + m];
    forall j | 0 <= j < m
      ensures a[j] == b[j]
    {
    }
  }

  lemma {:induction false} ContainsIsSubstring(hay: string, needle: string)
    ensures Contains(hay, needle) <==> IsSubstring(needle, hay)
    decreases |hay|
  {
    if StartsWith(hay, needle) {
      assert OccursAt(hay, 0, needle);
    } else if hay != [] {
      ContainsIsSubstring(hay[1..], needle);
      if IsSubstring(needle, hay[1..]) {
        var i :| OccursAt(hay[1..], i, needle);
        SliceOfTail(hay, i, |needle|);
        assert OccursAt(hay, i + 1, needle);
      }
      if IsSubstring(needle, hay) {
        var i :| OccursAt(hay, i, needle);
        assert i > 0;
        SliceOfTail(hay, i - 1, |needle|);
        assert OccursAt(hay[1..], i - 1, needle);
      }
    }
  }

  /** `s.count(c)` for a one-character `c`: how many positions of `s` hold `c`. */
  function CountChar(s: string, c: char): (n: nat)
    ensures n == multiset(s)[c]
    ensures n <= |s|
    ensures n == 0 <==> forall k :: 0 <= k < |s| ==> s[k] != c
  {
    if s == [] then 0
    else
      assert s == [s[0]] + s[1..];
      (if s[0] == c then 1 else 0) + CountChar(s[1..], c)
  }

  // ---------------------------------------------------------------------
  // str(int) and the repr of a list of ints
  // ---------------------------------------------------------------------

  function DigitChar(d: nat): char
    requires d < 10
  {
    ['0', '1', '2', '3', '4', '5', '6', '7', '8', '9'][d]
  }

  function DigitValue(c: char): nat {
    if '0' <= c <= '9' then (c as int - '0' as int) as nat else 0
  }

  predicate IsDigit(c: char) { '0' <= c <= '9' }

  /** The value of a string of decimal digits. */
  function DecimalValue(s: string): nat {
    if s == [] then 0 else DecimalValue(s[..|s| - 1]) * 10 + DigitValue(s[|s| - 1])
  }

  /** `str(n)` for a natural number: its decimal digits, without leading zeros. */
  function NatToString(n: nat): (s: string)
    ensures s != [] && forall k :: 0 <= k < |s| ==> IsDigit(s[k])
    ensures |s| > 1 ==> s[0] != '0'
  {
    if n < 10 then [DigitChar(n)] else NatToString(n / 10) + [DigitChar(n % 10)]
  }

  lemma {:induction false} NatToStringValue(n: nat)
    ensures DecimalValue(NatToString(n)) == n
  {
    if n >= 10 {
      NatToStringValue(n / 10);
      var s := NatToString(n);
      assert s[..|s| - 1] == NatToString(n / 10);
    }
  }

  /** `str(n)` for any int. */
  function IntToString(n: int): (s: string)
    ensures s != []
  {
    if n < 0 then "-" + NatToString(-n) else NatToString(n)
  }

  function IntStrings(xs: seq<int>): (r: seq<string>)
    ensures |r| == |xs|
  {
    if xs == [] then [] else [IntToString(xs[0])] + IntStrings(xs[1..])
  }

  /** `repr(xs)` for a list of ints, e.g. "[3, 7]". */
  function IntListRepr(xs: seq<int>): string {
    "[" + Join(IntStrings(xs), ", ") + "]"
  }
}
