/**
 * The rubric's checks. Each takes what the autograder learns about one
 * submission file (whether it exists, its text, the tree or syntax error
 * Python's parser gives for that text, the outcome of running it) and
 * returns one `CheckResult` or a list of them.
 */
module Checks {
  import opened Wrappers
  import opened Text
  import opened PyAst
  import opened Analyzer
  import opened Harness

  /** `CheckResult(name, passed, message)`. */
  datatype CheckResult = CheckResult(name: string, passed: bool, message: string)

  /**
   * What the autograder can learn about one file. `text` is what `safe_read`
   * returns (`None` when the file is missing); `parsed` is what `ast.parse`
   * gives for that text; `hasDocBlock` is whether the triple-quoted block
   * pattern of `check_comments_present` matches; `program` is what the file
   * does when run as `__main__`.
   */
  datatype Submission = Submission(
    filename: string,
    present: bool,
    text: Option<string>,
    parsed: Result<Node, string>,
    hasDocBlock: bool,
    program: seq<Action>)

  /** `if not src:` fails for a missing file and for an empty one. */
  predicate Readable(sub: Submission) {
    sub.text.Some? && sub.text.value != ""
  }

  function Source(sub: Submission): string {
    if sub.text.Some? then sub.text.value else ""
  }

  const CouldNotRead := "Could not read the file."

  // =====================================================================
  // check_file_exists
  // =====================================================================

  const FileNamedPrefix := "File named "
  const ExistsSuffix := " exists"
  const CreatePrefix := "Create "
  const ExactNameSuffix := " (exact name, no spaces)."

  /** The check passes exactly when the file exists, and a failure always says what to do. */
  function CheckFileExists(sub: Submission): (r: CheckResult)
    ensures r.passed <==> sub.present
    ensures r.message != ""
  {
    CheckResult(FileNamedPrefix + sub.filename + ExistsSuffix, sub.present,
                CreatePrefix + sub.filename + ExactNameSuffix)
  }

  // =====================================================================
  // check_header_comment
  // =====================================================================

  /** Whether `s` at `j` continues with whitespace and then a colon (`\s*:`). */
  predicate ColonAfterSpaces(s: string, j: nat)
    decreases |s| - j
  {
    j < |s| && (s[j] == ':' || (IsSpace(s[j]) && ColonAfterSpaces(s, j + 1)))
  }

  /** `word` (lower case), in any letter case, starts at `i` and is followed by `\s*:`. */
  predicate MarkerAt(s: string, i: nat, word: string) {
    i + |word| <= |s| && Lower(s[i..i + |word|]) == word && ColonAfterSpaces(s, i + |word|)
  }

  /** The marker search of lines 90-93: `word` in any letter case, then whitespace, then a colon, anywhere in `s`. */
  predicate HasMarker(s: string, word: string) {
    exists i :: 0 <= i <= |s| && MarkerAt(s, i, word)
  }

  /** What `\s*:` matches at `j`: a run of whitespace from `j` to a colon at `c`. */
  ghost predicate ColonSpan(s: string, j: int, c: int) {
    0 <= j <= c < |s| && s[c] == ':' && forall k :: j <= k < c ==> IsSpace(s[k])
  }

  lemma {:induction false} ColonAfterSpacesIff(s: string, j: nat)
    ensures ColonAfterSpaces(s, j) <==> exists c :: ColonSpan(s, j, c)
    decreases |s| - j
  {
    if j < |s| {
      if s[j] == ':' {
        assert ColonSpan(s, j, j);
      } else {
        ColonAfterSpacesIff(s, j + 1);
        if IsSpace(s[j]) && ColonAfterSpaces(s, j + 1) {
          var c :| ColonSpan(s, j + 1, c);
          assert ColonSpan(s, j, c);
        }
        if exists c :: ColonSpan(s, j, c) {
          var c :| ColonSpan(s, j, c);
          assert c > j;
          assert ColonSpan(s, j + 1, c);
        }
      }
    }
  }

  const ProgramMarker := "program"
  const TitleMarker := "title"
  const NameMarker := "name"
  const DateMarker := "date"
  const HeaderName := "Header includes title, name, date"
  const HeaderHint := "Include header comments with Program/Title, Name, and Date near the top."

  /** The first 40 lines, joined with "\n". */
  function HeaderBlock(src: string): string {
    var lines := SplitLines(src);
    Join(if |lines| <= 40 then lines else lines[..40], "\n")
  }

  /**
   * `check_header_comment`: the first 40 lines must hold a title (a
   * "program:" or "title:" marker, or any `#`), a "name:" marker and a
   * "date:" marker; the message is the same whatever is missing.
   */
  function CheckHeaderComment(sub: Submission): (r: CheckResult)
    ensures r.name == HeaderName
    ensures r.passed <==>
      Readable(sub) &&
      var h := HeaderBlock(Source(sub));
      (HasMarker(h, ProgramMarker) || HasMarker(h, TitleMarker) || '#' in h) && HasMarker(h, NameMarker) && HasMarker(h, DateMarker)
    ensures !Readable(sub) ==> r.message == CouldNotRead
  {
    if !Readable(sub) then CheckResult(HeaderName, false, CouldNotRead)
    else
      var h := HeaderBlock(Source(sub));
      var hasTitle := HasMarker(h, ProgramMarker) || HasMarker(h, TitleMarker) || '#' in h;
      var hasName := HasMarker(h, NameMarker);
      var hasDate := HasMarker(h, DateMarker);
      CheckResult(HeaderName, hasTitle && hasName && hasDate, HeaderHint)
  }

  /** What `(word)\s*:` matches: `word` in any letter case at `i`, then whitespace up to a colon at `c`. */
  ghost predicate MarkerSpan(s: string, i: int, word: string, c: int) {
    0 <= i && i + |word| <= |s| && Lower(s[i..i + |word|]) == word && ColonSpan(s, i + |word|, c)
  }

  /** The marker search finds a marker exactly when some span of the text is one. */
  lemma MarkerMeaning(h: string, word: string)
    ensures HasMarker(h, word) <==> exists i, c :: MarkerSpan(h, i, word, c)
  {
    if HasMarker(h, word) {
      var i :| 0 <= i <= |h| && MarkerAt(h, i, word);
      ColonAfterSpacesIff(h, i + |word|);
      var c :| ColonSpan(h, i + |word|, c);
      assert MarkerSpan(h, i, word, c);
    }
    if exists i, c :: MarkerSpan(h, i, word, c) {
      var i, c :| MarkerSpan(h, i, word, c);
      ColonAfterSpacesIff(h, i + |word|);
      assert MarkerAt(h, i, word);
    }
  }

  // =====================================================================
  // check_line_length
  // =====================================================================

  /** The 1-based numbers of the lines longer than `limit`, in order. */
  function LongLines(lines: seq<string>, limit: int): (r: seq<int>)
    ensures forall k :: 0 <= k < |r| ==> 1 <= r[k] <= |lines| && |lines[r[k] - 1]| > limit
    ensures forall k, m :: 0 <= k < m < |r| ==> r[k] < r[m]
  {
    if lines == [] then []
    else
      var n := |lines|;
      LongLines(lines[..n - 1], limit) + (if |lines[n - 1]| > limit then [n] else [])
  }

  /** Every over-long line is listed. */
  lemma {:induction false} LongLinesComplete(lines: seq<string>, limit: int, i: int)
    requires 0 <= i < |lines| && |lines[i]| > limit
    ensures i + 1 in LongLines(lines, limit)
  {
    var n := |lines|;
    if i < n - 1 {
      LongLinesComplete(lines[..n - 1], limit, i);
    }
  }

  /** Some line is too long exactly when the list of long lines is not empty. */
  lemma LongLinesEmptyIff(lines: seq<string>, limit: int)
    ensures LongLines(lines, limit) == [] <==> forall i :: 0 <= i < |lines| ==> |lines[i]| <= limit
  {
    if exists i :: 0 <= i < |lines| && |lines[i]| > limit {
      var i :| 0 <= i < |lines| && |lines[i]| > limit;
      LongLinesComplete(lines, limit, i);
    }
  }

  const LineLengthPrefix := "Line length ≤ "
  const CharsSuffix := " chars"
  const LinesOverPrefix := "Lines over "
  const CharsColon := " chars: "
  const Ellipsis := "..."

  /** `long_lines[:5]`. */
  function FirstFive(xs: seq<int>): seq<int> {
    if |xs| <= 5 then xs else xs[..5]
  }

  function LineLengthName(limit: int): string {
    LineLengthPrefix + IntToString(limit) + CharsSuffix
  }

  /**
   * `check_line_length(filename, limit)`: passes exactly when the text can
   * be read and no line is longer than `limit`; on failure the message lists
   * the first five offending line numbers and ends in "..." exactly when
   * there are more than five.
   */
  function CheckLineLength(sub: Submission, limit: int): (r: CheckResult)
    ensures r.name == LineLengthName(limit)
    ensures r.passed <==> Readable(sub) && forall line :: line in SplitLines(Source(sub)) ==> |line| <= limit
    ensures !Readable(sub) ==> r.message == CouldNotRead
    ensures Readable(sub) && !r.passed ==>
      var long := LongLines(SplitLines(Source(sub)), limit);
      r.message == LinesOverPrefix + IntToString(limit) + CharsColon + IntListRepr(FirstFive(long)) +
                   (if |long| > 5 then Ellipsis else "")
  {
    if !Readable(sub) then CheckResult(LineLengthName(limit), false, CouldNotRead)
    else
      var lines := SplitLines(Source(sub));
      var long := LongLines(lines, limit);
      LongLinesEmptyIff(lines, limit);
      if long != [] then
        CheckResult(LineLengthName(limit), false,
                    LinesOverPrefix + IntToString(limit) + CharsColon + IntListRepr(FirstFive(long)) +
                    (if |long| > 5 then Ellipsis else ""))
      else CheckResult(LineLengthName(limit), true, "")
  }

  /** The numbers in the message are over-long lines, the first ones in order. */
  lemma FirstFiveAreFirst(lines: seq<string>, limit: int)
    ensures var long := LongLines(lines, limit); var shown := FirstFive(long);
      |shown| <= 5 && shown <= long &&
      (forall k :: 0 <= k < |shown| ==> |lines[shown[k] - 1]| > limit) &&
      (forall i :: 0 <= i < |lines| && |lines[i]| > limit && i + 1 !in shown ==> |shown| == 5 && i + 1 > shown[4])
  {
    var long := LongLines(lines, limit);
    var shown := FirstFive(long);
    ShownAreLong(long, lines, limit);
    forall i | 0 <= i < |lines| && |lines[i]| > limit && i + 1 !in shown
      ensures |shown| == 5 && i + 1 > shown[4]
    {
      LongLineNotShown(lines, limit, i);
    }
  }

  lemma ShownAreLong(long: seq<int>, lines: seq<string>, limit: int)
    requires long == LongLines(lines, limit)
    ensures |FirstFive(long)| <= 5 && FirstFive(long) <= long
    ensures forall k :: 0 <= k < |FirstFive(long)| ==> 1 <= FirstFive(long)[k] <= |lines| && |lines[FirstFive(long)[k] - 1]| > limit
  {
    var shown := FirstFive(long);
    forall k | 0 <= k < |shown|
      ensures 1 <= shown[k] <= |lines| && |lines[shown[k] - 1]| > limit
    {
      assert shown[k] == long[k];
    }
  }

  /** An over-long line missing from the message comes after the five that are shown. */
  lemma LongLineNotShown(lines: seq<string>, limit: int, i: int)
    requires 0 <= i < |lines| && |lines[i]| > limit
    requires i + 1 !in FirstFive(LongLines(lines, limit))
    ensures |FirstFive(LongLines(lines, limit))| == 5 && i + 1 > FirstFive(LongLines(lines, limit))[4]
  {
    var long := LongLines(lines, limit);
    LongLinesComplete(lines, limit, i);
    var k :| 0 <= k < |long| && long[k] == i + 1;
    assert |long| > 5;
    assert k >= 5;
    assert long[4] < long[k];
  }

  // =====================================================================
  // check_ast_structures
  // =====================================================================

  const MissingPrefix := "Missing: "
  const StructuresName := "Uses required if/elif/else patterns and `or`"
  const ParsesName := "Python parses successfully"

  const MissingIf := "a standalone if"
  const MissingIfElse := "an if/else"
  const MissingChain := "an if/elif/else with ≥2 elifs"
  const MissingOr := "a condition using `or`"

  /** The `missing` list, in the order the checks are made. */
  function Missing(s: Structures): (m: seq<string>)
    ensures m == [] <==> s.hasIf && s.hasIfElse && s.hasElifElseChain && s.hasOr
  {
    (if s.hasIf then [] else [MissingIf]) +
    (if s.hasIfElse then [] else [MissingIfElse]) +
    (if s.hasElifElseChain then [] else [MissingChain]) +
    (if s.hasOr then [] else [MissingOr])
  }

  /**
   * `check_ast_structures`: unreadable text and syntax errors fail with their
   * own messages; otherwise it passes exactly when the tree has an `if`, an
   * `if` with an `else`, an if/elif/else chain with two or more elifs, and an
   * `or`.
   */
  function CheckAstStructures(sub: Submission): (r: CheckResult)
    ensures !Readable(sub) ==> r == CheckResult(StructuresName, false, CouldNotRead)
    ensures Readable(sub) && sub.parsed.Failure? ==>
      r == CheckResult(ParsesName, false, SyntaxErrorPrefix + sub.parsed.error)
    ensures r.passed <==>
      Readable(sub) && sub.parsed.Success? &&
      var w := Walk(sub.parsed.value);
      (exists k :: 0 <= k < |w| && w[k].node.If?) &&
      (exists k :: 0 <= k < |w| && w[k].node.If? && |w[k].node.orelse| > 0) &&
      (exists k :: 0 <= k < |w| && IsElifElseChain(w[k].node)) &&
      (exists k :: 0 <= k < |w| && w[k].node.BoolOp? && w[k].node.boolOp == Or)
  {
    if !Readable(sub) then CheckResult(StructuresName, false, CouldNotRead)
    else
      match ParseTree(Source(sub), sub.parsed)
      case Failure(err) => CheckResult(ParsesName, false, err)
      case Success(tree) =>
        StructuresMeaning(tree);
        var missing := Missing(StructuresOf(tree));
        if missing != [] then CheckResult(StructuresName, false, MissingPrefix + Join(missing, ", "))
        else CheckResult(StructuresName, true, "")
  }

  // =====================================================================
  // check_runtime_behavior
  // =====================================================================

  /** The answers the runtime check scripts. */
  const SampleInputs: seq<string> := ["yes", "blue", "pizza", "goodbye"]

  /** `textwrap.indent(text, prefix)`: the prefix goes before every line that is not blank. */
  function Indent(text: string, prefix: string): string {
    IndentLines(SplitLinesKeepEnds(text), prefix)
  }

  function IndentLines(lines: seq<string>, prefix: string): string {
    if lines == [] then ""
    else (if Strip(lines[0]) != "" then prefix + lines[0] else lines[0]) + IndentLines(lines[1..], prefix)
  }

  /** A blank line: whitespace only (the empty line included). */
  predicate IsBlank(line: string) {
    forall j :: 0 <= j < |line| ==> IsSpace(line[j])
  }

  /** The test `textwrap.indent` applies to a line: it strips to nothing exactly when it is blank. */
  lemma StripEmptyIffBlank(line: string)
    ensures Strip(line) == "" <==> IsBlank(line)
  {
  }

  /** Each line, with `prefix` in front when it is not blank. */
  function PrefixNonBlank(lines: seq<string>, prefix: string): seq<string> {
    seq(|lines|, k requires 0 <= k < |lines| => if IsBlank(lines[k]) then lines[k] else prefix + lines[k])
  }

  lemma {:induction false} IndentLinesPrefixesNonBlank(lines: seq<string>, prefix: string)
    ensures IndentLines(lines, prefix) == Concat(PrefixNonBlank(lines, prefix))
  {
    if lines != [] {
      IndentLinesPrefixesNonBlank(lines[1..], prefix);
      StripEmptyIffBlank(lines[0]);
      assert PrefixNonBlank(lines, prefix)[1..] == PrefixNonBlank(lines[1..], prefix);
    }
  }

  /**
   * `textwrap.indent(text, prefix)` cuts the text into its lines with their
   * terminators, which put back together are the text, and puts `prefix` in
   * front of exactly the lines that are not blank.
   */
  lemma IndentMeaning(text: string, prefix: string)
    ensures Concat(SplitLinesKeepEnds(text)) == text
    ensures Indent(text, prefix) == Concat(PrefixNonBlank(SplitLinesKeepEnds(text), prefix))
  {
    SplitLinesKeepEndsConcat(text);
    IndentLinesPrefixesNonBlank(SplitLinesKeepEnds(text), prefix);
  }

  /** The two-space indent of a crash report: a blank line in the traceback stays as it is. */
  lemma IndentTwoSpaces()
    ensures Indent("a\n\nb", "  ") == "  a\n\n  b"
  {
    var lines := ["a\n", "\n", "b"];
    assert Concat(PrefixNonBlank(lines, "  ")) == "  a\n\n  b" by {
      assert !IsBlank(lines[0]) by { assert !IsSpace(lines[0][0]); }
      assert !IsBlank(lines[2]) by { assert !IsSpace(lines[2][0]); }
      assert IsBlank(lines[1]) by { assert IsSpace(lines[1][0]); }
      var pieces := PrefixNonBlank(lines, "  ");
      assert pieces[0] == "  a\n" && pieces[1] == "\n" && pieces[2] == "  b";
      assert pieces[1..][1..] == ["  b"] && Concat(["  b"]) == "  b";
      assert Concat(pieces[1..]) == "\n  b";
    }
    SplitLinesKeepEndsExample();
    IndentMeaning("a\n\nb", "  ");
  }

  /** Indenting only adds text: with an empty prefix the text comes back unchanged. */
  lemma IndentEmptyPrefix(text: string)
    ensures Indent(text, "") == text
  {
    IndentLinesEmptyPrefix(SplitLinesKeepEnds(text));
    SplitLinesKeepEndsConcat(text);
  }

  lemma {:induction false} IndentLinesEmptyPrefix(lines: seq<string>)
    ensures IndentLines(lines, "") == Concat(lines)
  {
    if lines != [] {
      IndentLinesEmptyPrefix(lines[1..]);
      assert "" + lines[0] == lines[0];
    }
  }

  /** Some answer, lower-cased, occurs in the lower-cased output (line 215). */
  predicate AnyEchoed(answers: seq<string>, out: string) {
    answers != [] && (Contains(Lower(out), Lower(answers[0])) || AnyEchoed(answers[1..], out))
  }

  lemma {:induction false} AnyEchoedIff(answers: seq<string>, out: string)
    ensures AnyEchoed(answers, out) <==> exists a :: a in answers && IsSubstring(Lower(a), Lower(out))
  {
    if answers != [] {
      ContainsIsSubstring(Lower(out), Lower(answers[0]));
      AnyEchoedIff(answers[1..], out);
      if exists a :: a in answers && IsSubstring(Lower(a), Lower(out)) {
        var a :| a in answers && IsSubstring(Lower(a), Lower(out));
        if a != answers[0] {
          assert a in answers[1..];
        }
      }
      if AnyEchoed(answers[1..], out) {
        var a :| a in answers[1..] && IsSubstring(Lower(a), Lower(out));
        assert a in answers;
      }
    }
  }

  const NotCompleted := "Program did not complete execution."
  const CrashedPrefix := "Program crashed.\n"
  const CrashName := "Program executes without crashing"
  const QuestionsName := "Asks at least 3 questions"
  const EchoName := "Uses the user's input in a response"
  const QuestionsHint := "Make sure you prompt the user 3+ times (use '?')."
  const EchoHint := "Include the user's answer in a printed line."

  /**
   * `check_runtime_behavior` on the triple the run produced: always three
   * items; with a non-empty error all three fail; otherwise the first passes,
   * the second passes exactly when the output has three or more '?' or
   * `input` was called three or more times, and the third exactly when some
   * sample answer, lower-cased, occurs in the lower-cased output.
   */
  function CheckRuntimeBehavior(out: string, err: Option<string>, inputCalls: nat): (r: seq<CheckResult>)
    ensures |r| == 3
    ensures r[0].name == CrashName
    ensures r[1].name == QuestionsName
    ensures r[2].name == EchoName
    ensures err.Some? && err.value != "" ==>
      !r[0].passed && !r[1].passed && !r[2].passed &&
      r[0].message == CrashedPrefix + Indent(err.value, "  ") &&
      r[1].message == NotCompleted && r[2].message == NotCompleted
    ensures !(err.Some? && err.value != "") ==>
      r[0].passed &&
      (r[1].passed <==> CountChar(out, '?') >= 3 || inputCalls >= 3) &&
      (r[2].passed <==> exists a :: a in SampleInputs && IsSubstring(Lower(a), Lower(out)))
  {
    if err.Some? && err.value != "" then
      var msg := CrashedPrefix + Indent(err.value, "  ");
      [CheckResult(CrashName, false, msg),
       CheckResult(QuestionsName, false, NotCompleted),
       CheckResult(EchoName, false, NotCompleted)]
    else
      var qmarks := CountChar(out, '?');
      var asksThree := qmarks >= 3 || inputCalls >= 3;
      AnyEchoedIff(SampleInputs, out);
      var usedInput := AnyEchoed(SampleInputs, out);
      [CheckResult(CrashName, true, ""),
       CheckResult(QuestionsName, asksThree, QuestionsHint),
       CheckResult(EchoName, usedInput, EchoHint)]
  }

  /** How many copies of the last sample answer the runtime check adds. */
  const PadExtra := 20

  /** The run the runtime check makes: the sample answers padded with `PadExtra` copies of the last one. */
  function RuntimeRun(sub: Submission): RunResult {
    Run(sub.program, PaddedInputs(SampleInputs, PadExtra, None))
  }

  /** `check_runtime_wrapper` / `check_runtime_behavior(filename)`. */
  function CheckRuntime(sub: Submission): (r: seq<CheckResult>)
    ensures |r| == 3
  {
    var run := RuntimeRun(sub);
    CheckRuntimeBehavior(run.output, run.error, run.inputCalls)
  }

  /**
   * A program that only prints and asks, and asks at most 24 times (the four
   * sample answers and twenty copies of the last), never crashes, and three
   * questions are enough for the second item whatever it prints.
   */
  lemma PlainProgramRunsClean(sub: Submission)
    requires Plain(sub.program) && Reads(sub.program) <= 24
    ensures CheckRuntime(sub)[0].passed
    ensures Reads(sub.program) >= 3 ==> CheckRuntime(sub)[1].passed
  {
    PlainRunCompletes(sub.program, PaddedInputs(SampleInputs, PadExtra, None), 0, "");
  }

  /** Asking a 25th time exhausts the scripted answers: the run crashes and every item fails. */
  lemma TooManyQuestionsCrash(sub: Submission)
    requires Plain(sub.program) && Reads(sub.program) > 24
    ensures forall k :: 0 <= k < 3 ==> !CheckRuntime(sub)[k].passed
    ensures RuntimeRun(sub).inputCalls == 25
  {
    var answers := PaddedInputs(SampleInputs, PadExtra, None);
    PlainRunExhausts(sub.program, answers, 0, "");
    RunErrorFailsAll(sub);
  }

  /** Any run that ends with a non-empty error fails all three items. */
  lemma RunErrorFailsAll(sub: Submission)
    requires RuntimeRun(sub).error.Some? && RuntimeRun(sub).error.value != ""
    ensures forall k :: 0 <= k < 3 ==> !CheckRuntime(sub)[k].passed
  {
  }

  // =====================================================================
  // check_comments_present
  // =====================================================================

  /** A comment line: stripped of surrounding whitespace, it starts with `#` and has more than that one character (line 369). */
  predicate IsHashComment(line: string) {
    var t := Strip(line);
    |t| > 1 && t[0] == '#'
  }

  /**
   * A comment line is one whose first non-blank character is '#' and that
   * has some non-blank character after it.
   */
  lemma HashCommentMeaning(line: string)
    ensures IsHashComment(line) <==>
      exists i :: 0 <= i < |line| && line[i] == '#' && (forall j :: 0 <= j < i ==> IsSpace(line[j])) &&
        exists k :: i < k < |line| && !IsSpace(line[k])
  {
    if IsHashComment(line) {
      CommentHasHash(line);
    }
    if exists i :: 0 <= i < |line| && line[i] == '#' && (forall j :: 0 <= j < i ==> IsSpace(line[j])) &&
        exists k :: i < k < |line| && !IsSpace(line[k]) {
      var i :| 0 <= i < |line| && line[i] == '#' && (forall j :: 0 <= j < i ==> IsSpace(line[j])) &&
        exists k :: i < k < |line| && !IsSpace(line[k]);
      var k :| i < k < |line| && !IsSpace(line[k]);
      HashIsComment(line, i, k);
    }
  }

  lemma CommentHasHash(line: string)
    requires IsHashComment(line)
    ensures exists i :: 0 <= i < |line| && line[i] == '#' && (forall j :: 0 <= j < i ==> IsSpace(line[j])) &&
                        exists k :: i < k < |line| && !IsSpace(line[k])
  {
    var t := Strip(line);
    var a :| StrippedAt(line, a, t);
    assert line[a] == t[0];
    assert line[a + |t| - 1] == t[|t| - 1];
    assert a < a + |t| - 1 < |line| && !IsSpace(line[a + |t| - 1]);
  }

  lemma HashIsComment(line: string, i: int, k: int)
    requires 0 <= i < k < |line| && line[i] == '#' && !IsSpace(line[k])
    requires forall j :: 0 <= j < i ==> IsSpace(line[j])
    ensures IsHashComment(line)
  {
    var t := Strip(line);
    assert t != [];
    var a :| StrippedAt(line, a, t);
    assert line[a] == t[0];
    assert a == i;
    assert a <= k < a + |t|;
  }

  predicate HasHashComment(lines: seq<string>) {
    exists line :: line in lines && IsHashComment(line)
  }

  const CommentsName := "Comments / pseudocode present (Week 1–2)"
  const CommentsHint := "Add at least one comment or pseudocode block."

  /** `check_comments_present`: a `#` comment line or a triple-quoted block. */
  function CheckCommentsPresent(sub: Submission): (r: CheckResult)
    ensures r.name == CommentsName
    ensures r.passed <==> Readable(sub) && (HasHashComment(SplitLines(Source(sub))) || sub.hasDocBlock)
    ensures r.message != ""
  {
    if !Readable(sub) then CheckResult(CommentsName, false, CouldNotRead)
    else
      var ok := HasHashComment(SplitLines(Source(sub))) || sub.hasDocBlock;
      CheckResult(CommentsName, ok, CommentsHint)
  }

  // =====================================================================
  // build_analysis and the checks built on it
  // =====================================================================

  /** `build_analysis(filename)`: the record, or the error the dependent checks report. */
  function AnalyzeSubmission(sub: Submission): (r: Result<Analysis, string>)
    ensures r.Success? <==> Readable(sub) && sub.parsed.Success?
    ensures r.Success? ==> r.value == AnalysisOf(sub.parsed.value)
    ensures r.Failure? ==> r.error != ""
    ensures !Readable(sub) ==> r == Failure(CouldNotRead)
    ensures Readable(sub) && sub.parsed.Failure? ==> r == Failure(SyntaxErrorPrefix + sub.parsed.error)
  {
    if !Readable(sub) then Failure(CouldNotRead)
    else
      match ParseTree(Source(sub), sub.parsed)
      case Failure(err) => Failure(err)
      case Success(tree) => Success(AnalysisOf(tree))
  }

  /** Every item failed and carries `err` as its message. */
  predicate FailWith(rs: seq<CheckResult>, err: string) {
    forall k :: 0 <= k < |rs| ==> !rs[k].passed && rs[k].message == err
  }

  const InputSavedName := "Input saved to a variable (Week 2)"
  const InputUnsavedName := "Input also used without saving (Week 2)"
  const InputSavedHint := "Do something like: answer = input('...')"
  const InputUnsavedHint := "Also call input(...) directly (e.g., print(input('...'))) in a different place."

  /**
   * `check_input_both_ways`: input saved to a variable, and input used
   * without saving; a call counts as saved when it lies inside the value of
   * an assignment.
   */
  function CheckInputBothWays(sub: Submission): (r: seq<CheckResult>)
    ensures |r| == 2 && r[0].name == InputSavedName && r[1].name == InputUnsavedName
    ensures AnalyzeSubmission(sub).Failure? ==> FailWith(r, AnalyzeSubmission(sub).error)
    ensures AnalyzeSubmission(sub).Success? ==>
      var w := Walk(sub.parsed.value);
      (r[0].passed <==> exists k :: 0 <= k < |w| && IsCallTo(w[k].node, InputFunction) && w[k].inValue) &&
      (r[1].passed <==> exists k :: 0 <= k < |w| && IsCallTo(w[k].node, InputFunction) && !w[k].inValue)
  {
    match AnalyzeSubmission(sub)
    case Failure(err) => [CheckResult(InputSavedName, false, err), CheckResult(InputUnsavedName, false, err)]
    case Success(info) =>
      InputFlagsMeaning(sub.parsed.value);
      [CheckResult(InputSavedName, info.hasInputSaved, InputSavedHint),
       CheckResult(InputUnsavedName, info.hasInputUnsaved,
                   InputUnsavedHint)]
  }

  const StrAssignName := "Assign a string to a variable (Week 2)"
  const StrPrintName := "Print a string variable (Week 2)"
  const ConcatName := "Concatenate strings (Week 2)"
  const StrAssignHint := "Example: greeting = 'Hello'"
  const StrPrintHint := "Example: print(greeting)"
  const ConcatHint := "Use '+' with strings or string vars, e.g., greeting + ', world'"

  /**
   * `check_variables_and_strings`: a string assigned to a name, a print of
   * such a name, and a `+` with a string literal or string variable on one side.
   */
  function CheckVariablesAndStrings(sub: Submission): (r: seq<CheckResult>)
    ensures |r| == 3 && r[0].name == StrAssignName && r[1].name == StrPrintName && r[2].name == ConcatName
    ensures AnalyzeSubmission(sub).Failure? ==> FailWith(r, AnalyzeSubmission(sub).error)
    ensures AnalyzeSubmission(sub).Success? ==>
      var w := Walk(sub.parsed.value); var vars := StrVars(w, |w|);
      (r[0].passed <==> exists k :: 0 <= k < |w| && StrTargetNames(w[k].node) != {}) &&
      (r[1].passed <==> exists k :: 0 <= k < |w| && IsPrintOfStrVar(w[k].node, vars)) &&
      (r[2].passed <==> exists k :: 0 <= k < |w| && IsStringConcat(w[k].node, vars))
  {
    match AnalyzeSubmission(sub)
    case Failure(err) =>
      [CheckResult(StrAssignName, false, err), CheckResult(StrPrintName, false, err), CheckResult(ConcatName, false, err)]
    case Success(info) =>
      VariablesAndStringsFlags(sub.parsed.value);
      [CheckResult(StrAssignName, |info.strVars| > 0, StrAssignHint),
       CheckResult(StrPrintName, info.printsStringVar, StrPrintHint),
       CheckResult(ConcatName, info.concatenatesStrings, ConcatHint)]
  }

  lemma VariablesAndStringsFlags(tree: Node)
    ensures var a := AnalysisOf(tree); var w := Walk(tree); var vars := StrVars(w, |w|);
      (|a.strVars| > 0 <==> exists k :: 0 <= k < |w| && StrTargetNames(w[k].node) != {}) &&
      (a.printsStringVar <==> exists k :: 0 <= k < |w| && IsPrintOfStrVar(w[k].node, vars)) &&
      (a.concatenatesStrings <==> exists k :: 0 <= k < |w| && IsStringConcat(w[k].node, vars))
  {
    var a, w := AnalysisOf(tree), Walk(tree);
    var vars := StrVars(w, |w|);
    assert a.strVars == vars && a.printsStringVar == Occurs(w, |w|, PrintOfStringVar(vars)) &&
           a.concatenatesStrings == Occurs(w, |w|, StringConcatenation(vars));
    StrVarsNonEmpty(w);
    PrintOfStringVarFound(w, vars);
    StringConcatenationFound(w, vars);
  }

  /** Some name was assigned a string literal exactly when some assignment gives one. */
  lemma StrVarsNonEmpty(w: seq<Visit>)
    ensures |StrVars(w, |w|)| > 0 <==> exists k :: 0 <= k < |w| && StrTargetNames(w[k].node) != {}
  {
    if |StrVars(w, |w|)| > 0 {
      var x :| x in StrVars(w, |w|);
      StrVarsIff(w, |w|, x);
    }
    if exists k :: 0 <= k < |w| && StrTargetNames(w[k].node) != {} {
      var k :| 0 <= k < |w| && StrTargetNames(w[k].node) != {};
      var x :| x in StrTargetNames(w[k].node);
      StrVarsIff(w, |w|, x);
    }
  }

  const StringListName := "Create a list of strings (Week 2)"
  const RandomChoiceName := "Use random.choice() (with import) (Week 2)"
  const StringListHint := "Example: foods = ['pizza','taco','salad']"
  const RandomChoiceHint := "Import random or from random import choice, then call random.choice(list) or choice(list)."

  /**
   * `check_lists_and_randomness`: a non-empty list of string literals, and a
   * `choice` call together with an import of `random` or of `choice`.
   */
  function CheckListsAndRandomness(sub: Submission): (r: seq<CheckResult>)
    ensures |r| == 2 && r[0].name == StringListName && r[1].name == RandomChoiceName
    ensures AnalyzeSubmission(sub).Failure? ==> FailWith(r, AnalyzeSubmission(sub).error)
    ensures AnalyzeSubmission(sub).Success? ==>
      var w := Walk(sub.parsed.value);
      (r[0].passed <==> exists k :: 0 <= k < |w| && IsStringList(w[k].node)) &&
      (r[1].passed <==>
        (exists k :: 0 <= k < |w| && IsRandomChoiceCall(w[k].node)) &&
        ((exists k :: 0 <= k < |w| && IsRandomImport(w[k].node)) ||
         (exists k :: 0 <= k < |w| && IsChoiceImport(w[k].node))))
  {
    match AnalyzeSubmission(sub)
    case Failure(err) => [CheckResult(StringListName, false, err), CheckResult(RandomChoiceName, false, err)]
    case Success(info) =>
      StringListFlag(sub.parsed.value);
      RandomChoiceFlag(sub.parsed.value);
      [CheckResult(StringListName, info.listOfStringsExists, StringListHint),
       CheckResult(RandomChoiceName, info.randomChoiceOk,
                   RandomChoiceHint)]
  }

  /** The flag of the analysis: some list display holds only string literals, and at least one. */
  lemma StringListFlag(tree: Node)
    ensures var w := Walk(tree); AnalysisOf(tree).listOfStringsExists <==> exists k :: 0 <= k < |w| && IsStringList(w[k].node)
  {
    StringListLiteralFound(Walk(tree));
  }

  /** `random_choice_ok`: a `choice` call, and an import of `random` or of `choice` from it, anywhere in the tree. */
  lemma RandomChoiceFlag(tree: Node)
    ensures var w := Walk(tree); AnalysisOf(tree).randomChoiceOk <==>
      (exists k :: 0 <= k < |w| && IsRandomChoiceCall(w[k].node)) &&
      ((exists k :: 0 <= k < |w| && IsRandomImport(w[k].node)) ||
       (exists k :: 0 <= k < |w| && IsChoiceImport(w[k].node)))
  {
    var w := Walk(tree);
    RandomChoiceCallFound(w);
    RandomImportFound(w);
    ChoiceImportFound(w);
  }

  const InOperatorName := "Use 'in' on strings/lists (Week 3)"
  const InOperatorHint := "Use 'in' or 'not in' in a condition."

  /** `check_in_operator`: some comparison uses `in` or `not in`. */
  function CheckInOperator(sub: Submission): (r: CheckResult)
    ensures r.name == InOperatorName
    ensures AnalyzeSubmission(sub).Failure? ==> FailWith([r], AnalyzeSubmission(sub).error)
    ensures AnalyzeSubmission(sub).Success? ==>
      var w := Walk(sub.parsed.value); r.passed <==> exists k :: 0 <= k < |w| && IsMembershipTest(w[k].node)
  {
    match AnalyzeSubmission(sub)
    case Failure(err) => CheckResult(InOperatorName, false, err)
    case Success(info) =>
      InOperatorFlag(sub.parsed.value);
      CheckResult(InOperatorName, info.usesInOperator, InOperatorHint)
  }

  /** The flag of the analysis: some comparison uses `in` or `not in`. */
  lemma InOperatorFlag(tree: Node)
    ensures var w := Walk(tree); AnalysisOf(tree).usesInOperator <==> exists k :: 0 <= k < |w| && IsMembershipTest(w[k].node)
  {
    MembershipTestFound(Walk(tree));
  }

  const StringMethodsName := "Use .strip() / .lower() / .upper() (Week 3)"
  const StringMethodsHint := "Call one of these on a string, e.g., name.strip().lower()."

  /** `check_string_methods`: some call of an attribute named `strip`, `lower` or `upper`. */
  function CheckStringMethods(sub: Submission): (r: CheckResult)
    ensures r.name == StringMethodsName
    ensures AnalyzeSubmission(sub).Failure? ==> FailWith([r], AnalyzeSubmission(sub).error)
    ensures AnalyzeSubmission(sub).Success? ==>
      var w := Walk(sub.parsed.value); r.passed <==> exists k :: 0 <= k < |w| && IsStringMethodCall(w[k].node)
  {
    match AnalyzeSubmission(sub)
    case Failure(err) => CheckResult(StringMethodsName, false, err)
    case Success(info) =>
      StringMethodsFlag(sub.parsed.value);
      CheckResult(StringMethodsName, info.usesStringMethod, StringMethodsHint)
  }

  /** The flag of the analysis: some call is of a method named `strip`, `lower` or `upper`. */
  lemma StringMethodsFlag(tree: Node)
    ensures var w := Walk(tree); AnalysisOf(tree).usesStringMethod <==> exists k :: 0 <= k < |w| && IsStringMethodCall(w[k].node)
  {
    StringMethodCallFound(Walk(tree));
  }

  const ForLoopName := "Use a for loop (Week 3)"
  const ForLoopHint := "Add a for loop over a list or range(...)."

  /** `check_for_loop`: some `for` statement. */
  function CheckForLoop(sub: Submission): (r: CheckResult)
    ensures r.name == ForLoopName
    ensures AnalyzeSubmission(sub).Failure? ==> FailWith([r], AnalyzeSubmission(sub).error)
    ensures AnalyzeSubmission(sub).Success? ==>
      var w := Walk(sub.parsed.value); r.passed <==> exists k :: 0 <= k < |w| && w[k].node.For?
  {
    match AnalyzeSubmission(sub)
    case Failure(err) => CheckResult(ForLoopName, false, err)
    case Success(info) =>
      ForLoopFlag(sub.parsed.value);
      CheckResult(ForLoopName, info.hasForLoop, ForLoopHint)
  }

  /** The flag of the analysis: some statement is a `for` loop. */
  lemma ForLoopFlag(tree: Node)
    ensures var w := Walk(tree); AnalysisOf(tree).hasForLoop <==> exists k :: 0 <= k < |w| && w[k].node.For?
  {
    ForLoopFound(Walk(tree));
  }

  const NestedIfName := "Nested conditionals (Week 3)"
  const NestedIfHint := "Place an if-statement inside another if-statement's body."

  /** `check_nested_conditionals`: some `if` with an `if` directly in its body. */
  function CheckNestedConditionals(sub: Submission): (r: CheckResult)
    ensures r.name == NestedIfName
    ensures AnalyzeSubmission(sub).Failure? ==> FailWith([r], AnalyzeSubmission(sub).error)
    ensures AnalyzeSubmission(sub).Success? ==>
      var w := Walk(sub.parsed.value); r.passed <==> exists k :: 0 <= k < |w| && IsNestedIf(w[k].node)
  {
    match AnalyzeSubmission(sub)
    case Failure(err) => CheckResult(NestedIfName, false, err)
    case Success(info) =>
      NestedIfFlag(sub.parsed.value);
      CheckResult(NestedIfName, info.hasNestedIf, NestedIfHint)
  }

  /** The flag of the analysis: some `if` has an `if` directly in its body. */
  lemma NestedIfFlag(tree: Node)
    ensures var w := Walk(tree); AnalysisOf(tree).hasNestedIf <==> exists k :: 0 <= k < |w| && IsNestedIf(w[k].node)
  {
    NestedIfFound(Walk(tree));
  }

  const BoolOpName := "Use 'and' or 'or' (Week 2–3)"
  const ComparisonName := "Use a comparison like '==' (Week 2–3)"
  const PrintBooleanName := "Print a Boolean (literal or expression) (Week 2–3)"
  const BoolOpHint := "Include boolean logic in a condition."
  const ComparisonHint := "Compare values, e.g., color == 'blue'."
  const PrintBooleanHint := "Do: print(True) / print(False) or print(name == 'alex')."

  /**
   * `check_boolean_logic_and_comparisons`: an `and` or an `or`, a
   * comparison, and a print with a boolean literal or booleanish argument.
   */
  function CheckBooleanLogicAndComparisons(sub: Submission): (r: seq<CheckResult>)
    ensures |r| == 3 && r[0].name == BoolOpName && r[1].name == ComparisonName && r[2].name == PrintBooleanName
    ensures AnalyzeSubmission(sub).Failure? ==> FailWith(r, AnalyzeSubmission(sub).error)
    ensures AnalyzeSubmission(sub).Success? ==>
      var w := Walk(sub.parsed.value);
      (r[0].passed <==> exists k :: 0 <= k < |w| && w[k].node.BoolOp?) &&
      (r[1].passed <==> exists k :: 0 <= k < |w| && w[k].node.Compare?) &&
      (r[2].passed <==> exists k :: 0 <= k < |w| && IsPrintOfBoolean(w[k].node))
  {
    match AnalyzeSubmission(sub)
    case Failure(err) =>
      [CheckResult(BoolOpName, false, err), CheckResult(ComparisonName, false, err), CheckResult(PrintBooleanName, false, err)]
    case Success(info) =>
      BoolOpFlag(sub.parsed.value);
      ComparisonFlag(sub.parsed.value);
      PrintBooleanFlag(sub.parsed.value);
      [CheckResult(BoolOpName, info.usesBoolOpAnd || info.usesBoolOpOr, BoolOpHint),
       CheckResult(ComparisonName, info.hasComparison, ComparisonHint),
       CheckResult(PrintBooleanName, info.printsBoolean, PrintBooleanHint)]
  }

  /** The first item of the analysis: an `and` or an `or` anywhere in the tree. */
  lemma BoolOpFlag(tree: Node)
    ensures var a := AnalysisOf(tree); var w := Walk(tree);
      a.usesBoolOpAnd || a.usesBoolOpOr <==> exists k :: 0 <= k < |w| && w[k].node.BoolOp?
  {
    BoolOpEitherKind(Walk(tree));
  }

  /** The flag of the analysis: some comparison anywhere in the tree. */
  lemma ComparisonFlag(tree: Node)
    ensures var w := Walk(tree); AnalysisOf(tree).hasComparison <==> exists k :: 0 <= k < |w| && w[k].node.Compare?
  {
    ComparisonFound(Walk(tree));
  }

  /** The flag of the analysis: some `print` call with a boolean literal or booleanish argument. */
  lemma PrintBooleanFlag(tree: Node)
    ensures var w := Walk(tree); AnalysisOf(tree).printsBoolean <==> exists k :: 0 <= k < |w| && IsPrintOfBoolean(w[k].node)
  {
    PrintOfBooleanFound(Walk(tree));
  }

  /** A boolean operator is an `and` or an `or`, so "and or or" is "any boolean operator". */
  lemma BoolOpEitherKind(w: seq<Visit>)
    ensures (Occurs(w, |w|, AndOperator) || Occurs(w, |w|, OrOperator)) <==> exists k :: 0 <= k < |w| && w[k].node.BoolOp?
  {
    AndOperatorFound(w);
    OrOperatorFound(w);
    if exists k :: 0 <= k < |w| && w[k].node.BoolOp? {
      var k :| 0 <= k < |w| && w[k].node.BoolOp?;
      assert Matches(w[k].node, AndOperator) || Matches(w[k].node, OrOperator);
    }
  }
}
