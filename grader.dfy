/**
 * The rubric and `grade_file`: every check is run in rubric order, each of
 * its items counts once, and the report gives the score and, in order, the
 * messages of the failing items that have one.
 */
module Grader {
  import opened Wrappers
  import opened Text
  import opened Harness
  import opened Checks

  /** What one rubric function returns: one item, or a list of items. */
  datatype Outcome = Single(result: CheckResult) | Many(results: seq<CheckResult>)

  /** The check a rubric entry runs. */
  datatype CheckKind =
    | FileExists | HeaderComment | LineLength | AstStructures | Runtime | CommentsPresent
    | InputBothWays | VariablesAndStrings | ListsAndRandomness | InOperator | StringMethods
    | ForLoop | NestedConditionals | BooleanLogicAndComparisons

  /** The key each check is listed under in `RUBRIC`. */
  function Key(kind: CheckKind): string {
    match kind
    case FileExists => "exists"
    case HeaderComment => "header"
    case LineLength => "linelen"
    case AstStructures => "ast"
    case Runtime => "runtime"
    case CommentsPresent => "comments"
    case InputBothWays => "input_both"
    case VariablesAndStrings => "vars_strings"
    case ListsAndRandomness => "lists_random"
    case InOperator => "in_op"
    case StringMethods => "str_methods"
    case ForLoop => "for_loop"
    case NestedConditionals => "nested_if"
    case BooleanLogicAndComparisons => "bool_logic_cmp_print"
  }

  /** The default `limit` of `check_line_length`, which the rubric uses. */
  const LineLimit := 100

  /** `RUBRIC`: the checks in the order they are run; `grade_file` does not use the keys. */
  const Rubric: seq<CheckKind> := [
    FileExists, HeaderComment, LineLength, AstStructures, Runtime,
    CommentsPresent, InputBothWays, VariablesAndStrings, ListsAndRandomness, InOperator,
    StringMethods, ForLoop, NestedConditionals, BooleanLogicAndComparisons
  ]

  /** What the rubric's function for `kind` returns for the submission. */
  function RunCheck(kind: CheckKind, sub: Submission): Outcome {
    match kind
    case FileExists => Single(CheckFileExists(sub))
    case HeaderComment => Single(CheckHeaderComment(sub))
    case LineLength => Single(CheckLineLength(sub, LineLimit))
    case AstStructures => Single(CheckAstStructures(sub))
    case Runtime => Many(CheckRuntime(sub))
    case CommentsPresent => Single(CheckCommentsPresent(sub))
    case InputBothWays => Many(CheckInputBothWays(sub))
    case VariablesAndStrings => Many(CheckVariablesAndStrings(sub))
    case ListsAndRandomness => Many(CheckListsAndRandomness(sub))
    case InOperator => Single(CheckInOperator(sub))
    case StringMethods => Single(CheckStringMethods(sub))
    case ForLoop => Single(CheckForLoop(sub))
    case NestedConditionals => Single(CheckNestedConditionals(sub))
    case BooleanLogicAndComparisons => Many(CheckBooleanLogicAndComparisons(sub))
  }

  function OutcomeItems(out: Outcome): seq<CheckResult> {
    match out
    case Single(r) => [r]
    case Many(rs) => rs
  }

  /** The items of the first `n` rubric entries, in order. */
  function FlattenUpTo(sub: Submission, n: nat): seq<CheckResult>
    requires n <= |Rubric|
  {
    if n == 0 then [] else FlattenUpTo(sub, n - 1) + OutcomeItems(RunCheck(Rubric[n - 1], sub))
  }

  lemma FlattenNext(sub: Submission, i: nat, res: Outcome)
    requires i < |Rubric| && res == RunCheck(Rubric[i], sub)
    ensures FlattenUpTo(sub, i + 1) == FlattenUpTo(sub, i) + OutcomeItems(res)
  {
  }

  /** How many items the rubric entry for `kind` contributes: the list checks give two or three, the others one. */
  function ItemCount(kind: CheckKind): nat {
    match kind
    case Runtime => 3
    case InputBothWays => 2
    case VariablesAndStrings => 3
    case ListsAndRandomness => 2
    case BooleanLogicAndComparisons => 3
    case _ => 1
  }

  /** Every check returns its fixed number of items, whatever the submission, error or not. */
  lemma EntryItemCount(kind: CheckKind, sub: Submission)
    ensures |OutcomeItems(RunCheck(kind, sub))| == ItemCount(kind)
  {
  }

  /** How many items the first `n` rubric entries contribute. */
  function ItemsUpTo(n: nat): nat
    requires n <= |Rubric|
  {
    if n == 0 then 0 else ItemsUpTo(n - 1) + ItemCount(Rubric[n - 1])
  }

  lemma {:induction false} FlattenLength(sub: Submission, n: nat)
    requires n <= |Rubric|
    ensures |FlattenUpTo(sub, n)| == ItemsUpTo(n)
  {
    if n > 0 {
      FlattenLength(sub, n - 1);
      EntryItemCount(Rubric[n - 1], sub);
    }
  }

  /** The rubric's fourteen entries give 22 items; the partial sums are taken two entries at a time. */
  lemma RubricItemTotal()
    ensures ItemsUpTo(|Rubric|) == 22
  {
    assert ItemsUpTo(2) == 2;
    assert ItemsUpTo(4) == 4;
    assert ItemsUpTo(6) == 8;
    assert ItemsUpTo(8) == 13;
    assert ItemsUpTo(10) == 16;
    assert ItemsUpTo(12) == 18;
  }

  /** Every submission is graded on the same 22 items. */
  lemma TwentyTwoItems(sub: Submission)
    ensures |FlattenUpTo(sub, |Rubric|)| == 22
  {
    FlattenLength(sub, |Rubric|);
    RubricItemTotal();
  }

  /** How many of `rs` passed. */
  function CountPassed(rs: seq<CheckResult>): (n: nat)
    ensures n <= |rs|
  {
    if rs == [] then 0 else CountPassed(rs[..|rs| - 1]) + (if rs[|rs| - 1].passed then 1 else 0)
  }

  /** Every item passed exactly when the count is the number of items, and none did exactly when it is zero. */
  lemma {:induction false} CountPassedBounds(rs: seq<CheckResult>)
    ensures CountPassed(rs) == |rs| <==> forall k :: 0 <= k < |rs| ==> rs[k].passed
    ensures CountPassed(rs) == 0 <==> forall k :: 0 <= k < |rs| ==> !rs[k].passed
  {
    if rs != [] {
      var init := rs[..|rs| - 1];
      CountPassedBounds(init);
      assert forall k :: 0 <= k < |init| ==> init[k] == rs[k];
    }
  }

  lemma {:induction false} CountPassedAppend(a: seq<CheckResult>, b: seq<CheckResult>)
    ensures CountPassed(a + b) == CountPassed(a) + CountPassed(b)
    decreases |b|
  {
    if b != [] {
      var ab := a + b;
      assert ab[..|ab| - 1] == a + b[..|b| - 1];
      assert ab[|ab| - 1] == b[|b| - 1];
      CountPassedAppend(a, b[..|b| - 1]);
    } else {
      assert a + b == a;
    }
  }

  /** The hints: the failed items that carry a non-empty message, in order (line 525). */
  function Failed(rs: seq<CheckResult>): (f: seq<CheckResult>)
    ensures |f| <= |rs|
  {
    if rs == [] then []
    else
      var last := rs[|rs| - 1];
      Failed(rs[..|rs| - 1]) + (if !last.passed && last.message != "" then [last] else [])
  }

  /** The hints are exactly the failed items that carry a message. */
  lemma {:induction false} FailedMembers(rs: seq<CheckResult>)
    ensures forall r :: r in Failed(rs) <==> r in rs && !r.passed && r.message != ""
  {
    if rs != [] {
      var init := rs[..|rs| - 1];
      FailedMembers(init);
      assert rs == init + [rs[|rs| - 1]];
    }
  }

  /** Hints keep the order of the items: the hints of a concatenation are the hints of each part, in order. */
  lemma {:induction false} FailedAppend(a: seq<CheckResult>, b: seq<CheckResult>)
    ensures Failed(a + b) == Failed(a) + Failed(b)
    decreases |b|
  {
    if b == [] {
      assert a + b == a;
    } else {
      var ab := a + b;
      var init, last := b[..|b| - 1], b[|b| - 1];
      var tail := if !last.passed && last.message != "" then [last] else [];
      assert ab[..|ab| - 1] == a + init;
      assert ab[|ab| - 1] == last;
      assert Failed(ab) == Failed(a + init) + tail;
      FailedAppend(a, init);
      assert Failed(b) == Failed(init) + tail;
      assert Failed(a) + Failed(init) + tail == Failed(a) + (Failed(init) + tail);
    }
  }

  function ScoreLine(passed: nat, total: nat): string {
    "Score: " + IntToString(passed) + "/" + IntToString(total) + " items"
  }

  /** What `grade_file` reports: every item, the two counts, the score line, whether it is full marks, the hints. */
  datatype Report = Report(
    results: seq<CheckResult>,
    passedItems: nat,
    totalItems: nat,
    scoreLine: string,
    fullScore: bool,
    hints: seq<CheckResult>)

  /**
   * `grade_file`: the tally over the rubric and the hint list. The report
   * holds the items of all rubric entries in order, the number that passed
   * and the number there are, and the failed items with a message.
   */
  method GradeFile(sub: Submission) returns (report: Report)
    ensures report.results == FlattenUpTo(sub, |Rubric|)
    ensures report.totalItems == |report.results| == 22
    ensures report.passedItems == CountPassed(report.results)
    ensures report.scoreLine == ScoreLine(report.passedItems, report.totalItems)
    ensures report.fullScore <==> forall k :: 0 <= k < |report.results| ==> report.results[k].passed
    ensures report.hints == Failed(report.results)
  {
    var allResults, totalItems, passedItems := TallyRubric(sub);
    var failed := CollectHints(allResults);
    CountPassedBounds(allResults);
    TwentyTwoItems(sub);
    report := Report(allResults, passedItems, totalItems, ScoreLine(passedItems, totalItems),
                     passedItems == totalItems, failed);
  }

  /** The tally loop of `grade_file`: every rubric entry is run in order and its items are counted. */
  method TallyRubric(sub: Submission) returns (allResults: seq<CheckResult>, totalItems: nat, passedItems: nat)
    ensures allResults == FlattenUpTo(sub, |Rubric|)
    ensures totalItems == |allResults| && passedItems == CountPassed(allResults)
  {
    totalItems, passedItems := 0, 0;
    allResults := [];
    for i := 0 to |Rubric|
      invariant allResults == FlattenUpTo(sub, i)
      invariant totalItems == |allResults|
      invariant passedItems == CountPassed(allResults)
    {
      var res := RunCheck(Rubric[i], sub);
      FlattenNext(sub, i, res);
      allResults, totalItems, passedItems := TallyOutcome(res, allResults, totalItems, passedItems);
    }
  }

  /** One step of the tally: a list of items is counted item by item, a single item on its own. */
  method TallyOutcome(res: Outcome, allResults: seq<CheckResult>, totalItems: nat, passedItems: nat)
    returns (allResults': seq<CheckResult>, totalItems': nat, passedItems': nat)
    requires totalItems == |allResults| && passedItems == CountPassed(allResults)
    ensures allResults' == allResults + OutcomeItems(res)
    ensures totalItems' == |allResults'| && passedItems' == CountPassed(allResults')
  {
    match res
    case Many(results) =>
      allResults', totalItems', passedItems' := TallyItems(results, allResults, totalItems, passedItems);
    case Single(r) =>
      totalItems' := totalItems + 1;
      passedItems' := passedItems;
      if r.passed {
        passedItems' := passedItems' + 1;
      }
      CountPassedAppend(allResults, [r]);
      allResults' := allResults + [r];
  }

  /** The inner loop of `grade_file` over a list of items: each is appended, counted, and counted as passed if it passed. */
  method TallyItems(results: seq<CheckResult>, allResults: seq<CheckResult>, totalItems: nat, passedItems: nat)
    returns (allResults': seq<CheckResult>, totalItems': nat, passedItems': nat)
    requires totalItems == |allResults| && passedItems == CountPassed(allResults)
    ensures allResults' == allResults + results
    ensures totalItems' == |allResults'| && passedItems' == CountPassed(allResults')
  {
    allResults', totalItems', passedItems' := allResults, totalItems, passedItems;
    for j := 0 to |results|
      invariant allResults' == allResults + results[..j]
      invariant totalItems' == |allResults'|
      invariant passedItems' == CountPassed(allResults')
    {
      var res := results[j];
      totalItems' := totalItems' + 1;
      if res.passed {
        passedItems' := passedItems' + 1;
      }
      assert results[..j + 1] == results[..j] + [res];
      CountPassedAppend(allResults', [res]);
      allResults' := allResults' + [res];
    }
    assert results[..|results|] == results;
  }

  /** The hint list of `grade_file`: the failed items that carry a message, in order. */
  method CollectHints(allResults: seq<CheckResult>) returns (failed: seq<CheckResult>)
    ensures failed == Failed(allResults)
  {
    failed := [];
    for k := 0 to |allResults|
      invariant failed == Failed(allResults[..k])
    {
      var res := allResults[k];
      assert allResults[..k + 1][..k] == allResults[..k];
      if !res.passed && res.message != "" {
        failed := failed + [res];
      }
    }
    assert allResults[..|allResults|] == allResults;
  }
}
