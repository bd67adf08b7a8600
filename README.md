# Chatbot autograder, modelled in Dafny

This project models the grading engine of `public_assignments/a2_autograde_chatbot.py`. That is the
autograder students run on their `chatbot.py`. It grades one submission file on a rubric of fourteen
checks that together give 22 items, and reports a score line `Score: passed/total items` and a list of
hints.

The model has seven modules:

- `Wrappers` (`wrappers.dfy`): `Option` and `Result`.
- `Text` (`text.dfy`): the string operations the checks rely on. These are `str.splitlines` (with and
  without line ends), `str.strip`, `str.lower` (on ASCII letters only), `str.count`, the `in` substring
  test, `str(int)` and the `repr` of a list of ints.
- `PyAst` (`pyast.dfy`): the part of Python's syntax tree the checks look at, as a closed datatype, and
  `ast.walk`. Every visit of a walk records whether the node lies inside the value of an `Assign` or
  `AnnAssign`.
- `Analyzer` (`analyzer.dfy`): `parse_tree`, `count_elif_chain`, the loop of `check_ast_structures` and
  the three walks of `build_analysis`. Each loop is a method proved equal to a specification function.
  For each flag, a lemma says exactly which nodes make it true.
- `Harness` (`harness.dfy`): `run_program_with_inputs`, covering:
  - the padded list of scripted answers;
  - the mocked `input`, a class over an array with a cursor and a call counter;
  - the way a run that ends normally, with `SystemExit`, with the mock's `StopIteration` or with any
    other exception becomes the triple `(output, error, input_calls)`.
- `Checks` (`checks.dfy`): every `check_*` function of the rubric, as functions from what is known
  about a submission to `CheckResult` items.
- `Grader` (`grader.dfy`): `RUBRIC` and the tally and hint list of `grade_file`, as methods proved
  against specification functions.

A submission is the record `Checks.Submission`. It holds:

- whether the file exists;
- the text `safe_read` returns;
- what Python's parser gives for that text;
- whether the triple-quoted-block pattern matches;
- what the program does when run, as a sequence of steps (print text that may depend on the answers
  read so far, call `input`, raise `SystemExit`, raise another exception with its traceback text).

The walk yields the node itself, then the walk from each of its children in field order
(`PyAst.WalkFromUnfolds`). It reaches exactly the node and what lies below it through child links
(`PyAst.WalkReachesExactly`). Each occurrence of a node in the tree is therefore one visit. Where the
source counts nodes by identity, as `assigned_input_nodes` does, the model counts these visits.

Lines 141-143 examine only the first statement of the final `else`. So a final `else` of two
statements whose first is not an `if` still completes an if/elif/elif/else chain
(`Analyzer.TwoStatementElseCompletesChain`).

## Model

| member | source | states |
|---|---|---|
| Analyzer.ParseTree | public_assignments/a2_autograde_chatbot.py:62-68 | a tree exactly when the text is non-empty and Python parses it; the error text is never empty, so `if err:` always sees it; a syntax error is reported as "SyntaxError: " followed by the parser's message |
| Analyzer.ElifCountIsLinkRun | public_assignments/a2_autograde_chatbot.py:53-60 | the elif count is k exactly when the first k nodes down the chain each have an `orelse` of exactly one `if`, and the next node does not; an empty, multi-statement or non-`if` `orelse` stops the count |
| Analyzer.CountElifChain | public_assignments/a2_autograde_chatbot.py:53-60 | the `while` loop returns the elif count, with the same link-run characterisation |
| Analyzer.ChainEndFollowsAllLinks | public_assignments/a2_autograde_chatbot.py:140-142 | the chain's last `if` is the node reached by following all of its elif links |
| Analyzer.FindChainEnd | public_assignments/a2_autograde_chatbot.py:140-142 | the inner `while` loop stops at an `if` that is not an elif link, reached after exactly the elif-count links |
| Analyzer.TwoLinksDownTo | public_assignments/a2_autograde_chatbot.py:53-60 | an `if` whose `orelse` is one `if` whose `orelse` is one final `if` has elif count 2 and ends at that final `if` |
| Analyzer.TwoElifChain | public_assignments/a2_autograde_chatbot.py:139-146 | `if/elif/elif/else` is found as a chain with two elifs; removing the final `else` loses it |
| Analyzer.TwoStatementElseCompletesChain | public_assignments/a2_autograde_chatbot.py:141-145 | a final `else` of two statements whose first is not an `if` still completes the chain |
| Analyzer.OccursIff | public_assignments/a2_autograde_chatbot.py:272-330 | a flag the walk sets after n visits is true exactly when one of those n visits reaches a node showing the feature |
| Analyzer.IfStatementFound | public_assignments/a2_autograde_chatbot.py:133-134 | `has_if` holds exactly when the walk reaches some `if` |
| Analyzer.IfWithElseFound | public_assignments/a2_autograde_chatbot.py:136-137 | `has_if_else` holds exactly when some `if` has a non-empty `orelse` |
| Analyzer.ElifElseChainFound | public_assignments/a2_autograde_chatbot.py:139-146 | the chain flag holds exactly when some `if` reached by the walk, elif links included, starts a chain with two or more elifs and a final non-`if` else |
| Analyzer.OrOperatorFound | public_assignments/a2_autograde_chatbot.py:148-149 | the `or` flag holds exactly when some boolean operation is an `or` |
| Analyzer.AndOperatorFound | public_assignments/a2_autograde_chatbot.py:314-316 | `uses_boolop_and` holds exactly when some boolean operation is an `and` |
| Analyzer.StringMethodCallFound | public_assignments/a2_autograde_chatbot.py:275-276 | `uses_string_method` holds exactly when some call is of an attribute named strip, lower or upper |
| Analyzer.RandomChoiceCallFound | public_assignments/a2_autograde_chatbot.py:278-282 | `uses_random_choice` holds exactly when some call is `random.choice(...)` or a bare `choice(...)` |
| Analyzer.PrintOfBooleanFound | public_assignments/a2_autograde_chatbot.py:284-287 | the print-boolean flag holds exactly when some `print` call has a boolean literal, comparison, boolean operation or `not` among its arguments |
| Analyzer.RandomImportFound | public_assignments/a2_autograde_chatbot.py:292-295 | `import_random` holds exactly when some `import` names `random` |
| Analyzer.ChoiceImportFound | public_assignments/a2_autograde_chatbot.py:297-301 | `importfrom_random_choice` holds exactly when some `from random import` names `choice` or `*` |
| Analyzer.StringListLiteralFound | public_assignments/a2_autograde_chatbot.py:303-305 | `list_of_strings_exists` holds exactly when some list display is non-empty and holds only string literals |
| Analyzer.ForLoopFound | public_assignments/a2_autograde_chatbot.py:307-308 | `has_for_loop` holds exactly when the walk reaches some `for` |
| Analyzer.NestedIfFound | public_assignments/a2_autograde_chatbot.py:310-312 | `has_nested_if` holds exactly when some `if` has an `if` directly in its body |
| Analyzer.ComparisonFound | public_assignments/a2_autograde_chatbot.py:320-321 | `has_comparison` holds exactly when the walk reaches some comparison |
| Analyzer.MembershipTestFound | public_assignments/a2_autograde_chatbot.py:322-323 | `uses_in_operator` holds exactly when some comparison uses `in` or `not in` |
| Analyzer.PrintOfStringVarFound | public_assignments/a2_autograde_chatbot.py:348-351 | `prints_string_var` holds exactly when some `print` call has a bare name from `str_vars` among its arguments |
| Analyzer.StringConcatenationFound | public_assignments/a2_autograde_chatbot.py:352-358 | `concatenates_strings` holds exactly when some `+` has a string literal or a name from `str_vars` on one side |
| Analyzer.InputCallsPartition | public_assignments/a2_autograde_chatbot.py:340-342 | every `input` call is either saved or unsaved: the two counts add up to the total |
| Analyzer.SavedInputCallsPositive | public_assignments/a2_autograde_chatbot.py:341-343 | the saved count is at least one exactly when some `input` call lies inside an assigned value |
| Analyzer.UnsavedInputCallsPositive | public_assignments/a2_autograde_chatbot.py:342-344 | the unsaved count is at least one exactly when some `input` call lies outside every assigned value |
| Analyzer.StrVarsIff | public_assignments/a2_autograde_chatbot.py:325-330 | a name is in `str_vars` exactly when some assignment of a string literal has that plain name among its targets |
| Analyzer.StructuresMeaning | public_assignments/a2_autograde_chatbot.py:127-149 | each of the four structure flags holds exactly when some node of the walk shows it |
| Analyzer.ScanStructures | public_assignments/a2_autograde_chatbot.py:127-149 | the loop over `ast.walk(tree)` computes exactly the four structure flags |
| Analyzer.AnalysisOf | public_assignments/a2_autograde_chatbot.py:340-344 | saved calls never outnumber all calls; with no `input` call both input flags are false |
| Analyzer.InputFlagsMeaning | public_assignments/a2_autograde_chatbot.py:332-344 | `has_input_saved` and `has_input_unsaved` hold exactly when some `input` call lies inside, or outside, an assigned value; the counts partition the calls |
| Analyzer.AssignedValueInputsSaved | public_assignments/a2_autograde_chatbot.py:333-337 | every `input` call inside an assigned value counts as saved, however deeply wrapped (`x = input().strip()`) |
| Analyzer.ChoiceWithoutImportFails | public_assignments/a2_autograde_chatbot.py:360 | a tree with no import at all never has `random_choice_ok` |
| Analyzer.ObserveCall | public_assignments/a2_autograde_chatbot.py:273-290 | the `ast.Call` branch sets the string-method, choice and print-boolean flags, and counts an `input` call, exactly for the calls that show them |
| Analyzer.ObserveNode | public_assignments/a2_autograde_chatbot.py:272-330 | one visit of the first walk turns each flag on exactly when the node shows its feature, adds one per `input` call and adds the string-assigned names |
| Analyzer.FirstWalk | public_assignments/a2_autograde_chatbot.py:272-330 | the first walk computes the `input` call count, `str_vars` and every first-walk flag as defined over the whole walk |
| Analyzer.SavedWalk | public_assignments/a2_autograde_chatbot.py:333-341 | the second walk counts exactly the `input` calls inside assigned values |
| Analyzer.StringUseWalk | public_assignments/a2_autograde_chatbot.py:347-358 | the third walk computes the print-string-variable and concatenation flags for the `str_vars` found |
| Analyzer.BuildAnalysis | public_assignments/a2_autograde_chatbot.py:251-361 | the three walks produce exactly the analysis record `AnalysisOf(tree)` |
| PyAst.WalkFrom | public_assignments/a2_autograde_chatbot.py:132 | a walk starts at the root and reaches at least that node |
| PyAst.WalkFromUnfolds | public_assignments/a2_autograde_chatbot.py:132 | the walk from a node is that node, then the walk from each of its children in field order; an assigned value's children are marked as inside one |
| PyAst.WalkReachesExactly | public_assignments/a2_autograde_chatbot.py:132 | a visit is in the walk exactly when it is the root or lies below it through child links, with the mark those links give it: the walk reaches every descendant and nothing else |
| PyAst.WalkFromValueMarked | public_assignments/a2_autograde_chatbot.py:333-337 | every node reached inside an assigned value is marked as inside one |
| Text.SplitLines | public_assignments/a2_autograde_chatbot.py:103 | no line holds a line boundary; no lines exactly for the empty text |
| Text.SplitLinesDropsTerminators | public_assignments/a2_autograde_chatbot.py:103 | one line per line of `splitlines(True)`, each being that line without its terminator (one boundary character or "\r\n"); only the last may lack one |
| Text.LinesMatchCons | public_assignments/a2_autograde_chatbot.py:103 | a kept line and its cut line, put in front of two matching lists, keep them matching |
| Text.CutAtBoundary | public_assignments/a2_autograde_chatbot.py:103 | cutting at a boundary character leaves the text before it plus one terminator (that character, or "\r\n") |
| Text.SplitLinesKeepEndsExample | public_assignments/a2_autograde_chatbot.py:206 | "a\n\nb" splits into "a\n", "\n" and "b" |
| Text.SplitLinesKeepEndsConcat | public_assignments/a2_autograde_chatbot.py:206 | the lines with their ends, put back together, are the text |
| Text.Strip | public_assignments/a2_autograde_chatbot.py:369 | the result is a slice with only whitespace outside it and no whitespace at either end |
| Text.Lower | public_assignments/a2_autograde_chatbot.py:215 | same length, each character lower-cased |
| Text.ContainsIsSubstring | public_assignments/a2_autograde_chatbot.py:215 | the `in` test holds exactly when some slice of the text is the needle |
| Text.CountChar | public_assignments/a2_autograde_chatbot.py:213 | the number of positions holding the character (its multiplicity in the text); so at most the length, and zero exactly when it does not occur |
| Text.NatToStringValue | public_assignments/a2_autograde_chatbot.py:108 | the digits `str(n)` gives have decimal value n |
| Harness.PaddedInputs | public_assignments/a2_autograde_chatbot.py:178-182 | the answers in order, followed by `max(0, pad_extra)` copies of the filler |
| Harness.PaddingRepeatsLastAnswer | public_assignments/a2_autograde_chatbot.py:178-181 | without a padding value, the filler is the last answer, or "" when there is none |
| Harness.InputProvider.constructor | public_assignments/a2_autograde_chatbot.py:184 | the mock starts with the scripted answers, nothing handed out and no call counted |
| Harness.InputProvider.Next | public_assignments/a2_autograde_chatbot.py:184 | every call is counted; a call hands out the next answer in order, or raises `StopIteration` once they are used up |
| Harness.RunProgramWithInputs | public_assignments/a2_autograde_chatbot.py:165-193 | running with the mock over the padded answers gives exactly the outcome `Run` defines |
| Harness.RunFromCallsBound | public_assignments/a2_autograde_chatbot.py:184-193 | at most one call past the scripted answers is counted, and when it is, the error is the mock's `StopIteration` |
| Harness.ExitEndsRun | public_assignments/a2_autograde_chatbot.py:186-189 | a `SystemExit` ends the run as a success with what was printed before it |
| Harness.PlainRunCompletes | public_assignments/a2_autograde_chatbot.py:184-193 | a program of prints and reads that has enough answers ends without error, one call per read |
| Harness.PlainRunExhausts | public_assignments/a2_autograde_chatbot.py:184-191 | a program that reads more than there are answers fails with `StopIteration` after one call too many |
| Harness.RaiseBecomesError | public_assignments/a2_autograde_chatbot.py:190-191 | after prints and reads that had enough answers, any other exception becomes the error text, with the calls made before it counted |
| Checks.CheckFileExists | public_assignments/a2_autograde_chatbot.py:74-80 | passes exactly when the file exists; the hint is never empty |
| Checks.MarkerMeaning | public_assignments/a2_autograde_chatbot.py:90-93 | the marker search succeeds exactly when some span is the word, in any letter case, then whitespace, then a colon |
| Checks.CheckHeaderComment | public_assignments/a2_autograde_chatbot.py:82-97 | passes exactly when the first 40 lines hold a program or title marker or any `#`, a name marker and a date marker; unreadable text fails with its own message |
| Checks.LongLines | public_assignments/a2_autograde_chatbot.py:103 | only 1-based numbers of over-long lines, strictly ascending |
| Checks.LongLinesComplete | public_assignments/a2_autograde_chatbot.py:103 | every over-long line is listed |
| Checks.CheckLineLength | public_assignments/a2_autograde_chatbot.py:99-110 | passes exactly when the text is readable and no line exceeds the limit; the failure message lists the first five long lines and ends in "..." exactly when there are more |
| Checks.FirstFiveAreFirst | public_assignments/a2_autograde_chatbot.py:108 | at most five numbers are shown, all of over-long lines, and any long line not shown comes after the fifth |
| Checks.Missing | public_assignments/a2_autograde_chatbot.py:151-155 | nothing is missing exactly when all four structures were found |
| Checks.CheckAstStructures | public_assignments/a2_autograde_chatbot.py:112-163 | unreadable text and syntax errors fail with their own messages; otherwise it passes exactly when the walk finds an `if`, an `if` with an `else`, a two-elif chain and an `or` |
| Checks.StripEmptyIffBlank | public_assignments/a2_autograde_chatbot.py:206 | a line strips to nothing exactly when it is whitespace only |
| Checks.IndentLinesPrefixesNonBlank | public_assignments/a2_autograde_chatbot.py:206 | indenting lines puts the prefix before exactly the lines that are not blank, and changes nothing else |
| Checks.IndentMeaning | public_assignments/a2_autograde_chatbot.py:206 | `textwrap.indent` cuts the text into its lines with their terminators, which together are the text, and puts the prefix before exactly the non-blank ones |
| Checks.IndentTwoSpaces | public_assignments/a2_autograde_chatbot.py:206 | the two-space indent of "a\n\nb" is "  a\n\n  b": the blank line gets no prefix |
| Checks.IndentEmptyPrefix | public_assignments/a2_autograde_chatbot.py:206 | with an empty prefix the text comes back unchanged |
| Checks.AnyEchoedIff | public_assignments/a2_autograde_chatbot.py:215 | the echo test holds exactly when some answer, lower-cased, is a substring of the lower-cased output |
| Checks.CheckRuntimeBehavior | public_assignments/a2_autograde_chatbot.py:205-223 | three items; an error fails all three with the crash and "did not complete" messages; otherwise the first passes, the second exactly when there are three `?` or three `input` calls, the third exactly when a sample answer is echoed |
| Checks.CheckRuntime | public_assignments/a2_autograde_chatbot.py:467-468 | the runtime entry always gives three items |
| Checks.PlainProgramRunsClean | public_assignments/a2_autograde_chatbot.py:201-214 | a program that only prints and reads, at most 24 times, runs clean; three reads pass the question item whatever it prints |
| Checks.TooManyQuestionsCrash | public_assignments/a2_autograde_chatbot.py:182-211 | a 25th read exhausts the four answers and twenty fillers: the run crashes after 25 calls and all three items fail |
| Checks.RunErrorFailsAll | public_assignments/a2_autograde_chatbot.py:205-211 | any run ending with a non-empty error fails all three items |
| Checks.HashCommentMeaning | public_assignments/a2_autograde_chatbot.py:369 | a comment line is one whose first non-blank character is `#` with a non-blank character after it |
| Checks.CheckCommentsPresent | public_assignments/a2_autograde_chatbot.py:365-372 | passes exactly when the text is readable and has a `#` comment line or a triple-quoted block |
| Checks.AnalyzeSubmission | public_assignments/a2_autograde_chatbot.py:243-249 | the analysis exactly when the text is readable and parses; otherwise the read error or the syntax error, never empty |
| Checks.CheckInputBothWays | public_assignments/a2_autograde_chatbot.py:374-384 | two items; on an analysis error both fail with it; otherwise they pass exactly when some `input` call lies inside, and some lies outside, an assigned value |
| Checks.CheckVariablesAndStrings | public_assignments/a2_autograde_chatbot.py:386-402 | three items; on an analysis error all fail with it; otherwise a string-assigned name, a print of one, and a `+` with a string on one side |
| Checks.VariablesAndStringsFlags | public_assignments/a2_autograde_chatbot.py:396-401 | the three analysis flags behind those items mean what the items say |
| Checks.StrVarsNonEmpty | public_assignments/a2_autograde_chatbot.py:396 | `str_vars` is non-empty exactly when some assignment gives a string literal to a plain name |
| Checks.CheckListsAndRandomness | public_assignments/a2_autograde_chatbot.py:404-416 | two items; on an analysis error both fail with it; otherwise a list of string literals, and a `choice` call together with an import of `random` or of `choice` |
| Checks.StringListFlag | public_assignments/a2_autograde_chatbot.py:303-305 | the analysis flag holds exactly when some list display is non-empty and holds only string literals |
| Checks.RandomChoiceFlag | public_assignments/a2_autograde_chatbot.py:360 | `random_choice_ok` holds exactly when there is a `choice` call and an import of `random` or of `choice` from it |
| Checks.CheckInOperator | public_assignments/a2_autograde_chatbot.py:418-423 | one item; fails with the analysis error, else passes exactly when some comparison uses `in` or `not in` |
| Checks.InOperatorFlag | public_assignments/a2_autograde_chatbot.py:320-323 | the analysis flag holds exactly when some comparison uses `in` or `not in` |
| Checks.CheckStringMethods | public_assignments/a2_autograde_chatbot.py:425-430 | one item; fails with the analysis error, else passes exactly when some call is of strip, lower or upper |
| Checks.StringMethodsFlag | public_assignments/a2_autograde_chatbot.py:275-276 | the analysis flag holds exactly when some call is of a method named strip, lower or upper |
| Checks.CheckForLoop | public_assignments/a2_autograde_chatbot.py:432-437 | one item; fails with the analysis error, else passes exactly when there is a `for` loop |
| Checks.ForLoopFlag | public_assignments/a2_autograde_chatbot.py:307-308 | the analysis flag holds exactly when the walk reaches a `for` |
| Checks.CheckNestedConditionals | public_assignments/a2_autograde_chatbot.py:439-444 | one item; fails with the analysis error, else passes exactly when some `if` has an `if` directly in its body |
| Checks.NestedIfFlag | public_assignments/a2_autograde_chatbot.py:310-312 | the analysis flag holds exactly when some `if` has an `if` directly in its body |
| Checks.CheckBooleanLogicAndComparisons | public_assignments/a2_autograde_chatbot.py:446-461 | three items; on an analysis error all fail with it; otherwise a boolean operation, a comparison, and a print of a boolean or booleanish argument |
| Checks.BoolOpFlag | public_assignments/a2_autograde_chatbot.py:455 | "`and` or `or`" holds exactly when the walk reaches any boolean operation |
| Checks.BoolOpEitherKind | public_assignments/a2_autograde_chatbot.py:314-318 | an `and` or an `or` occurs exactly when some boolean operation occurs |
| Checks.ComparisonFlag | public_assignments/a2_autograde_chatbot.py:320-321 | the analysis flag holds exactly when the walk reaches a comparison |
| Checks.PrintBooleanFlag | public_assignments/a2_autograde_chatbot.py:284-287 | the analysis flag holds exactly when some `print` call has a boolean literal or booleanish argument |
| Grader.EntryItemCount | public_assignments/a2_autograde_chatbot.py:470-488 | each rubric entry gives its fixed number of items (three for runtime, two or three for the list checks, one otherwise), error or not |
| Grader.FlattenLength | public_assignments/a2_autograde_chatbot.py:499-517 | the item count after n entries is the sum of their fixed item counts, whatever the submission |
| Grader.RubricItemTotal | public_assignments/a2_autograde_chatbot.py:470-488 | the fourteen rubric entries give 22 items |
| Grader.TwentyTwoItems | public_assignments/a2_autograde_chatbot.py:499-520 | every submission is graded on exactly 22 items |
| Grader.CountPassed | public_assignments/a2_autograde_chatbot.py:508-516 | no more items pass than there are |
| Grader.CountPassedBounds | public_assignments/a2_autograde_chatbot.py:520-521 | full marks exactly when every item passed; zero exactly when none did |
| Grader.CountPassedAppend | public_assignments/a2_autograde_chatbot.py:505-517 | the passed count of a concatenation is the sum of the parts' counts |
| Grader.Failed | public_assignments/a2_autograde_chatbot.py:525 | never more hints than items |
| Grader.FailedMembers | public_assignments/a2_autograde_chatbot.py:525 | the hints are exactly the failed items with a non-empty message |
| Grader.FailedAppend | public_assignments/a2_autograde_chatbot.py:525 | hints keep the order of the items |
| Grader.GradeFile | public_assignments/a2_autograde_chatbot.py:494-530 | the report holds every rubric item in order, 22 in all, the total and passed counts, the score line, full marks exactly when all passed, and the hints |
| Grader.TallyRubric | public_assignments/a2_autograde_chatbot.py:499-517 | the loop over the rubric collects all items in order and counts them and those that passed |
| Grader.TallyOutcome | public_assignments/a2_autograde_chatbot.py:503-517 | a list result is counted item by item, a single result once; both counts stay exact |
| Grader.TallyItems | public_assignments/a2_autograde_chatbot.py:504-510 | the inner loop appends each item and keeps both counts exact |
| Grader.CollectHints | public_assignments/a2_autograde_chatbot.py:525 | the comprehension yields exactly the failed items with a message, in order |

## Left out

- File and process I/O is not modelled: `safe_read`, `os.path.exists`, `runpy.run_module`, `mock.patch` of
  `builtins.input`, `redirect_stdout` and the `sys.path` edit. The file's existence, its text and its run
  are fields of `Submission`.
- Python's parser and `traceback.format_exc` are foreign calls. `Submission.parsed` holds the tree or the
  `SyntaxError` text. An exception's traceback is the text carried by its `Raise` step. The mock's
  `StopIteration` traceback is the fixed text `StopIterationTrace`.
- Running the submission is modelled as a sequence of steps, not as Python. A program that never
  ends cannot be expressed, and the autograder has no timeout for one anyway.
- The triple-quoted-block regex of `check_comments_present` is not modelled. Its result is the
  boolean `Submission.hasDocBlock`.
- A modelled submission never catches an exception. In Python, a submission could catch the mock's
  `StopIteration` or a `SystemExit` (for example with a bare `except:`) and keep printing and reading.
  The model ends the run at the first `input` call past the answers, at `Exit` and at `Raise`.
  `Harness.PlainRunExhausts` and `Checks.TooManyQuestionsCrash` are therefore about submissions that do
  not catch these.
- Letter case is folded for ASCII letters only, in the header markers and in the echo test. Python
  folds every Unicode letter.
- `ast.walk` visits nodes breadth first; the model's walk is pre-order. Every flag is an existence
  test, a count or a set union over all visits, so the order does not change any result.
- Node kinds the checks never inspect are one `Other` node that keeps its children. `Call` keeps its
  keyword arguments' values only.
- `_contains_input_call` (lines 229-234) is never called and is not modelled.
- The ANSI colour helpers, `print_check` and the printing inside `grade_file` are not modelled.
  `main` with its directory listing and argument handling is not modelled either. `GradeFile`
  returns what would be printed as a `Report` value.
- `RUBRIC`'s keys are kept as `Grader.Key`, but `grade_file` never reads them.
- Checks.CheckRuntime: its own contract states only that there are three items. What the items mean
  is stated by `Checks.CheckRuntimeBehavior` and by the lemmas about runs.
- Analyzer.ChoiceWithoutImportFails: its hypothesis is "no import of any kind". The exact condition
  (no import of `random` and no `from random import choice` or `*`) is stated by
  `Checks.RandomChoiceFlag`.
