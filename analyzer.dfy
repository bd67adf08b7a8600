/**
 * The structural analyzer: the elif-chain count, the walk in
 * `check_ast_structures`, and `build_analysis` with its feature record.
 * Each loop of the autograder is a method proved equal to a specification
 * function; the specification functions say what every flag means in terms
 * of the nodes a walk reaches.
 */
module Analyzer {
  import opened Wrappers
  import opened PyAst

  // =====================================================================
  // Parsing
  // =====================================================================

  const UnreadableError := "Could not read file."
  const SyntaxErrorPrefix := "SyntaxError: "

  /**
   * `parse_tree(src)`. Python's own parser is not part of this model:
   * `parsed` is what `ast.parse(src)` gives, a tree or the text of the
   * `SyntaxError` it raises. The caller tests the error with `if err:`, which
   * is only sound because a failure never carries empty text.
   */
  function ParseTree(src: string, parsed: Result<Node, string>): (r: Result<Node, string>)
    ensures r.Success? <==> src != "" && parsed.Success?
    ensures r.Success? ==> r.value == parsed.value
    ensures r.Failure? ==> r.error != ""
    ensures src != "" && parsed.Failure? ==> r.error == SyntaxErrorPrefix + parsed.error
  {
    if src == "" then Failure(UnreadableError)
    else match parsed
      case Success(tree) => Success(tree)
      case Failure(e) => Failure(SyntaxErrorPrefix + e)
  }

  // =====================================================================
  // Elif chains
  // =====================================================================

  /** An elif link: an `if` whose `orelse` holds exactly one statement, itself an `if` (the loop test of lines 57 and 141). */
  predicate IsElifLink(n: Node) {
    n.If? && |n.orelse| == 1 && n.orelse[0].If?
  }

  /** How many elif links follow one another from `n`. */
  function ElifCount(n: Node): nat {
    if IsElifLink(n) then 1 + ElifCount(n.orelse[0]) else 0
  }

  /** The node reached from `n` after following `k` elif links (or fewer, if the chain stops). */
  function Follow(n: Node, k: nat): Node {
    if k == 0 || !IsElifLink(n) then n else Follow(n.orelse[0], k - 1)
  }

  /** The last node of the chain that starts at `n`. */
  function ChainEnd(n: Node): (e: Node)
    ensures !IsElifLink(e)
    ensures n.If? ==> e.If?
  {
    if IsElifLink(n) then ChainEnd(n.orelse[0]) else n
  }

  /** The chain ends in a real `else`: a non-empty `orelse` whose first statement is not an `if` (line 143). */
  predicate HasFinalElse(e: Node) {
    e.If? && |e.orelse| > 0 && !e.orelse[0].If?
  }

  /** An if/elif/else chain with at least two elifs starts at `n`. */
  predicate IsElifElseChain(n: Node) {
    n.If? && ElifCount(n) >= 2 && HasFinalElse(ChainEnd(n))
  }

  /** The first `k` nodes along the chain from `n` are all elif links. */
  predicate LinksUpTo(n: Node, k: nat) {
    forall i :: 0 <= i < k ==> IsElifLink(Follow(n, i))
  }

  /**
   * The count is exactly the length of the run of elif links: the first `k`
   * nodes along the chain are links and the next one is not. An empty else,
   * an else of several statements or an else that is not an `if` stops it.
   */
  lemma {:induction false} ElifCountIsLinkRun(n: Node, k: nat)
    ensures ElifCount(n) == k <==> LinksUpTo(n, k) && !IsElifLink(Follow(n, k))
  {
    if IsElifLink(n) && k > 0 {
      var c := n.orelse[0];
      ElifCountIsLinkRun(c, k - 1);
      FollowStep(n, k);
      if LinksUpTo(c, k - 1) {
        forall i | 0 <= i < k ensures IsElifLink(Follow(n, i)) {
          if i > 0 { FollowStep(n, i); }
        }
      }
      if LinksUpTo(n, k) {
        forall i | 0 <= i < k - 1 ensures IsElifLink(Follow(c, i)) {
          FollowStep(n, i + 1);
        }
      }
    } else if k > 0 {
      assert Follow(n, 0) == n;
    }
  }

  lemma FollowStep(n: Node, i: nat)
    requires IsElifLink(n) && i > 0
    ensures Follow(n, i) == Follow(n.orelse[0], i - 1)
  {
  }

  /** The chain's end is the node reached after following all of its links. */
  lemma {:induction false} ChainEndFollowsAllLinks(n: Node)
    ensures ChainEnd(n) == Follow(n, ElifCount(n))
  {
    if IsElifLink(n) {
      ChainEndFollowsAllLinks(n.orelse[0]);
    }
  }

  /** `count_elif_chain`: walk down the chain one link at a time. */
  method CountElifChain(ifNode: Node) returns (count: nat)
    requires ifNode.If?
    ensures count == ElifCount(ifNode)
    ensures LinksUpTo(ifNode, count) && !IsElifLink(Follow(ifNode, count))
  {
    count := 0;
    var node := ifNode;
    while |node.orelse| > 0 && |node.orelse| == 1 && node.orelse[0].If?
      invariant node.If?
      invariant count + ElifCount(node) == ElifCount(ifNode)
      decreases node
    {
      count := count + 1;
      node := node.orelse[0];
    }
    ElifCountIsLinkRun(ifNode, count);
  }

  /** A chain of two elif links down to `last`, which is not a link itself. */
  lemma TwoLinksDownTo(a: Node, b: Node, x: Node, y: Node, last: Node)
    requires last.If? && !IsElifLink(last)
    ensures var top := If(a, [x], [If(b, [y], [last])]);
      ElifCount(top) == 2 && ChainEnd(top) == last
  {
    var mid := If(b, [y], [last]);
    assert ElifCount(last) == 0 && ChainEnd(last) == last;
    assert ElifCount(mid) == 1 && ChainEnd(mid) == last;
  }

  /** `if a: x elif b: y elif c: z else: w` is a chain with two elifs; without its `else` it is not. */
  lemma TwoElifChain(a: Node, b: Node, c: Node, x: Node, y: Node, z: Node, w: Node)
    requires !w.If?
    ensures IsElifElseChain(If(a, [x], [If(b, [y], [If(c, [z], [w])])]))
    ensures !IsElifElseChain(If(a, [x], [If(b, [y], [If(c, [z], [])])]))
  {
    TwoLinksDownTo(a, b, x, y, If(c, [z], [w]));
    TwoLinksDownTo(a, b, x, y, If(c, [z], []));
  }

  /**
   * Only the first statement of the final `else` is looked at: a final
   * `else` of two statements, the first not an `if`, still completes the chain.
   */
  lemma TwoStatementElseCompletesChain(a: Node, b: Node, c: Node, x: Node, y: Node, z: Node, w1: Node, w2: Node)
    requires !w1.If?
    ensures IsElifElseChain(If(a, [x], [If(b, [y], [If(c, [z], [w1, w2])])]))
  {
    TwoLinksDownTo(a, b, x, y, If(c, [z], [w1, w2]));
  }

  /** The inner loop of `check_ast_structures` that finds the chain's last `if`. */
  method FindChainEnd(ifNode: Node) returns (end: Node)
    requires ifNode.If?
    ensures end.If? && !IsElifLink(end)
    ensures end == Follow(ifNode, ElifCount(ifNode))
  {
    end := ifNode;
    while |end.orelse| > 0 && |end.orelse| == 1 && end.orelse[0].If?
      invariant end.If?
      invariant ChainEnd(end) == ChainEnd(ifNode)
      decreases end
    {
      end := end.orelse[0];
    }
    ChainEndFollowsAllLinks(ifNode);
  }

  // =====================================================================
  // What one node shows
  // =====================================================================

  predicate IsCallTo(n: Node, name: string) {
    n.Call? && n.func.Name? && n.func.id == name
  }

  predicate IsStrLiteral(e: Node) {
    e.Constant? && e.literal.StrLit?
  }

  predicate IsBoolLiteral(e: Node) {
    e.Constant? && e.literal.BoolLit?
  }

  /** `_is_booleanish`: a comparison, a boolean combination, or `not`. */
  predicate IsBooleanish(e: Node) {
    e.Compare? || e.BoolOp? || (e.UnaryOp? && e.unaryOp == Not)
  }

  /** `is_stry`: a string literal or a name known to hold a string. */
  predicate IsStringy(e: Node, strVars: set<string>) {
    IsStrLiteral(e) || (e.Name? && e.id in strVars)
  }

  /** Some argument of a print call is a boolean literal or a booleanish expression (lines 285-287). */
  predicate HasBooleanArg(args: seq<Node>) {
    exists a :: a in args && (IsBoolLiteral(a) || IsBooleanish(a))
  }

  /** Some argument of a print call is the bare name of a string variable (lines 349-351). */
  predicate HasStrVarArg(args: seq<Node>, strVars: set<string>) {
    exists a :: a in args && a.Name? && a.id in strVars
  }

  /** A non-empty list of elements that are all string literals (line 304). */
  predicate AllStrLiterals(elts: seq<Node>) {
    |elts| > 0 && forall e :: e in elts ==> IsStrLiteral(e)
  }

  /** Some statement directly in the body is an `if` (line 311). */
  predicate HasIfStatement(body: seq<Node>) {
    exists s :: s in body && s.If?
  }

  /** Some operator of a comparison is `in` or `not in` (line 322). */
  predicate HasMembershipOp(ops: seq<CmpOperator>) {
    exists o :: o in ops && (o == In || o == NotIn)
  }

  /** The names the checks look for: the `random` module, its `choice`, `input`, `print` and the string methods. */
  const RandomModule := "random"
  const ChoiceFunction := "choice"
  const StarImport := "*"
  const InputFunction := "input"
  const PrintFunction := "print"
  const StringMethodNames: set<string> := {"strip", "lower", "upper"}

  predicate IsStringMethodName(attr: string) {
    attr in StringMethodNames
  }

  /** The names an assignment of a string literal makes string variables (plain-name targets only). */
  function StrTargetNames(n: Node): set<string> {
    if n.Assign? && IsStrLiteral(n.value) then set t | t in n.targets && t.Name? :: t.id else {}
  }

  /** The constructs the autograder looks for, one per flag. */
  datatype Feature =
    | IfStatement | IfWithElse | ElifElseChain | OrOperator | AndOperator
    | StringMethodCall | RandomChoiceCall | PrintOfBoolean | RandomImport | ChoiceImport
    | StringListLiteral | ForLoop | NestedIf | Comparison | MembershipTest
    | PrintOfStringVar(vars: set<string>) | StringConcatenation(vars: set<string>)

  predicate IsStringMethodCall(n: Node) {
    n.Call? && n.func.Attribute? && IsStringMethodName(n.func.attr)
  }

  /** `random.choice(...)` or a bare `choice(...)`. */
  predicate IsRandomChoiceCall(n: Node) {
    n.Call? &&
    ((n.func.Attribute? && n.func.attr == ChoiceFunction && n.func.value.Name? && n.func.value.id == RandomModule) ||
     (n.func.Name? && n.func.id == ChoiceFunction))
  }

  predicate IsPrintOfBoolean(n: Node) {
    IsCallTo(n, PrintFunction) && HasBooleanArg(n.args)
  }

  predicate IsRandomImport(n: Node) {
    n.Import? && RandomModule in n.names
  }

  /** `from random import choice` or `from random import *`. */
  predicate IsChoiceImport(n: Node) {
    n.ImportFrom? && n.fromModule == Some(RandomModule) && (ChoiceFunction in n.names || StarImport in n.names)
  }

  predicate IsStringList(n: Node) {
    n.List? && AllStrLiterals(n.elts)
  }

  predicate IsNestedIf(n: Node) {
    n.If? && HasIfStatement(n.body)
  }

  predicate IsMembershipTest(n: Node) {
    n.Compare? && HasMembershipOp(n.ops)
  }

  predicate IsPrintOfStrVar(n: Node, vars: set<string>) {
    IsCallTo(n, PrintFunction) && HasStrVarArg(n.args, vars)
  }

  predicate IsStringConcat(n: Node, vars: set<string>) {
    n.BinOp? && n.binOp == Add && (IsStringy(n.left, vars) || IsStringy(n.right, vars))
  }

  /** Whether node `n` by itself shows feature `f`. */
  predicate Matches(n: Node, f: Feature) {
    match f
    case IfStatement => n.If?
    case IfWithElse => n.If? && |n.orelse| > 0
    case ElifElseChain => IsElifElseChain(n)
    case OrOperator => n.BoolOp? && n.boolOp == Or
    case AndOperator => n.BoolOp? && n.boolOp == And
    case StringMethodCall => IsStringMethodCall(n)
    case RandomChoiceCall => IsRandomChoiceCall(n)
    case PrintOfBoolean => IsPrintOfBoolean(n)
    case RandomImport => IsRandomImport(n)
    case ChoiceImport => IsChoiceImport(n)
    case StringListLiteral => IsStringList(n)
    case ForLoop => n.For?
    case NestedIf => IsNestedIf(n)
    case Comparison => n.Compare?
    case MembershipTest => IsMembershipTest(n)
    case PrintOfStringVar(vars) => IsPrintOfStrVar(n, vars)
    case StringConcatenation(vars) => IsStringConcat(n, vars)
  }

  // =====================================================================
  // What a walk shows
  // =====================================================================
  // Each function below looks at the first `n` visits of a walk `w`, the
  // way a loop over the walk has seen them after `n` steps.

  /** Some of the first `n` visits reaches a node that shows `f`. */
  predicate Occurs(w: seq<Visit>, n: nat, f: Feature)
    requires n <= |w|
  {
    n > 0 && (Occurs(w, n - 1, f) || Matches(w[n - 1].node, f))
  }

  /** What `Occurs` means: some visit among the first `n` reaches a node that shows `f`. */
  lemma {:induction false} OccursIff(w: seq<Visit>, n: nat, f: Feature)
    requires n <= |w|
    ensures Occurs(w, n, f) <==> exists k :: 0 <= k < n && Matches(w[k].node, f)
  {
    if n > 0 {
      OccursIff(w, n - 1, f);
    }
  }

  // `OccursIff` for each feature in turn, with the feature's own predicate
  // in place of `Matches`.

  lemma IfStatementFound(w: seq<Visit>)
    ensures Occurs(w, |w|, IfStatement) <==> exists k :: 0 <= k < |w| && w[k].node.If?
  {
    OccursIff(w, |w|, IfStatement);
  }

  lemma IfWithElseFound(w: seq<Visit>)
    ensures Occurs(w, |w|, IfWithElse) <==> exists k :: 0 <= k < |w| && w[k].node.If? && |w[k].node.orelse| > 0
  {
    OccursIff(w, |w|, IfWithElse);
  }

  lemma ElifElseChainFound(w: seq<Visit>)
    ensures Occurs(w, |w|, ElifElseChain) <==> exists k :: 0 <= k < |w| && IsElifElseChain(w[k].node)
  {
    OccursIff(w, |w|, ElifElseChain);
  }

  lemma OrOperatorFound(w: seq<Visit>)
    ensures Occurs(w, |w|, OrOperator) <==> exists k :: 0 <= k < |w| && w[k].node.BoolOp? && w[k].node.boolOp == Or
  {
    OccursIff(w, |w|, OrOperator);
  }

  lemma AndOperatorFound(w: seq<Visit>)
    ensures Occurs(w, |w|, AndOperator) <==> exists k :: 0 <= k < |w| && w[k].node.BoolOp? && w[k].node.boolOp == And
  {
    OccursIff(w, |w|, AndOperator);
  }

  lemma StringMethodCallFound(w: seq<Visit>)
    ensures Occurs(w, |w|, StringMethodCall) <==> exists k :: 0 <= k < |w| && IsStringMethodCall(w[k].node)
  {
    OccursIff(w, |w|, StringMethodCall);
  }

  lemma RandomChoiceCallFound(w: seq<Visit>)
    ensures Occurs(w, |w|, RandomChoiceCall) <==> exists k :: 0 <= k < |w| && IsRandomChoiceCall(w[k].node)
  {
    OccursIff(w, |w|, RandomChoiceCall);
  }

  lemma PrintOfBooleanFound(w: seq<Visit>)
    ensures Occurs(w, |w|, PrintOfBoolean) <==> exists k :: 0 <= k < |w| && IsPrintOfBoolean(w[k].node)
  {
    OccursIff(w, |w|, PrintOfBoolean);
  }

  lemma RandomImportFound(w: seq<Visit>)
    ensures Occurs(w, |w|, RandomImport) <==> exists k :: 0 <= k < |w| && IsRandomImport(w[k].node)
  {
    OccursIff(w, |w|, RandomImport);
  }

  lemma ChoiceImportFound(w: seq<Visit>)
    ensures Occurs(w, |w|, ChoiceImport) <==> exists k :: 0 <= k < |w| && IsChoiceImport(w[k].node)
  {
    OccursIff(w, |w|, ChoiceImport);
  }

  lemma StringListLiteralFound(w: seq<Visit>)
    ensures Occurs(w, |w|, StringListLiteral) <==> exists k :: 0 <= k < |w| && IsStringList(w[k].node)
  {
    OccursIff(w, |w|, StringListLiteral);
  }

  lemma ForLoopFound(w: seq<Visit>)
    ensures Occurs(w, |w|, ForLoop) <==> exists k :: 0 <= k < |w| && w[k].node.For?
  {
    OccursIff(w, |w|, ForLoop);
  }

  lemma NestedIfFound(w: seq<Visit>)
    ensures Occurs(w, |w|, NestedIf) <==> exists k :: 0 <= k < |w| && IsNestedIf(w[k].node)
  {
    OccursIff(w, |w|, NestedIf);
  }

  lemma ComparisonFound(w: seq<Visit>)
    ensures Occurs(w, |w|, Comparison) <==> exists k :: 0 <= k < |w| && w[k].node.Compare?
  {
    OccursIff(w, |w|, Comparison);
  }

  lemma MembershipTestFound(w: seq<Visit>)
    ensures Occurs(w, |w|, MembershipTest) <==> exists k :: 0 <= k < |w| && IsMembershipTest(w[k].node)
  {
    OccursIff(w, |w|, MembershipTest);
  }

  lemma PrintOfStringVarFound(w: seq<Visit>, vars: set<string>)
    ensures Occurs(w, |w|, PrintOfStringVar(vars)) <==> exists k :: 0 <= k < |w| && IsPrintOfStrVar(w[k].node, vars)
  {
    OccursIff(w, |w|, PrintOfStringVar(vars));
  }

  lemma StringConcatenationFound(w: seq<Visit>, vars: set<string>)
    ensures Occurs(w, |w|, StringConcatenation(vars)) <==> exists k :: 0 <= k < |w| && IsStringConcat(w[k].node, vars)
  {
    OccursIff(w, |w|, StringConcatenation(vars));
  }

  /** One more visit shows a list, an import or a `choice` call exactly when the visits before did or the new node does. */
  lemma ListAndRandomStep(w: seq<Visit>, i: nat)
    requires i < |w|
    ensures Occurs(w, i + 1, StringListLiteral) == (Occurs(w, i, StringListLiteral) || IsStringList(w[i].node))
    ensures Occurs(w, i + 1, RandomImport) == (Occurs(w, i, RandomImport) || IsRandomImport(w[i].node))
    ensures Occurs(w, i + 1, ChoiceImport) == (Occurs(w, i, ChoiceImport) || IsChoiceImport(w[i].node))
    ensures Occurs(w, i + 1, RandomChoiceCall) == (Occurs(w, i, RandomChoiceCall) || IsRandomChoiceCall(w[i].node))
  {
  }

  /** The same for membership tests, string methods, `for` loops and nested `if`s. */
  lemma StatementStep(w: seq<Visit>, i: nat)
    requires i < |w|
    ensures Occurs(w, i + 1, MembershipTest) == (Occurs(w, i, MembershipTest) || IsMembershipTest(w[i].node))
    ensures Occurs(w, i + 1, StringMethodCall) == (Occurs(w, i, StringMethodCall) || IsStringMethodCall(w[i].node))
    ensures Occurs(w, i + 1, ForLoop) == (Occurs(w, i, ForLoop) || w[i].node.For?)
    ensures Occurs(w, i + 1, NestedIf) == (Occurs(w, i, NestedIf) || IsNestedIf(w[i].node))
  {
  }

  /** The same for boolean operators, comparisons and prints of booleans. */
  lemma BooleanStep(w: seq<Visit>, i: nat)
    requires i < |w|
    ensures Occurs(w, i + 1, AndOperator) == (Occurs(w, i, AndOperator) || (w[i].node.BoolOp? && w[i].node.boolOp == And))
    ensures Occurs(w, i + 1, OrOperator) == (Occurs(w, i, OrOperator) || (w[i].node.BoolOp? && w[i].node.boolOp == Or))
    ensures Occurs(w, i + 1, Comparison) == (Occurs(w, i, Comparison) || w[i].node.Compare?)
    ensures Occurs(w, i + 1, PrintOfBoolean) == (Occurs(w, i, PrintOfBoolean) || IsPrintOfBoolean(w[i].node))
  {
  }

  /** How many of the first `n` visits reach an `input(...)` call (the length of `calls_input`, line 340). */
  function InputCalls(w: seq<Visit>, n: nat): nat
    requires n <= |w|
  {
    if n == 0 then 0 else InputCalls(w, n - 1) + (if IsCallTo(w[n - 1].node, InputFunction) then 1 else 0)
  }

  /** How many of those calls lie inside an assigned value (`assigned_input_nodes`). */
  function SavedInputCalls(w: seq<Visit>, n: nat): nat
    requires n <= |w|
  {
    if n == 0 then 0 else SavedInputCalls(w, n - 1) + (if IsCallTo(w[n - 1].node, InputFunction) && w[n - 1].inValue then 1 else 0)
  }

  /** How many of those calls lie outside every assigned value. */
  function UnsavedInputCalls(w: seq<Visit>, n: nat): nat
    requires n <= |w|
  {
    if n == 0 then 0 else UnsavedInputCalls(w, n - 1) + (if IsCallTo(w[n - 1].node, InputFunction) && !w[n - 1].inValue then 1 else 0)
  }

  /** Every input call is either saved or not: the two counts add up to the total. */
  lemma {:induction false} InputCallsPartition(w: seq<Visit>, n: nat)
    requires n <= |w|
    ensures InputCalls(w, n) == SavedInputCalls(w, n) + UnsavedInputCalls(w, n)
  {
    if n > 0 {
      InputCallsPartition(w, n - 1);
    }
  }

  lemma {:induction false} SavedInputCallsPositive(w: seq<Visit>, n: nat)
    requires n <= |w|
    ensures SavedInputCalls(w, n) >= 1 <==> exists k :: 0 <= k < n && IsCallTo(w[k].node, InputFunction) && w[k].inValue
  {
    if n > 0 {
      SavedInputCallsPositive(w, n - 1);
    }
  }

  lemma {:induction false} UnsavedInputCallsPositive(w: seq<Visit>, n: nat)
    requires n <= |w|
    ensures UnsavedInputCalls(w, n) >= 1 <==> exists k :: 0 <= k < n && IsCallTo(w[k].node, InputFunction) && !w[k].inValue
  {
    if n > 0 {
      UnsavedInputCallsPositive(w, n - 1);
    }
  }

  /** `str_vars`: every name the first `n` visits see assigned a string literal. */
  function StrVars(w: seq<Visit>, n: nat): set<string>
    requires n <= |w|
  {
    if n == 0 then {} else StrVars(w, n - 1) + StrTargetNames(w[n - 1].node)
  }

  lemma {:induction false} StrVarsIff(w: seq<Visit>, n: nat, x: string)
    requires n <= |w|
    ensures x in StrVars(w, n) <==> exists k :: 0 <= k < n && x in StrTargetNames(w[k].node)
  {
    if n > 0 {
      StrVarsIff(w, n - 1, x);
    }
  }

  // =====================================================================
  // check_ast_structures
  // =====================================================================

  datatype Structures = Structures(hasIf: bool, hasIfElse: bool, hasElifElseChain: bool, hasOr: bool)

  function StructuresOf(tree: Node): Structures {
    var w := Walk(tree);
    Structures(Occurs(w, |w|, IfStatement), Occurs(w, |w|, IfWithElse), Occurs(w, |w|, ElifElseChain), Occurs(w, |w|, OrOperator))
  }

  /** Each structure is found exactly when some node of the walk shows it. */
  lemma StructuresMeaning(tree: Node)
    ensures var s := StructuresOf(tree); var w := Walk(tree);
      (s.hasIf <==> exists k :: 0 <= k < |w| && w[k].node.If?) &&
      (s.hasIfElse <==> exists k :: 0 <= k < |w| && w[k].node.If? && |w[k].node.orelse| > 0) &&
      (s.hasElifElseChain <==> exists k :: 0 <= k < |w| && IsElifElseChain(w[k].node)) &&
      (s.hasOr <==> exists k :: 0 <= k < |w| && w[k].node.BoolOp? && w[k].node.boolOp == Or)
  {
    var w := Walk(tree);
    IfStatementFound(w);
    IfWithElseFound(w);
    ElifElseChainFound(w);
    OrOperatorFound(w);
  }

  /** The loop of `check_ast_structures` over `ast.walk(tree)`. */
  method ScanStructures(tree: Node) returns (s: Structures)
    ensures s == StructuresOf(tree)
  {
    var w := Walk(tree);
    var hasIf, hasIfElse, hasChain, hasOr := false, false, false, false;
    for i := 0 to |w|
      invariant hasIf == Occurs(w, i, IfStatement)
      invariant hasIfElse == Occurs(w, i, IfWithElse)
      invariant hasChain == Occurs(w, i, ElifElseChain)
      invariant hasOr == Occurs(w, i, OrOperator)
    {
      var node := w[i].node;
      if node.If? {
        hasIf := true;
        if |node.orelse| > 0 {
          hasIfElse := true;
        }
        var elifCount := CountElifChain(node);
        var end := FindChainEnd(node);
        ChainEndFollowsAllLinks(node);
        var hasFinalElse := |end.orelse| > 0 && !end.orelse[0].If?;
        if elifCount >= 2 && hasFinalElse {
          hasChain := true;
        }
      }
      if node.BoolOp? && node.boolOp == Or {
        hasOr := true;
      }
    }
    s := Structures(hasIf, hasIfElse, hasChain, hasOr);
  }

  // =====================================================================
  // build_analysis
  // =====================================================================

  /** The `info` record of `build_analysis`; the node list and node set it keeps are kept here as counts. */
  datatype Analysis = Analysis(
    inputCalls: nat,
    savedInputCalls: nat,
    strVars: set<string>,
    listOfStringsExists: bool,
    importRandom: bool,
    importFromRandomChoice: bool,
    usesRandomChoice: bool,
    usesInOperator: bool,
    usesStringMethod: bool,
    hasForLoop: bool,
    hasNestedIf: bool,
    usesBoolOpAnd: bool,
    usesBoolOpOr: bool,
    hasComparison: bool,
    printsBoolean: bool,
    printsStringVar: bool,
    concatenatesStrings: bool,
    hasInputSaved: bool,
    hasInputUnsaved: bool,
    randomChoiceOk: bool)

  /** What `build_analysis` computes for a tree, flag by flag. */
  function AnalysisOf(tree: Node): (a: Analysis)
    ensures a.savedInputCalls <= a.inputCalls
    ensures a.inputCalls == 0 ==> !a.hasInputSaved && !a.hasInputUnsaved
  {
    var w := Walk(tree);
    var vars := StrVars(w, |w|);
    InputCallsPartition(w, |w|);
    var total := InputCalls(w, |w|);
    var saved := SavedInputCalls(w, |w|);
    var usesChoice := Occurs(w, |w|, RandomChoiceCall);
    var importRandom := Occurs(w, |w|, RandomImport);
    var importChoice := Occurs(w, |w|, ChoiceImport);
    Analysis(
      total, saved, vars,
      Occurs(w, |w|, StringListLiteral), importRandom, importChoice, usesChoice,
      Occurs(w, |w|, MembershipTest), Occurs(w, |w|, StringMethodCall), Occurs(w, |w|, ForLoop), Occurs(w, |w|, NestedIf),
      Occurs(w, |w|, AndOperator), Occurs(w, |w|, OrOperator), Occurs(w, |w|, Comparison), Occurs(w, |w|, PrintOfBoolean),
      Occurs(w, |w|, PrintOfStringVar(vars)), Occurs(w, |w|, StringConcatenation(vars)),
      saved >= 1, total - saved >= 1,
      usesChoice && (importRandom || importChoice))
  }

  /**
   * Saved and unsaved input: an `input(...)` call counts as saved exactly when
   * it lies inside an assigned value, and the two kinds add up to all calls.
   */
  lemma InputFlagsMeaning(tree: Node)
    ensures var a := AnalysisOf(tree); var w := Walk(tree);
      (a.hasInputSaved <==> exists k :: 0 <= k < |w| && IsCallTo(w[k].node, InputFunction) && w[k].inValue) &&
      (a.hasInputUnsaved <==> exists k :: 0 <= k < |w| && IsCallTo(w[k].node, InputFunction) && !w[k].inValue) &&
      a.inputCalls == a.savedInputCalls + UnsavedInputCalls(w, |w|)
  {
    var w := Walk(tree);
    InputCallsPartition(w, |w|);
    SavedInputCallsPositive(w, |w|);
    UnsavedInputCallsPositive(w, |w|);
  }

  /** Every `input(...)` call in the value of an assignment is saved, however deeply it is wrapped. */
  lemma {:induction false} AssignedValueInputsSaved(value: Node)
    ensures SavedInputCalls(WalkFrom(value, true), |WalkFrom(value, true)|) == InputCalls(WalkFrom(value, true), |WalkFrom(value, true)|)
  {
    WalkFromValueMarked(value);
    AllMarkedSaved(WalkFrom(value, true), |WalkFrom(value, true)|);
  }

  lemma {:induction false} AllMarkedSaved(w: seq<Visit>, n: nat)
    requires n <= |w|
    requires forall k :: 0 <= k < n ==> w[k].inValue
    ensures SavedInputCalls(w, n) == InputCalls(w, n)
  {
    if n > 0 {
      AllMarkedSaved(w, n - 1);
    }
  }

  /** Without any import of `random` or of `choice`, the choice check never passes. */
  lemma ChoiceWithoutImportFails(tree: Node)
    requires forall k :: 0 <= k < |Walk(tree)| ==> !Walk(tree)[k].node.Import? && !Walk(tree)[k].node.ImportFrom?
    ensures !AnalysisOf(tree).randomChoiceOk
  {
    var w := Walk(tree);
    RandomImportFound(w);
    ChoiceImportFound(w);
  }

  /**
   * The `ast.Call` branch of the first walk of `build_analysis`: a string
   * method, a `choice` call, a print of a boolean, an `input` call.
   */
  method ObserveCall(n: Node, stringMethod: bool, randomChoice: bool, printsBool: bool, inputs: nat)
    returns (stringMethod': bool, randomChoice': bool, printsBool': bool, inputs': nat)
    requires n.Call?
    ensures stringMethod' == (stringMethod || IsStringMethodCall(n))
    ensures randomChoice' == (randomChoice || IsRandomChoiceCall(n))
    ensures printsBool' == (printsBool || IsPrintOfBoolean(n))
    ensures inputs' == inputs + (if IsCallTo(n, InputFunction) then 1 else 0)
  {
    stringMethod', randomChoice', printsBool', inputs' := stringMethod, randomChoice, printsBool, inputs;
    var func, args := n.func, n.args;
    if func.Attribute? && IsStringMethodName(func.attr) {
      stringMethod' := true;
    }
    if func.Attribute? && func.attr == ChoiceFunction {
      if func.value.Name? && func.value.id == RandomModule {
        randomChoice' := true;
      }
    }
    if func.Name? && func.id == ChoiceFunction {
      randomChoice' := true;
    }
    if func.Name? && func.id == PrintFunction {
      if HasBooleanArg(args) {
        printsBool' := true;
      }
    }
    if func.Name? && func.id == InputFunction {
      inputs' := inputs' + 1;
    }
  }

  /**
   * One step of the first walk of `build_analysis`: what visiting node `n`
   * adds to the flags, the input count and the string variables found so far
   * (the primed results are the values after the visit).
   */
  method ObserveNode(n: Node, inputs: nat, strVars: set<string>,
                     stringList: bool, importRandom: bool, importChoice: bool, randomChoice: bool,
                     inOperator: bool, stringMethod: bool, forLoop: bool, nestedIf: bool,
                     boolAnd: bool, boolOr: bool, comparison: bool, printsBool: bool)
    returns (inputs': nat, strVars': set<string>,
             stringList': bool, importRandom': bool, importChoice': bool, randomChoice': bool,
             inOperator': bool, stringMethod': bool, forLoop': bool, nestedIf': bool,
             boolAnd': bool, boolOr': bool, comparison': bool, printsBool': bool)
    ensures inputs' == inputs + (if IsCallTo(n, InputFunction) then 1 else 0)
    ensures strVars' == strVars + StrTargetNames(n)
    ensures stringList' == (stringList || IsStringList(n))
    ensures importRandom' == (importRandom || IsRandomImport(n))
    ensures importChoice' == (importChoice || IsChoiceImport(n))
    ensures randomChoice' == (randomChoice || IsRandomChoiceCall(n))
    ensures inOperator' == (inOperator || IsMembershipTest(n))
    ensures stringMethod' == (stringMethod || IsStringMethodCall(n))
    ensures forLoop' == (forLoop || n.For?)
    ensures nestedIf' == (nestedIf || IsNestedIf(n))
    ensures boolAnd' == (boolAnd || (n.BoolOp? && n.boolOp == And))
    ensures boolOr' == (boolOr || (n.BoolOp? && n.boolOp == Or))
    ensures comparison' == (comparison || n.Compare?)
    ensures printsBool' == (printsBool || IsPrintOfBoolean(n))
  {
    inputs', strVars' := inputs, strVars;
    stringList', importRandom', importChoice', randomChoice' := stringList, importRandom, importChoice, randomChoice;
    inOperator', stringMethod', forLoop', nestedIf' := inOperator, stringMethod, forLoop, nestedIf;
    boolAnd', boolOr', comparison', printsBool' := boolAnd, boolOr, comparison, printsBool;
    match n {
      case Call(_, _, _) =>
        stringMethod', randomChoice', printsBool', inputs' := ObserveCall(n, stringMethod, randomChoice, printsBool, inputs);
      case Import(names) =>
        if RandomModule in names {
          importRandom' := true;
        }
      case ImportFrom(fromModule, names) =>
        if fromModule == Some(RandomModule) {
          if ChoiceFunction in names || StarImport in names {
            importChoice' := true;
          }
        }
      case List(elts) =>
        if AllStrLiterals(elts) {
          stringList' := true;
        }
      case For(_, _, _, _) =>
        forLoop' := true;
      case If(_, body, _) =>
        if HasIfStatement(body) {
          nestedIf' := true;
        }
      case BoolOp(op, _) =>
        if op == And {
          boolAnd' := true;
        }
        if op == Or {
          boolOr' := true;
        }
      case Compare(_, ops, _) =>
        comparison' := true;
        if HasMembershipOp(ops) {
          inOperator' := true;
        }
      case Assign(targets, value) =>
        if value.Constant? && value.literal.StrLit? {
          strVars' := strVars + (set t | t in targets && t.Name? :: t.id);
        }
      case _ =>
    }
  }

  /** The first walk of `build_analysis`: the flags, the input calls and the string variables. */
  method FirstWalk(w: seq<Visit>)
    returns (inputs: nat, strVars: set<string>,
             stringList: bool, importRandom: bool, importChoice: bool, randomChoice: bool,
             inOperator: bool, stringMethod: bool, forLoop: bool, nestedIf: bool,
             boolAnd: bool, boolOr: bool, comparison: bool, printsBool: bool)
    ensures inputs == InputCalls(w, |w|) && strVars == StrVars(w, |w|)
    ensures stringList == Occurs(w, |w|, StringListLiteral)
    ensures importRandom == Occurs(w, |w|, RandomImport)
    ensures importChoice == Occurs(w, |w|, ChoiceImport)
    ensures randomChoice == Occurs(w, |w|, RandomChoiceCall)
    ensures inOperator == Occurs(w, |w|, MembershipTest)
    ensures stringMethod == Occurs(w, |w|, StringMethodCall)
    ensures forLoop == Occurs(w, |w|, ForLoop)
    ensures nestedIf == Occurs(w, |w|, NestedIf)
    ensures boolAnd == Occurs(w, |w|, AndOperator)
    ensures boolOr == Occurs(w, |w|, OrOperator)
    ensures comparison == Occurs(w, |w|, Comparison)
    ensures printsBool == Occurs(w, |w|, PrintOfBoolean)
  {
    inputs, strVars := 0, {};
    stringList, importRandom, importChoice, randomChoice := false, false, false, false;
    inOperator, stringMethod, forLoop, nestedIf := false, false, false, false;
    boolAnd, boolOr, comparison, printsBool := false, false, false, false;
    for i := 0 to |w|
      invariant inputs == InputCalls(w, i) && strVars == StrVars(w, i)
      invariant stringList == Occurs(w, i, StringListLiteral)
      invariant importRandom == Occurs(w, i, RandomImport)
      invariant importChoice == Occurs(w, i, ChoiceImport)
      invariant randomChoice == Occurs(w, i, RandomChoiceCall)
      invariant inOperator == Occurs(w, i, MembershipTest)
      invariant stringMethod == Occurs(w, i, StringMethodCall)
      invariant forLoop == Occurs(w, i, ForLoop)
      invariant nestedIf == Occurs(w, i, NestedIf)
      invariant boolAnd == Occurs(w, i, AndOperator)
      invariant boolOr == Occurs(w, i, OrOperator)
      invariant comparison == Occurs(w, i, Comparison)
      invariant printsBool == Occurs(w, i, PrintOfBoolean)
    {
      ListAndRandomStep(w, i);
      StatementStep(w, i);
      BooleanStep(w, i);
      inputs, strVars, stringList, importRandom, importChoice, randomChoice,
      inOperator, stringMethod, forLoop, nestedIf, boolAnd, boolOr, comparison, printsBool :=
        ObserveNode(w[i].node, inputs, strVars, stringList, importRandom, importChoice, randomChoice,
                    inOperator, stringMethod, forLoop, nestedIf, boolAnd, boolOr, comparison, printsBool);
    }
  }

  /** The second walk of `build_analysis`: the input calls that sit inside an assigned value. */
  method SavedWalk(w: seq<Visit>) returns (saved: nat)
    ensures saved == SavedInputCalls(w, |w|)
  {
    saved := 0;
    for i := 0 to |w|
      invariant saved == SavedInputCalls(w, i)
    {
      if w[i].inValue && IsCallTo(w[i].node, InputFunction) {
        saved := saved + 1;
      }
    }
  }

  /** The third walk of `build_analysis`: printing a string variable, concatenating strings. */
  method StringUseWalk(w: seq<Visit>, strVars: set<string>) returns (printsStrVar: bool, concatenates: bool)
    ensures printsStrVar == Occurs(w, |w|, PrintOfStringVar(strVars))
    ensures concatenates == Occurs(w, |w|, StringConcatenation(strVars))
  {
    printsStrVar, concatenates := false, false;
    for i := 0 to |w|
      invariant printsStrVar == Occurs(w, i, PrintOfStringVar(strVars))
      invariant concatenates == Occurs(w, i, StringConcatenation(strVars))
    {
      var node := w[i].node;
      if node.Call? && node.func.Name? && node.func.id == PrintFunction {
        if HasStrVarArg(node.args, strVars) {
          printsStrVar := true;
        }
      }
      if node.BinOp? && node.binOp == Add {
        if IsStringy(node.left, strVars) || IsStringy(node.right, strVars) {
          concatenates := true;
        }
      }
    }
  }

  /** `build_analysis` after the file is read and parsed: its three walks over the tree. */
  method BuildAnalysis(tree: Node) returns (info: Analysis)
    ensures info == AnalysisOf(tree)
  {
    var w := Walk(tree);
    var inputs, strVars, stringList, importRandom, importChoice, randomChoice,
        inOperator, stringMethod, forLoop, nestedIf, boolAnd, boolOr, comparison, printsBool := FirstWalk(w);

    var saved := SavedWalk(w);
    InputCallsPartition(w, |w|);
    var hasSaved := saved >= 1;
    var hasUnsaved := inputs - saved >= 1;
    var printsStrVar, concatenates := StringUseWalk(w, strVars);
    var randomChoiceOk := randomChoice && (importRandom || importChoice);
    info := Analysis(
      inputs, saved, strVars,
      stringList, importRandom, importChoice, randomChoice,
      inOperator, stringMethod, forLoop, nestedIf,
      boolAnd, boolOr, comparison, printsBool,
      printsStrVar, concatenates,
      hasSaved, hasUnsaved,
      randomChoiceOk);
  }
}
