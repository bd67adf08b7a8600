/**
 * The part of Python's syntax tree the autograder inspects, as a closed set of
 * node kinds, and `ast.walk`, which visits every node of a tree.
 */
module PyAst {
  import opened Wrappers

  /** The value of an `ast.Constant`: the autograder only asks whether it is a `str` or a `bool`. */
  datatype Literal = StrLit(text: string) | BoolLit(truth: bool) | OtherLit

  datatype BoolOperator = And | Or

  datatype CmpOperator = Eq | NotEq | Lt | LtE | Gt | GtE | Is | IsNot | In | NotIn

  datatype BinOperator = Add | Sub | Mult | Div | FloorDiv | Mod | Pow | OtherBinOp

  datatype UnaryOperator = Not | USub | UAdd | Invert

  /**
   * One node per construct the autograder tests for; `Other` stands for every
   * remaining kind (while loops, function definitions, subscripts, ...) and
   * keeps its child nodes so that a walk still reaches what lies inside.
   * Child lists follow the order of the node's fields in Python's `ast`.
   * An `Import` or `ImportFrom` keeps the imported names (`alias.name`);
   * a `Call` keeps its keyword arguments' values.
   */
  datatype Node =
    | Module(body: seq<Node>)
    | If(test: Node, body: seq<Node>, orelse: seq<Node>)
    | For(target: Node, iter: Node, body: seq<Node>, orelse: seq<Node>)
    | Assign(targets: seq<Node>, value: Node)
    | AnnAssign(target: Node, annotation: Node, annValue: Option<Node>)
    | Import(names: seq<string>)
    | ImportFrom(fromModule: Option<string>, names: seq<string>)
    | Expr(value: Node)
    | Call(func: Node, args: seq<Node>, keywords: seq<Node>)
    | Attribute(value: Node, attr: string)
    | Name(id: string)
    | Constant(literal: Literal)
    | List(elts: seq<Node>)
    | BoolOp(boolOp: BoolOperator, values: seq<Node>)
    | Compare(left: Node, ops: seq<CmpOperator>, comparators: seq<Node>)
    | UnaryOp(unaryOp: UnaryOperator, operand: Node)
    | BinOp(left: Node, binOp: BinOperator, right: Node)
    | Other(children: seq<Node>)

  /**
   * One step of a walk: the node reached, and whether it lies inside the
   * value of an `Assign` or `AnnAssign` (the value itself included). A walk
   * reaches every position of the tree once, so a visit stands for one node
   * object of Python's tree.
   */
  datatype Visit = Visit(node: Node, inValue: bool)

  /**
   * The nodes of the tree rooted at `n`, root first, then the children's
   * subtrees in field order. `inValue` says whether `n` already lies inside an
   * assigned value.
   */
  function WalkFrom(n: Node, inValue: bool): (w: seq<Visit>)
    ensures |w| >= 1 && w[0] == Visit(n, inValue)
  {
    [Visit(n, inValue)] +
    match n
    case Module(body) => WalkAll(body, inValue)
    case If(test, body, orelse) => WalkFrom(test, inValue) + WalkAll(body, inValue) + WalkAll(orelse, inValue)
    case For(target, iter, body, orelse) =>
      WalkFrom(target, inValue) + WalkFrom(iter, inValue) + WalkAll(body, inValue) + WalkAll(orelse, inValue)
    case Assign(targets, value) => WalkAll(targets, inValue) + WalkFrom(value, true)
    case AnnAssign(target, annotation, annValue) =>
      WalkFrom(target, inValue) + WalkFrom(annotation, inValue) +
      (match annValue case Some(v) => WalkFrom(v, true) case None => [])
    case Import(_) => []
    case ImportFrom(_, _) => []
    case Expr(value) => WalkFrom(value, inValue)
    case Call(func, args, keywords) => WalkFrom(func, inValue) + WalkAll(args, inValue) + WalkAll(keywords, inValue)
    case Attribute(value, _) => WalkFrom(value, inValue)
    case Name(_) => []
    case Constant(_) => []
    case List(elts) => WalkAll(elts, inValue)
    case BoolOp(_, values) => WalkAll(values, inValue)
    case Compare(left, _, comparators) => WalkFrom(left, inValue) + WalkAll(comparators, inValue)
    case UnaryOp(_, operand) => WalkFrom(operand, inValue)
    case BinOp(left, _, right) => WalkFrom(left, inValue) + WalkFrom(right, inValue)
    case Other(children) => WalkAll(children, inValue)
  }

  function WalkAll(ns: seq<Node>, inValue: bool): (w: seq<Visit>)
    ensures |w| >= |ns|
  {
    if ns == [] then [] else WalkFrom(ns[0], inValue) + WalkAll(ns[1..], inValue)
  }

  /** `ast.walk(tree)`: the whole tree, starting outside any assignment. */
  function Walk(tree: Node): seq<Visit> {
    WalkFrom(tree, false)
  }

  // ---------------------------------------------------------------------
  // What a walk reaches
  // ---------------------------------------------------------------------

  /** The visits of `ns`, all with the same mark. */
  function Marked(ns: seq<Node>, inValue: bool): seq<Visit> {
    seq(|ns|, i requires 0 <= i < |ns| => Visit(ns[i], inValue))
  }

  /**
   * The direct children of a visited node, in field order, each marked as
   * `WalkFrom` marks it: the value of an `Assign` or `AnnAssign` is inside
   * an assigned value, every other child is where its parent is.
   */
  function ChildVisits(v: Visit): (cs: seq<Visit>)
    ensures forall c :: c in cs ==> c.node < v.node
  {
    var b := v.inValue;
    match v.node
    case Module(body) => Marked(body, b)
    case If(test, body, orelse) => [Visit(test, b)] + Marked(body, b) + Marked(orelse, b)
    case For(target, iter, body, orelse) => [Visit(target, b), Visit(iter, b)] + Marked(body, b) + Marked(orelse, b)
    case Assign(targets, value) => Marked(targets, b) + [Visit(value, true)]
    case AnnAssign(target, annotation, annValue) =>
      [Visit(target, b), Visit(annotation, b)] + (match annValue case Some(x) => [Visit(x, true)] case None => [])
    case Import(_) => []
    case ImportFrom(_, _) => []
    case Expr(value) => [Visit(value, b)]
    case Call(func, args, keywords) => [Visit(func, b)] + Marked(args, b) + Marked(keywords, b)
    case Attribute(value, _) => [Visit(value, b)]
    case Name(_) => []
    case Constant(_) => []
    case List(elts) => Marked(elts, b)
    case BoolOp(_, values) => Marked(values, b)
    case Compare(left, _, comparators) => [Visit(left, b)] + Marked(comparators, b)
    case UnaryOp(_, operand) => [Visit(operand, b)]
    case BinOp(left, _, right) => [Visit(left, b), Visit(right, b)]
    case Other(children) => Marked(children, b)
  }

  /** The walks from the given visits, one after another. */
  function WalkVisits(vs: seq<Visit>): seq<Visit> {
    if vs == [] then [] else WalkFrom(vs[0].node, vs[0].inValue) + WalkVisits(vs[1..])
  }

  /** `x` is `root` or lies below it, reached by following child links. */
  ghost predicate Reaches(root: Visit, x: Visit)
    decreases root.node
  {
    x == root || exists c :: c in ChildVisits(root) && Reaches(c, x)
  }

  lemma {:induction false} WalkVisitsAppend(a: seq<Visit>, b: seq<Visit>)
    ensures WalkVisits(a + b) == WalkVisits(a) + WalkVisits(b)
  {
    if a != [] {
      assert (a + b)[1..] == a[1..] + b;
      WalkVisitsAppend(a[1..], b);
    } else {
      assert a + b == b;
    }
  }

  lemma {:induction false} WalkAllIsWalkVisits(ns: seq<Node>, inValue: bool)
    ensures WalkAll(ns, inValue) == WalkVisits(Marked(ns, inValue))
  {
    if ns != [] {
      assert Marked(ns, inValue)[1..] == Marked(ns[1..], inValue);
      WalkAllIsWalkVisits(ns[1..], inValue);
    }
  }

  lemma WalkVisitsOne(v: Visit)
    ensures WalkVisits([v]) == WalkFrom(v.node, v.inValue)
  {
    assert [v][1..] == [];
  }

  /** The walk from a node is the node, then the walk from each of its children, in field order. */
  predicate UnfoldsAt(n: Node, inValue: bool) {
    WalkFrom(n, inValue) == [Visit(n, inValue)] + WalkVisits(ChildVisits(Visit(n, inValue)))
  }

  lemma UnfoldsAtIf(test: Node, body: seq<Node>, orelse: seq<Node>, b: bool)
    ensures UnfoldsAt(If(test, body, orelse), b)
  {
    WalkAllIsWalkVisits(body, b); WalkAllIsWalkVisits(orelse, b); WalkVisitsOne(Visit(test, b));
    WalkVisitsAppend([Visit(test, b)] + Marked(body, b), Marked(orelse, b));
    WalkVisitsAppend([Visit(test, b)], Marked(body, b));
  }

  lemma UnfoldsAtFor(target: Node, iter: Node, body: seq<Node>, orelse: seq<Node>, b: bool)
    ensures UnfoldsAt(For(target, iter, body, orelse), b)
  {
    var head := [Visit(target, b), Visit(iter, b)];
    WalkAllIsWalkVisits(body, b); WalkAllIsWalkVisits(orelse, b);
    WalkVisitsOne(Visit(target, b)); WalkVisitsOne(Visit(iter, b));
    assert head == [Visit(target, b)] + [Visit(iter, b)];
    WalkVisitsAppend([Visit(target, b)], [Visit(iter, b)]);
    WalkVisitsAppend(head + Marked(body, b), Marked(orelse, b));
    WalkVisitsAppend(head, Marked(body, b));
  }

  lemma UnfoldsAtAssign(targets: seq<Node>, value: Node, b: bool)
    ensures UnfoldsAt(Assign(targets, value), b)
  {
    WalkAllIsWalkVisits(targets, b); WalkVisitsOne(Visit(value, true));
    WalkVisitsAppend(Marked(targets, b), [Visit(value, true)]);
  }

  lemma UnfoldsAtAnnAssign(target: Node, annotation: Node, annValue: Option<Node>, b: bool)
    ensures UnfoldsAt(AnnAssign(target, annotation, annValue), b)
  {
    var head := [Visit(target, b), Visit(annotation, b)];
    var tail: seq<Visit> := match annValue case Some(x) => [Visit(x, true)] case None => [];
    WalkVisitsOne(Visit(target, b)); WalkVisitsOne(Visit(annotation, b));
    assert head == [Visit(target, b)] + [Visit(annotation, b)];
    WalkVisitsAppend([Visit(target, b)], [Visit(annotation, b)]);
    if annValue.Some? { WalkVisitsOne(Visit(annValue.value, true)); }
    WalkVisitsAppend(head, tail);
  }

  lemma UnfoldsAtCall(func: Node, args: seq<Node>, keywords: seq<Node>, b: bool)
    ensures UnfoldsAt(Call(func, args, keywords), b)
  {
    WalkAllIsWalkVisits(args, b); WalkAllIsWalkVisits(keywords, b); WalkVisitsOne(Visit(func, b));
    WalkVisitsAppend([Visit(func, b)] + Marked(args, b), Marked(keywords, b));
    WalkVisitsAppend([Visit(func, b)], Marked(args, b));
  }

  lemma UnfoldsAtCompare(left: Node, ops: seq<CmpOperator>, comparators: seq<Node>, b: bool)
    ensures UnfoldsAt(Compare(left, ops, comparators), b)
  {
    WalkAllIsWalkVisits(comparators, b); WalkVisitsOne(Visit(left, b));
    WalkVisitsAppend([Visit(left, b)], Marked(comparators, b));
  }

  lemma UnfoldsAtBinOp(left: Node, op: BinOperator, right: Node, b: bool)
    ensures UnfoldsAt(BinOp(left, op, right), b)
  {
    WalkVisitsOne(Visit(left, b)); WalkVisitsOne(Visit(right, b));
    assert [Visit(left, b), Visit(right, b)] == [Visit(left, b)] + [Visit(right, b)];
    WalkVisitsAppend([Visit(left, b)], [Visit(right, b)]);
  }

  predicate IsStatement(n: Node) {
    n.Module? || n.If? || n.For? || n.Assign? || n.AnnAssign? || n.Import? || n.ImportFrom? || n.Expr? || n.Other?
  }

  lemma StatementUnfolds(n: Node, b: bool)
    requires IsStatement(n)
    ensures UnfoldsAt(n, b)
  {
    match n
    case Module(body) => WalkAllIsWalkVisits(body, b);
    case If(test, body, orelse) => UnfoldsAtIf(test, body, orelse, b);
    case For(target, iter, body, orelse) => UnfoldsAtFor(target, iter, body, orelse, b);
    case Assign(targets, value) => UnfoldsAtAssign(targets, value, b);
    case AnnAssign(target, annotation, annValue) => UnfoldsAtAnnAssign(target, annotation, annValue, b);
    case Import(_) =>
    case ImportFrom(_, _) =>
    case Expr(value) => WalkVisitsOne(Visit(value, b));
    case Other(children) => WalkAllIsWalkVisits(children, b);
  }

  lemma ExpressionUnfolds(n: Node, b: bool)
    requires !IsStatement(n)
    ensures UnfoldsAt(n, b)
  {
    match n
    case Call(func, args, keywords) => UnfoldsAtCall(func, args, keywords, b);
    case Attribute(value, _) => WalkVisitsOne(Visit(value, b));
    case Name(_) =>
    case Constant(_) =>
    case List(elts) => WalkAllIsWalkVisits(elts, b);
    case BoolOp(_, values) => WalkAllIsWalkVisits(values, b);
    case Compare(left, ops, comparators) => UnfoldsAtCompare(left, ops, comparators, b);
    case UnaryOp(_, operand) => WalkVisitsOne(Visit(operand, b));
    case BinOp(left, op, right) => UnfoldsAtBinOp(left, op, right, b);
  }

  /** `ast.walk` yields the node itself, then everything below each of its children in turn. */
  lemma WalkFromUnfolds(n: Node, inValue: bool)
    ensures UnfoldsAt(n, inValue)
  {
    if IsStatement(n) {
      StatementUnfolds(n, inValue);
    } else {
      ExpressionUnfolds(n, inValue);
    }
  }

  lemma {:induction false} InWalkVisits(vs: seq<Visit>, x: Visit)
    ensures x in WalkVisits(vs) <==> exists c :: c in vs && x in WalkFrom(c.node, c.inValue)
  {
    if vs != [] {
      InWalkVisits(vs[1..], x);
      if x in WalkVisits(vs[1..]) {
        var c :| c in vs[1..] && x in WalkFrom(c.node, c.inValue);
        assert c in vs;
      }
      if exists c :: c in vs && x in WalkFrom(c.node, c.inValue) {
        var c :| c in vs && x in WalkFrom(c.node, c.inValue);
        if c != vs[0] {
          assert c in vs[1..];
        }
      }
    }
  }

  /**
   * `ast.walk` reaches exactly the tree: a visit is in the walk from `n`
   * exactly when it is `n` itself or lies below it through child links,
   * marked as inside an assigned value exactly when some `Assign` or
   * `AnnAssign` value lies on the way.
   */
  lemma {:induction false} WalkReachesExactly(n: Node, inValue: bool, x: Visit)
    ensures x in WalkFrom(n, inValue) <==> Reaches(Visit(n, inValue), x)
    decreases n
  {
    var root := Visit(n, inValue);
    var cs := ChildVisits(root);
    WalkFromUnfolds(n, inValue);
    assert UnfoldsAt(n, inValue);
    InWalkVisits(cs, x);
    if x != root {
      if x in WalkFrom(n, inValue) {
        var c :| c in cs && x in WalkFrom(c.node, c.inValue);
        WalkReachesExactly(c.node, c.inValue, x);
      }
      if Reaches(root, x) {
        var c :| c in cs && Reaches(c, x);
        WalkReachesExactly(c.node, c.inValue, x);
      }
    }
  }

  /** Everything a walk reaches under an assigned value is marked as inside one. */
  lemma {:induction false} WalkFromValueMarked(n: Node)
    ensures forall k :: 0 <= k < |WalkFrom(n, true)| ==> WalkFrom(n, true)[k].inValue
  {
    match n
    case Module(body) => WalkAllValueMarked(body);
    case If(test, body, orelse) =>
      WalkFromValueMarked(test); WalkAllValueMarked(body); WalkAllValueMarked(orelse);
    case For(target, iter, body, orelse) =>
      WalkFromValueMarked(target); WalkFromValueMarked(iter); WalkAllValueMarked(body); WalkAllValueMarked(orelse);
    case Assign(targets, value) => WalkAllValueMarked(targets); WalkFromValueMarked(value);
    case AnnAssign(target, annotation, annValue) =>
      WalkFromValueMarked(target); WalkFromValueMarked(annotation);
      if annValue.Some? { WalkFromValueMarked(annValue.value); }
    case Import(_) =>
    case ImportFrom(_, _) =>
    case Expr(value) => WalkFromValueMarked(value);
    case Call(func, args, keywords) => WalkFromValueMarked(func); WalkAllValueMarked(args); WalkAllValueMarked(keywords);
    case Attribute(value, _) => WalkFromValueMarked(value);
    case Name(_) =>
    case Constant(_) =>
    case List(elts) => WalkAllValueMarked(elts);
    case BoolOp(_, values) => WalkAllValueMarked(values);
    case Compare(left, _, comparators) => WalkFromValueMarked(left); WalkAllValueMarked(comparators);
    case UnaryOp(_, operand) => WalkFromValueMarked(operand);
    case BinOp(left, _, right) => WalkFromValueMarked(left); WalkFromValueMarked(right);
    case Other(children) => WalkAllValueMarked(children);
  }

  lemma {:induction false} WalkAllValueMarked(ns: seq<Node>)
    ensures forall k :: 0 <= k < |WalkAll(ns, true)| ==> WalkAll(ns, true)[k].inValue
  {
    if ns != [] {
      WalkFromValueMarked(ns[0]);
      WalkAllValueMarked(ns[1..]);
    }
  }
}
