// The static types the analysis writes into every expression node and the code generator
// reads back, and the operators both passes share.

module AwkTypes {

  /** `AwkT`: known to be a number, known to be a string, or either at run time. */
  datatype AwkT = Float | String | Variable

  datatype MathOperator = Minus | Plus | Slash | Star

  datatype BinOperator = Greater | GreaterEq | Less | LessEq | BangEq | EqEq | MatchedBy | NotMatchedBy

  datatype LogicalOperator = And | Or
}

// The type analysis: a forward pass that writes a type into every expression node while
// threading a variable-to-type environment through the statements.

module Typing {
  import opened Wrappers
  import opened AwkTypes

  /** The expression tree as the analysis sees it: assignment is a statement here. */
  datatype Expr =
    | NumberF64(number: real)
    | String(text: string)
    | BinOp(left: TypedExpr, binOp: BinOperator, right: TypedExpr)
    | MathOp(left: TypedExpr, mathOp: MathOperator, right: TypedExpr)
    | LogicalOp(left: TypedExpr, logicalOp: LogicalOperator, right: TypedExpr)
    | Variable(name: string)
    | Column(col: TypedExpr)
    | Call

  datatype TypedExpr = TypedExpr(expr: Expr, typ: AwkT)

  datatype Stmt =
    | ExprStmt(e: TypedExpr)
    | Print(e: TypedExpr)
    | Assign(name: string, value: TypedExpr)
    | Group(stmts: seq<Stmt>)
    | If(test: TypedExpr, ifSo: Stmt, ifNot: Option<Stmt>)
    | While(test: TypedExpr, body: Stmt)

  /** `MapT`: what the analysis knows about each variable assigned so far. */
  type Env = map<string, AwkT>

  // ---------------------------------------------------------------- the lattice

  /** `merge_types`: the join of the three-point lattice Float, String below Variable. */
  function MergeTypes(a: AwkT, b: AwkT): (r: AwkT)
    ensures r == Float <==> a == Float && b == Float
    ensures r == AwkT.String <==> a == AwkT.String && b == AwkT.String
    ensures r == AwkT.Variable <==> a != b || a == AwkT.Variable
  {
    match (a, b)
    case (Float, Float) => Float
    case (String, String) => AwkT.String
    case _ => AwkT.Variable
  }

  /** `merge_maps`: `a`'s keys, each joined with its type in `b` where `b` has one. */
  function Merged(a: Env, b: Env): (r: Env)
    ensures r.Keys == a.Keys
    ensures forall k :: k in a && k !in b ==> r[k] == a[k]
    ensures forall k :: k in a && k in b ==> r[k] == MergeTypes(b[k], a[k])
  {
    map k | k in a :: if k in b then MergeTypes(b[k], a[k]) else a[k]
  }

  // ---------------------------------------------------------------- expressions

  /** `analyze_expr`: literals and operators are typed by their form alone, a column is a
      string, and a variable takes its type from the environment, Float when it has none. */
  function Annotate(env: Env, e: TypedExpr): (r: TypedExpr)
    ensures e.expr.NumberF64? || e.expr.BinOp? || e.expr.MathOp? || e.expr.LogicalOp? || e.expr.Call?
            ==> r.typ == Float
    ensures e.expr.String? || e.expr.Column? ==> r.typ == AwkT.String
    ensures e.expr.Variable? ==> r.typ == (if e.expr.name in env then env[e.expr.name] else Float)
  {
    match e.expr
    case NumberF64(_) => e.(typ := Float)
    case String(_) => e.(typ := AwkT.String)
    case BinOp(left, op, right) => TypedExpr(BinOp(Annotate(env, left), op, Annotate(env, right)), Float)
    case MathOp(left, op, right) => TypedExpr(MathOp(Annotate(env, left), op, Annotate(env, right)), Float)
    case LogicalOp(left, op, right) => TypedExpr(LogicalOp(Annotate(env, left), op, Annotate(env, right)), Float)
    case Variable(name) => e.(typ := if name in env then env[name] else Float)
    case Column(col) => TypedExpr(Column(Annotate(env, col)), AwkT.String)
    case Call => e.(typ := Float)
  }

  /** The type a node of the given form gets, whatever its operands are typed. */
  function RuleType(env: Env, e: Expr): AwkT
  {
    match e
    case String(_) => AwkT.String
    case Column(_) => AwkT.String
    case Variable(name) => if name in env then env[name] else Float
    case _ => Float
  }

  /** Every node of `e` carries the type its form gets under `env`. */
  predicate Annotated(env: Env, e: TypedExpr)
  {
    && e.typ == RuleType(env, e.expr)
    && match e.expr
       case BinOp(left, _, right) => Annotated(env, left) && Annotated(env, right)
       case MathOp(left, _, right) => Annotated(env, left) && Annotated(env, right)
       case LogicalOp(left, _, right) => Annotated(env, left) && Annotated(env, right)
       case Column(col) => Annotated(env, col)
       case _ => true
  }

  /** The tree with every annotation reset: what the analysis is given to look at. */
  function Erase(e: TypedExpr): TypedExpr
  {
    match e.expr
    case BinOp(left, op, right) => TypedExpr(BinOp(Erase(left), op, Erase(right)), Float)
    case MathOp(left, op, right) => TypedExpr(MathOp(Erase(left), op, Erase(right)), Float)
    case LogicalOp(left, op, right) => TypedExpr(LogicalOp(Erase(left), op, Erase(right)), Float)
    case Column(col) => TypedExpr(Column(Erase(col)), Float)
    case _ => e.(typ := Float)
  }

  /** The analysis changes annotations only, and it leaves every node annotated. */
  lemma {:induction false} AnnotateSound(env: Env, e: TypedExpr)
    ensures Erase(Annotate(env, e)) == Erase(e)
    ensures Annotated(env, Annotate(env, e))
  {
    match e.expr
    case BinOp(left, _, right) => AnnotateSound(env, left); AnnotateSound(env, right);
    case MathOp(left, _, right) => AnnotateSound(env, left); AnnotateSound(env, right);
    case LogicalOp(left, _, right) => AnnotateSound(env, left); AnnotateSound(env, right);
    case Column(col) => AnnotateSound(env, col);
    case _ =>
  }

  /** An annotated tree is a fixed point of the analysis. */
  lemma {:induction false} AnnotatedIsFixed(env: Env, e: TypedExpr)
    requires Annotated(env, e)
    ensures Annotate(env, e) == e
  {
    match e.expr
    case BinOp(left, _, right) => AnnotatedIsFixed(env, left); AnnotatedIsFixed(env, right);
    case MathOp(left, _, right) => AnnotatedIsFixed(env, left); AnnotatedIsFixed(env, right);
    case LogicalOp(left, _, right) => AnnotatedIsFixed(env, left); AnnotatedIsFixed(env, right);
    case Column(col) => AnnotatedIsFixed(env, col);
    case _ =>
  }

  /** The annotations the analysis is given do not matter. */
  lemma {:induction false} AnnotateIgnoresTypes(env: Env, e1: TypedExpr, e2: TypedExpr)
    requires Erase(e1) == Erase(e2)
    ensures Annotate(env, e1) == Annotate(env, e2)
  {
    match e1.expr
    case BinOp(l1, _, r1) =>
      AnnotateIgnoresTypes(env, l1, e2.expr.left); AnnotateIgnoresTypes(env, r1, e2.expr.right);
    case MathOp(l1, _, r1) =>
      AnnotateIgnoresTypes(env, l1, e2.expr.left); AnnotateIgnoresTypes(env, r1, e2.expr.right);
    case LogicalOp(l1, _, r1) =>
      AnnotateIgnoresTypes(env, l1, e2.expr.left); AnnotateIgnoresTypes(env, r1, e2.expr.right);
    case Column(c1) => AnnotateIgnoresTypes(env, c1, e2.expr.col);
    case _ =>
  }

  // ---------------------------------------------------------------- statements

  function Size(s: Stmt): (n: nat)
    ensures 1 <= n
  {
    match s
    case Group(ss) => 1 + SizeSeq(ss)
    case If(_, ifSo, ifNot) => 1 + Size(ifSo) + (if ifNot.Some? then Size(ifNot.value) else 0)
    case While(_, body) => 1 + Size(body)
    case _ => 1
  }

  function SizeSeq(ss: seq<Stmt>): nat
  {
    if ss == [] then 0 else Size(ss[0]) + SizeSeq(ss[1..])
  }

  /** `analyze_stmt`: the annotated statement and the environment after it. An `if`
      analyses each branch from an EMPTY environment and joins the results into the
      pre-`if` one; a `while` analyses its body from an empty environment, joins the
      pre-loop environment into the result, and analyses test and (already annotated)
      body once more from there. */
  function Analyzed(env: Env, s: Stmt): (r: (Stmt, Env))
    ensures Size(r.0) == Size(s)
    decreases Size(s), 1
  {
    match s
    case ExprStmt(e) => (ExprStmt(Annotate(env, e)), env)
    case Print(e) => (Print(Annotate(env, e)), env)
    case Assign(name, value) =>
      var v := Annotate(env, value);
      (Assign(name, v), env[name := v.typ])
    case Group(ss) =>
      var (ss2, env2) := AnalyzedSeq(env, ss);
      (Group(ss2), env2)
    case If(test, ifSo, ifNot) =>
      var t := Annotate(env, test);
      var (so, soEnv) := Analyzed(map[], ifSo);
      var (not, notEnv) := if ifNot.Some? then
                             var (n, nEnv) := Analyzed(map[], ifNot.value);
                             (Some(n), nEnv)
                           else (None, map[]);
      (If(t, so, not), Merged(Merged(env, soEnv), notEnv))
    case While(test, body) =>
      var t := Annotate(env, test);
      var (b1, bodyEnv) := Analyzed(map[], body);
      var joined := Merged(bodyEnv, env);
      var (b2, env2) := Analyzed(joined, b1);
      (While(Annotate(joined, t), b2), env2)
  }

  function AnalyzedSeq(env: Env, ss: seq<Stmt>): (r: (seq<Stmt>, Env))
    ensures |r.0| == |ss| && SizeSeq(r.0) == SizeSeq(ss)
    decreases SizeSeq(ss), 2
  {
    if ss == [] then ([], env)
    else
      var (s1, env1) := Analyzed(env, ss[0]);
      var (rest, env2) := AnalyzedSeq(env1, ss[1..]);
      assert ([s1] + rest)[1..] == rest;
      ([s1] + rest, env2)
  }

  /** `analyze`: the program analysed from an empty environment. */
  function AnalyzedProgram(prog: Stmt): Stmt
  {
    Analyzed(map[], prog).0
  }

  /** The statement with every annotation reset. */
  function EraseStmt(s: Stmt): Stmt
  {
    match s
    case ExprStmt(e) => ExprStmt(Erase(e))
    case Print(e) => Print(Erase(e))
    case Assign(name, value) => Assign(name, Erase(value))
    case Group(ss) => Group(EraseSeq(ss))
    case If(test, ifSo, ifNot) => If(Erase(test), EraseStmt(ifSo), if ifNot.Some? then Some(EraseStmt(ifNot.value)) else None)
    case While(test, body) => While(Erase(test), EraseStmt(body))
  }

  function EraseSeq(ss: seq<Stmt>): (r: seq<Stmt>)
    ensures |r| == |ss|
  {
    if ss == [] then [] else [EraseStmt(ss[0])] + EraseSeq(ss[1..])
  }

  /** The statement analysis, too, changes annotations only. */
  lemma {:induction false} AnalyzedErases(env: Env, s: Stmt)
    ensures EraseStmt(Analyzed(env, s).0) == EraseStmt(s)
    decreases Size(s), 1
  {
    match s
    case ExprStmt(e) => AnnotateSound(env, e);
    case Print(e) => AnnotateSound(env, e);
    case Assign(_, value) => AnnotateSound(env, value);
    case Group(ss) => AnalyzedSeqErases(env, ss);
    case If(test, ifSo, ifNot) =>
      AnnotateSound(env, test);
      AnalyzedErases(map[], ifSo);
      if ifNot.Some? {
        AnalyzedErases(map[], ifNot.value);
      }
    case While(test, body) =>
      var t := Annotate(env, test);
      var (b1, bodyEnv) := Analyzed(map[], body);
      var joined := Merged(bodyEnv, env);
      AnnotateSound(env, test);
      AnnotateSound(joined, t);
      AnalyzedErases(map[], body);
      AnalyzedErases(joined, b1);
  }

  lemma {:induction false} AnalyzedSeqErases(env: Env, ss: seq<Stmt>)
    ensures EraseSeq(AnalyzedSeq(env, ss).0) == EraseSeq(ss)
    decreases SizeSeq(ss), 2
  {
    if ss != [] {
      var (s1, env1) := Analyzed(env, ss[0]);
      var (rest, env2) := AnalyzedSeq(env1, ss[1..]);
      AnalyzedErases(env, ss[0]);
      AnalyzedSeqErases(env1, ss[1..]);
      assert ([s1] + rest)[1..] == rest;
    }
  }

  /** What the statement analysis computes depends on the tree only, not on the annotations
      it is given. */
  lemma {:induction false} AnalyzedIgnoresTypes(env: Env, s1: Stmt, s2: Stmt)
    requires EraseStmt(s1) == EraseStmt(s2)
    ensures Analyzed(env, s1) == Analyzed(env, s2)
    decreases Size(s1), 1
  {
    match s1
    case ExprStmt(e) => AnnotateIgnoresTypes(env, e, s2.e);
    case Print(e) => AnnotateIgnoresTypes(env, e, s2.e);
    case Assign(_, value) => AnnotateIgnoresTypes(env, value, s2.value);
    case Group(ss) => AnalyzedSeqIgnoresTypes(env, ss, s2.stmts);
    case If(test, ifSo, ifNot) =>
      AnnotateIgnoresTypes(env, test, s2.test);
      AnalyzedIgnoresTypes(map[], ifSo, s2.ifSo);
      if ifNot.Some? {
        AnalyzedIgnoresTypes(map[], ifNot.value, s2.ifNot.value);
      }
    case While(test, body) =>
      AnalyzedIgnoresTypes(map[], body, s2.body);
      var (b1, bodyEnv) := Analyzed(map[], body);
      var joined := Merged(bodyEnv, env);
      AnnotateSound(env, test);
      AnnotateSound(env, s2.test);
      AnnotateIgnoresTypes(joined, Annotate(env, test), Annotate(env, s2.test));
      AnalyzedErases(map[], body);
      AnalyzedErases(map[], s2.body);
      AnalyzedIgnoresTypes(joined, b1, Analyzed(map[], s2.body).0);
  }

  lemma {:induction false} AnalyzedSeqIgnoresTypes(env: Env, ss1: seq<Stmt>, ss2: seq<Stmt>)
    requires EraseSeq(ss1) == EraseSeq(ss2)
    ensures AnalyzedSeq(env, ss1) == AnalyzedSeq(env, ss2)
    decreases SizeSeq(ss1), 2
  {
    if ss1 != [] {
      assert EraseSeq(ss1)[0] == EraseStmt(ss1[0]) && EraseSeq(ss2)[0] == EraseStmt(ss2[0]);
      assert EraseSeq(ss1)[1..] == EraseSeq(ss1[1..]) && EraseSeq(ss2)[1..] == EraseSeq(ss2[1..]);
      AnalyzedIgnoresTypes(env, ss1[0], ss2[0]);
      AnalyzedSeqIgnoresTypes(Analyzed(env, ss1[0]).1, ss1[1..], ss2[1..]);
    }
  }

  /** Analysing a `while` body twice comes to analysing the test and the original body once,
      from the body's own environment joined with the pre-loop one. */
  lemma WhileAnalysedOnceFromJoin(env: Env, test: TypedExpr, body: Stmt)
    ensures var joined := Merged(Analyzed(map[], body).1, env);
      Analyzed(env, While(test, body))
      == (While(Annotate(joined, test), Analyzed(joined, body).0), Analyzed(joined, body).1)
  {
    var (b1, bodyEnv) := Analyzed(map[], body);
    var joined := Merged(bodyEnv, env);
    AnnotateSound(env, test);
    AnnotateIgnoresTypes(joined, Annotate(env, test), test);
    AnalyzedErases(map[], body);
    AnalyzedIgnoresTypes(joined, b1, body);
  }

  // ---------------------------------------------------------------- which variables stay known

  /** The variables known after `s`, given those known before it: an assignment adds its
      name, an `if` keeps exactly the variables known before it, and a `while` keeps
      exactly those its body assigns, forgetting the ones known before the loop. */
  function KnownAfter(known: set<string>, s: Stmt): set<string>
    decreases Size(s), 1
  {
    match s
    case Assign(name, _) => known + {name}
    case Group(ss) => KnownAfterSeq(known, ss)
    case If(_, _, _) => known
    case While(_, body) => KnownAfter(KnownAfter({}, body), body)
    case _ => known
  }

  function KnownAfterSeq(known: set<string>, ss: seq<Stmt>): set<string>
    decreases SizeSeq(ss), 2
  {
    if ss == [] then known else KnownAfterSeq(KnownAfter(known, ss[0]), ss[1..])
  }

  lemma {:induction false} AnalyzedKeys(env: Env, s: Stmt)
    ensures Analyzed(env, s).1.Keys == KnownAfter(env.Keys, s)
    decreases Size(s), 1
  {
    match s
    case Group(ss) => AnalyzedSeqKeys(env, ss);
    case While(test, body) =>
      WhileAnalysedOnceFromJoin(env, test, body);
      var empty: Env := map[];
      var bodyEnv := Analyzed(empty, body).1;
      var joined := Merged(bodyEnv, env);
      AnalyzedKeys(empty, body);
      assert empty.Keys == {};
      assert joined.Keys == KnownAfter({}, body);
      AnalyzedKeys(joined, body);
    case _ =>
  }

  lemma {:induction false} AnalyzedSeqKeys(env: Env, ss: seq<Stmt>)
    ensures AnalyzedSeq(env, ss).1.Keys == KnownAfterSeq(env.Keys, ss)
    decreases SizeSeq(ss), 2
  {
    if ss != [] {
      AnalyzedKeys(env, ss[0]);
      AnalyzedSeqKeys(Analyzed(env, ss[0]).1, ss[1..]);
    }
  }

  /** A string assigned before a loop is read as a number after it: the loop's environment
      has forgotten it. */
  lemma WhileForgetsEarlierAssignments()
    ensures var x := TypedExpr(Expr.Variable("x"), Float);
      var prog := Group([
        Assign("x", TypedExpr(Expr.String("a"), Float)),
        While(TypedExpr(Call, Float), Assign("y", TypedExpr(NumberF64(1.0), Float))),
        Print(x)]);
      AnalyzedProgram(prog) == Group([
        Assign("x", TypedExpr(Expr.String("a"), AwkT.String)),
        While(TypedExpr(Call, Float), Assign("y", TypedExpr(NumberF64(1.0), Float))),
        Print(x)])
  {
    var loop := While(TypedExpr(Call, Float), Assign("y", TypedExpr(NumberF64(1.0), Float)));
    var printed := Print(TypedExpr(Expr.Variable("x"), Float));
    var env1: Env := map["x" := AwkT.String];
    LoopForgets(env1);
    var assign := Assign("x", TypedExpr(Expr.String("a"), Float));
    var typed := Assign("x", TypedExpr(Expr.String("a"), AwkT.String));
    assert Analyzed(map[], assign) == (typed, env1);
    assert [assign, loop, printed][1..] == [loop, printed];
  }

  /** After a loop that assigns only `y`, the environment holds `y` alone, so a following
      `print x` reads `x` as a number. */
  lemma LoopForgets(env: Env)
    requires "y" !in env
    ensures var loop := While(TypedExpr(Call, Float), Assign("y", TypedExpr(NumberF64(1.0), Float)));
      var printed := Print(TypedExpr(Expr.Variable("x"), Float));
      AnalyzedSeq(env, [loop, printed]) == ([loop, printed], map["y" := Float])
  {
    var one := TypedExpr(NumberF64(1.0), Float);
    var loop := While(TypedExpr(Call, Float), Assign("y", one));
    var yEnv: Env := map["y" := Float];
    assert Analyzed(map[], Assign("y", one)) == (Assign("y", one), yEnv);
    assert Merged(yEnv, env) == yEnv;
    assert yEnv["y" := Float] == yEnv;
    assert Analyzed(yEnv, Assign("y", one)) == (Assign("y", one), yEnv);
    assert Analyzed(env, loop) == (loop, yEnv);
    var x := TypedExpr(Expr.Variable("x"), Float);
    var printed := Print(x);
    assert Annotate(yEnv, x) == x;
    assert Analyzed(yEnv, printed) == (printed, yEnv);
    assert [printed][1..] == [];
    assert AnalyzedSeq(yEnv, []) == ([], yEnv);
    assert [printed] + [] == [printed];
    assert AnalyzedSeq(yEnv, [printed]) == ([printed], yEnv);
    assert [loop, printed][1..] == [printed];
    assert [loop] + [printed] == [loop, printed];
  }

  /** A variable assigned a string before an `if` is read as a number inside it: each branch
      starts from an empty environment. */
  lemma IfBranchStartsEmpty()
    ensures var x := TypedExpr(Expr.Variable("x"), Float);
      var test := TypedExpr(Call, Float);
      var prog := Group([Assign("x", TypedExpr(Expr.String("a"), Float)), If(test, Print(x), None)]);
      AnalyzedProgram(prog)
      == Group([Assign("x", TypedExpr(Expr.String("a"), AwkT.String)), If(test, Print(x), None)])
  {
    var x := TypedExpr(Expr.Variable("x"), Float);
    var env1: Env := map["x" := AwkT.String];
    assert Analyzed(map[], Print(x)) == (Print(x), map[]);
    assert Merged(Merged(env1, map[]), map[]) == env1;
  }

  /** An assignment records the type its right-hand side gets under the environment before
      it, and changes the type of no other variable. */
  lemma AssignRecordsType(env: Env, name: string, value: TypedExpr)
    ensures Analyzed(env, Assign(name, value)).0 == Assign(name, Annotate(env, value))
    ensures Analyzed(env, Assign(name, value)).1 == env[name := Annotate(env, value).typ]
    ensures Analyzed(env, Assign(name, value)).1[name] == RuleType(env, value.expr)
  {
  }

  /** What an `if` writes into its branches does not depend on the environment before it:
      both branches are analysed from an empty one. */
  lemma IfBranchesIgnoreEnv(env1: Env, env2: Env, test: TypedExpr, ifSo: Stmt, ifNot: Option<Stmt>)
    ensures Analyzed(env1, If(test, ifSo, ifNot)).0.ifSo == Analyzed(env2, If(test, ifSo, ifNot)).0.ifSo
    ensures Analyzed(env1, If(test, ifSo, ifNot)).0.ifNot == Analyzed(env2, If(test, ifSo, ifNot)).0.ifNot
  {
  }

  // ---------------------------------------------------------------- the analysis object

  /** `TypeAnalysis`: the environment the analysis threads through the statements. */
  class TypeAnalysis {
    var env: Env

    constructor ()
      ensures env == map[]
    {
      env := map[];
    }

    /** `merge_maps`: start from `a` and join in `b`'s type for each key `a` has. */
    static method MergeMaps(a: Env, b: Env) returns (merged: Env)
      ensures merged == Merged(a, b)
    {
      merged := a;
      var rest := b.Keys;
      while rest != {}
        invariant rest <= b.Keys
        invariant merged.Keys == a.Keys
        invariant forall k :: k in a ==>
          merged[k] == if k in b && k !in rest then MergeTypes(b[k], a[k]) else a[k]
        decreases rest
      {
        var k :| k in rest;
        if k in a {
          merged := merged[k := MergeTypes(b[k], a[k])];
        }
        rest := rest - {k};
      }
      assert forall k :: k in merged ==> merged[k] == Merged(a, b)[k];
    }

    /** `analyze_stmt`. */
    method AnalyzeStmt(s: Stmt) returns (r: Stmt)
      modifies this
      ensures (r, env) == Analyzed(old(env), s)
      decreases Size(s), 1
    {
      match s
      case ExprStmt(e) =>
        r := ExprStmt(Annotate(env, e));
      case Print(e) =>
        r := Print(Annotate(env, e));
      case Assign(name, value) =>
        var v := Annotate(env, value);
        env := env[name := v.typ];
        r := Assign(name, v);
      case Group(ss) =>
        var done := AnalyzeGroup(ss);
        r := Group(done);
      case If(test, ifSo, ifNot) =>
        r := AnalyzeIf(test, ifSo, ifNot);
      case While(test, body) =>
        r := AnalyzeWhile(test, body);
    }

    method AnalyzeGroup(ss: seq<Stmt>) returns (done: seq<Stmt>)
      modifies this
      ensures (done, env) == AnalyzedSeq(old(env), ss)
      decreases SizeSeq(ss), 2
    {
      done := [];
      for i := 0 to |ss|
        invariant AnalyzedSeq(old(env), ss).0 == done + AnalyzedSeq(env, ss[i..]).0
        invariant AnalyzedSeq(old(env), ss).1 == AnalyzedSeq(env, ss[i..]).1
      {
        ghost var before := env;
        SizeSeqBound(ss, i);
        AnalyzedSeqAt(before, ss, i);
        var s1 := AnalyzeStmt(ss[i]);
        ghost var rest := AnalyzedSeq(env, ss[i + 1..]);
        assert AnalyzedSeq(before, ss[i..]) == ([s1] + rest.0, rest.1);
        assert done + ([s1] + rest.0) == (done + [s1]) + rest.0;
        done := done + [s1];
      }
      assert ss[|ss|..] == [];
      assert AnalyzedSeq(env, []) == ([], env);
      assert done + [] == done;
    }

    /** Each branch runs against an empty environment swapped in for the current one. */
    method AnalyzeIf(test: TypedExpr, ifSo: Stmt, ifNot: Option<Stmt>) returns (r: Stmt)
      modifies this
      ensures (r, env) == Analyzed(old(env), If(test, ifSo, ifNot))
      decreases Size(If(test, ifSo, ifNot)), 0
    {
      var t := Annotate(env, test);
      var soEnv: Env := map[];
      var notEnv: Env := map[];
      soEnv, env := env, soEnv;
      var so := AnalyzeStmt(ifSo);
      soEnv, env := env, soEnv;
      notEnv, env := env, notEnv;
      var not: Option<Stmt> := None;
      if ifNot.Some? {
        var n := AnalyzeStmt(ifNot.value);
        not := Some(n);
      }
      notEnv, env := env, notEnv;
      env := MergeMaps(env, soEnv);
      env := MergeMaps(env, notEnv);
      r := If(t, so, not);
    }

    /** The body runs against an empty environment, then once more against the join. */
    method AnalyzeWhile(test: TypedExpr, body: Stmt) returns (r: Stmt)
      modifies this
      ensures (r, env) == Analyzed(old(env), While(test, body))
      decreases Size(While(test, body)), 0
    {
      var t := Annotate(env, test);
      var pre: Env := map[];
      pre, env := env, pre;
      var b1 := AnalyzeStmt(body);
      env := MergeMaps(env, pre);
      t := Annotate(env, t);
      var b2 := AnalyzeStmt(b1);
      r := While(t, b2);
    }
  }

  /** `AnalyzedSeq` from position `i`: the statement there, then the rest from its
      environment. */
  lemma AnalyzedSeqAt(env: Env, ss: seq<Stmt>, i: nat)
    requires i < |ss|
    ensures var first := Analyzed(env, ss[i]);
      var rest := AnalyzedSeq(first.1, ss[i + 1..]);
      AnalyzedSeq(env, ss[i..]) == ([first.0] + rest.0, rest.1)
  {
    assert ss[i..][0] == ss[i];
    assert ss[i..][1..] == ss[i + 1..];
  }

  /** Every element of a group is smaller than the group. */
  lemma {:induction false} SizeSeqBound(ss: seq<Stmt>, i: nat)
    requires i < |ss|
    ensures Size(ss[i]) + SizeSeq(ss[i + 1..]) <= SizeSeq(ss[i..])
    ensures SizeSeq(ss[i..]) <= SizeSeq(ss)
  {
    assert ss[i..][1..] == ss[i + 1..];
    if i > 0 {
      SizeSeqBound(ss[1..], i - 1);
      assert ss[1..][i - 1..] == ss[i..];
      assert ss[1..][i..] == ss[i + 1..];
    }
  }

  /** `analyze`: a fresh analysis over the whole program. */
  method Analyze(prog: Stmt) returns (r: Stmt)
    ensures r == AnalyzedProgram(prog)
  {
    var analysis := new TypeAnalysis();
    r := analysis.AnalyzeStmt(prog);
  }
}
