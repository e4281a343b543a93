// What the code emitted by the JIT code generator does when it runs against the capturing
// runtime. The emitted code keeps one (tag, float, pointer) slot per program variable, a
// scratch slot it writes on each side of a branch and reads back after the join (the
// code generator has no phi nodes), and calls the runtime's entry points through raw
// pointers. Each case of `compile_expr` / `compile_stmt` is one case of the interpreter
// below, following the emitted branches.

module CodeGen {
  import opened Wrappers
  import opened Numbers
  import opened StringHeap
  import opened AwkTypes
  import TestingRuntime
  import LiveRuntime
  import CallLog

  /** The expression tree the code generator reads; `boxed` is the address of the `String`
      a literal was boxed into while compiling. */
  datatype Expr =
    | Assign(name: string, value: TypedExpr)
    | NumberF64(number: real)
    | String(text: string, boxed: Handle)
    | MathOp(left: TypedExpr, mathOp: MathOperator, right: TypedExpr)
    | BinOp(left: TypedExpr, binOp: BinOperator, right: TypedExpr)
    | LogicalOp(left: TypedExpr, logicalOp: LogicalOperator, right: TypedExpr)
    | Variable(name: string)
    | Column(col: TypedExpr)
    | Call
    | Concatenation(left: TypedExpr, right: TypedExpr)

  datatype TypedExpr = TypedExpr(expr: Expr, typ: AwkT)

  datatype Stmt =
    | ExprStmt(e: TypedExpr)
    | Print(e: TypedExpr)
    | Group(stmts: seq<Stmt>)
    | If(test: TypedExpr, ifSo: Stmt, ifNot: Option<Stmt>)
    | While(test: TypedExpr, body: Stmt)

  /** `ValueT`: a run-time value; the pointer is a string handle only when the tag says so. */
  datatype Value = Value(tag: u8, float: real, pointer: Handle)

  /** `create_value`: the number 0 with the zero pointer. */
  const Unset: Value := Value(FLOAT_TAG, 0.0, ZeroPtr)

  /** The emitted function's state: the variable slots, the scratch slots
      (`binop_scratch.float`, `binop_scratch.pointer`, `binop_scratch_int`) and the runtime. */
  datatype Machine = Machine(
    slots: map<string, Value>,
    scratchFloat: real,
    scratchPointer: Handle,
    scratchInt: bool,
    rt: TestingRuntime.TestData)

  // ---------------------------------------------------------------- reference notions

  /** The static type is right about the run-time tag. */
  predicate Fits(v: Value, typ: AwkT)
  {
    match typ
    case Float => v.tag == FLOAT_TAG
    case String => v.tag == STRING_TAG
    case Variable => v.tag == FLOAT_TAG || v.tag == STRING_TAG
  }

  /** AWK's truth rule read off the run-time tag: a string is true iff it is not empty,
      a number iff it is not zero. */
  predicate AwkTrue(heap: Heap, v: Value)
    requires v.tag == STRING_TAG ==> Live(heap, v.pointer)
  {
    if v.tag == STRING_TAG then heap.cells[v.pointer] != "" else v.float != 0.0
  }

  /** The relation a comparison operator names. */
  predicate Holds(op: BinOperator, a: real, b: real)
    requires !op.MatchedBy? && !op.NotMatchedBy?
  {
    match op
    case Greater => a > b
    case GreaterEq => a >= b
    case Less => a < b
    case LessEq => a <= b
    case BangEq => a != b
    case EqEq => a == b
  }

  /** f64 arithmetic on reals; the quotient of a division by zero is not a real. */
  function Arith(num: Numerics, op: MathOperator, a: real, b: real): real
  {
    match op
    case Minus => a - b
    case Plus => a + b
    case Star => a * b
    case Slash => if b == 0.0 then num.quotientByZero(a) else a / b
  }

  // ---------------------------------------------------------------- helpers of the emitted code

  /** `string_is_truthy_ret_int`: the length word of the `String` behind the pointer. */
  function StringTruth(m: Machine, p: Handle): (r: Result<bool, Fault>)
    ensures r.Ok? <==> Live(m.rt.heap, p)
    ensures r.Ok? ==> (r.value <==> m.rt.heap.cells[p] != "")
  {
    var s :- Load(m.rt.heap, p);
    Ok(|s| != 0)
  }

  /** `truthy_ret_integer`: the static type picks the rule; a Variable-typed value picks it
      by its tag and passes the answer through the integer scratch slot. */
  function Truth(m: Machine, v: Value, typ: AwkT): Result<(Machine, bool), Fault>
  {
    match typ
    case String =>
      var b :- StringTruth(m, v.pointer);
      Ok((m, b))
    case Float => Ok((m, v.float != 0.0))
    case Variable =>
      var b :- if v.tag == STRING_TAG then StringTruth(m, v.pointer) else Ok(v.float != 0.0);
      Ok((m.(scratchInt := b), b))
  }

  /** `to_float`: the float part when the tag is FLOAT_TAG, otherwise `string_to_number`. */
  function AsFloat(m: Machine, num: Numerics, v: Value): (r: Result<(Machine, real), Fault>)
    ensures v.tag == FLOAT_TAG ==> r == Ok((m.(scratchFloat := v.float), v.float))
    ensures v.tag != FLOAT_TAG ==>
      (r.Ok? <==> m.rt.canary == LiveRuntime.CANARY && Live(m.rt.heap, v.pointer)
                  && num.parse(m.rt.heap.cells[v.pointer]).Some?)
    ensures v.tag != FLOAT_TAG && r.Ok? ==>
      && r.value.1 == num.parse(m.rt.heap.cells[v.pointer]).value
      && r.value.0 == m.(scratchFloat := r.value.1, rt := m.rt.(calls := m.rt.calls + [CallLog.StringToNumber]))
  {
    if v.tag == FLOAT_TAG then Ok((m.(scratchFloat := v.float), v.float))
    else
      var step :- TestingRuntime.StringToNumberEffect(m.rt, num, v.pointer);
      Ok((m.(rt := step.0, scratchFloat := step.1), step.1))
  }

  /** `drop_if_str`: a String-typed value is freed, a Variable-typed one only when its tag
      is STRING_TAG, a Float-typed one never. */
  function Dropped(m: Machine, v: Value, typ: AwkT): Result<Machine, Fault>
  {
    if typ == Float || (typ == AwkT.Variable && v.tag != STRING_TAG) then Ok(m)
    else
      var t :- TestingRuntime.FreeStringEffect(m.rt, v.pointer);
      Ok(m.(rt := t.0))
  }

  /** `drop_if_string_ptr`: nothing for a Float-typed slot, which is not even loaded;
      otherwise `drop_if_str` of what the slot holds. */
  function DroppedSlot(m: Machine, name: string, typ: AwkT): Result<Machine, Fault>
  {
    if typ == Float then Ok(m)
    else
      var v :- Slot(m, name);
      Dropped(m, v, typ)
  }

  /** `copy_if_string`, and equally the read of a variable: a String-typed value becomes a
      fresh copy, a Variable-typed one too when its tag is STRING_TAG (otherwise its pointer
      becomes the zero pointer), a Float-typed one is returned as it is. */
  function Copied(m: Machine, v: Value, typ: AwkT): Result<(Machine, Value), Fault>
  {
    match typ
    case Float => Ok((m, v))
    case String =>
      var t :- TestingRuntime.CopyStringEffect(m.rt, v.pointer);
      Ok((m.(rt := t.0), Value(STRING_TAG, 0.0, t.1)))
    case Variable =>
      if v.tag != STRING_TAG then Ok((m.(scratchPointer := ZeroPtr), Value(v.tag, v.float, ZeroPtr)))
      else
        var t :- TestingRuntime.CopyStringEffect(m.rt, v.pointer);
        Ok((m.(rt := t.0, scratchPointer := t.1), Value(v.tag, v.float, t.1)))
  }

  /** `scopes.get(var)`: the slot of a variable; every variable of a compiled program has one. */
  function Slot(m: Machine, name: string): Result<Value, Fault>
  {
    if name in m.slots then Ok(m.slots[name]) else Err(Panic("no slot for variable " + name))
  }

  /** `print`: `print_float` for a Float-typed value or a Variable-typed one tagged
      FLOAT_TAG, `print_string` otherwise; the printed string is not freed. */
  function PrintValue(m: Machine, num: Numerics, v: Value, typ: AwkT): Result<Machine, Fault>
  {
    if typ == Float || (typ == AwkT.Variable && v.tag == FLOAT_TAG) then
      var t :- TestingRuntime.PrintFloatEffect(m.rt, num, v.float);
      Ok(m.(rt := t))
    else
      var t :- TestingRuntime.PrintStringEffect(m.rt, v.pointer);
      Ok(m.(rt := t))
  }

  // ---------------------------------------------------------------- expressions

  /** What the code `compile_expr` emits computes. */
  function Eval(m: Machine, num: Numerics, e: TypedExpr): Result<(Machine, Value), Fault>
    decreases e, 1
  {
    match e.expr
    case Assign(name, value) =>
      var step :- Eval(m, num, value);
      var previous :- Slot(step.0, name);
      var m1 :- Dropped(step.0, previous, AwkT.Variable);
      Copied(m1.(slots := m1.slots[name := step.1]), step.1, value.typ)
    case NumberF64(x) => Ok((m, Value(FLOAT_TAG, x, ZeroPtr)))
    case String(_, boxed) => Ok((m, Value(STRING_TAG, 0.0, boxed)))
    case MathOp(_, _, _) => EvalMath(m, num, e)
    case BinOp(_, _, _) => EvalCompare(m, num, e)
    case LogicalOp(_, op, _) => if op == And then EvalAnd(m, num, e) else EvalOr(m, num, e)
    case Variable(name) =>
      var v :- Slot(m, name);
      Copied(m, v, e.typ)
    case Column(col) =>
      var step :- Eval(m, num, col);
      var c := step.1;
      var field :- TestingRuntime.ColumnEffect(step.0.rt, num, c.tag, c.float, c.pointer);
      Ok((step.0.(rt := field.0), Value(STRING_TAG, 0.0, field.1)))
    case Call =>
      var t :- TestingRuntime.NextLineEffect(m.rt);
      Ok((m.(rt := t.0), Value(FLOAT_TAG, t.1, ZeroPtr)))
    case Concatenation(left, right) =>
      var a :- Eval(m, num, left);
      var b :- Eval(a.0, num, right);
      Err(Todo("concat wip"))
  }

  /** Arithmetic: both operands are evaluated, then each one whose static type is not Float
      goes through `to_float`; the operands are not freed. */
  function EvalMath(m: Machine, num: Numerics, e: TypedExpr): Result<(Machine, Value), Fault>
    requires e.expr.MathOp?
    decreases e, 0
  {
    var a :- Eval(m, num, e.expr.left);
    var b :- Eval(a.0, num, e.expr.right);
    var x :- if e.expr.left.typ != Float then AsFloat(b.0, num, a.1) else Ok((b.0, a.1.float));
    var y :- if e.expr.right.typ != Float then AsFloat(x.0, num, b.1) else Ok((x.0, b.1.float));
    Ok((y.0, Value(FLOAT_TAG, Arith(num, e.expr.mathOp, x.1, y.1), ZeroPtr)))
  }

  /** Comparison: only two Float-typed operands are supported; the 0/1 outcome is stored as
      0.0/1.0 through the float scratch slot. */
  function EvalCompare(m: Machine, num: Numerics, e: TypedExpr): Result<(Machine, Value), Fault>
    requires e.expr.BinOp?
    decreases e, 0
  {
    var a :- Eval(m, num, e.expr.left);
    var b :- Eval(a.0, num, e.expr.right);
    if e.expr.left.typ != Float || e.expr.right.typ != Float then Err(Todo("non float float binop "))
    else if e.expr.binOp.MatchedBy? || e.expr.binOp.NotMatchedBy? then Err(Todo("matched expr"))
    else
      var x := if Holds(e.expr.binOp, a.1.float, b.1.float) then 1.0 else 0.0;
      Ok((b.0.(scratchFloat := x), Value(FLOAT_TAG, x, ZeroPtr)))
  }

  /** `&&`: the right operand runs only when the left one is true. */
  function EvalAnd(m: Machine, num: Numerics, e: TypedExpr): Result<(Machine, Value), Fault>
    requires e.expr.LogicalOp?
    decreases e, 0
  {
    var a :- Eval(m, num, e.expr.left);
    var l :- Truth(a.0, a.1, e.expr.left.typ);
    if !l.1 then Ok((l.0.(scratchFloat := 0.0), Value(FLOAT_TAG, 0.0, ZeroPtr)))
    else
      var b :- Eval(l.0, num, e.expr.right);
      var t :- Truth(b.0, b.1, e.expr.right.typ);
      var x := if t.1 then 1.0 else 0.0;
      Ok((t.0.(scratchFloat := x), Value(FLOAT_TAG, x, ZeroPtr)))
  }

  /** `||`: the right operand runs only when the left one is false, and its truth is read
      with the LEFT operand's static type. */
  function EvalOr(m: Machine, num: Numerics, e: TypedExpr): Result<(Machine, Value), Fault>
    requires e.expr.LogicalOp?
    decreases e, 0
  {
    var a :- Eval(m, num, e.expr.left);
    var l :- Truth(a.0, a.1, e.expr.left.typ);
    if l.1 then Ok((l.0.(scratchFloat := 1.0), Value(FLOAT_TAG, 1.0, ZeroPtr)))
    else
      var b :- Eval(l.0, num, e.expr.right);
      var t :- Truth(b.0, b.1, e.expr.left.typ);
      var x := if t.1 then 1.0 else 0.0;
      Ok((t.0.(scratchFloat := x), Value(FLOAT_TAG, x, ZeroPtr)))
  }

  // ---------------------------------------------------------------- statements

  function Size(s: Stmt): (n: nat)
    ensures 1 <= n
  {
    match s
    case Group(ss) => 1 + SizeSeq(ss)
    case If(_, ifSo, ifNot) => 1 + Size(ifSo) + (if ifNot.Some? then Size(ifNot.value) else 0)
    case While(_, body) => 1 + Size(body)
    case _ => 1
  }

  function SizeSeq(ss: seq<Stmt>): nat
  {
    if ss == [] then 0 else Size(ss[0]) + SizeSeq(ss[1..])
  }

  /** What the code `compile_stmt` emits does. A loop may test its condition at most `fuel`
      times per entry. */
  function Exec(m: Machine, num: Numerics, s: Stmt, fuel: nat): Result<Machine, Fault>
    decreases fuel, Size(s), 1
  {
    match s
    case ExprStmt(e) =>
      var step :- Eval(m, num, e);
      Dropped(step.0, step.1, e.typ)
    case Print(e) =>
      var step :- Eval(m, num, e);
      PrintValue(step.0, num, step.1, e.typ)
    case Group(ss) => ExecSeq(m, num, ss, fuel)
    case If(test, ifSo, ifNot) =>
      var step :- Eval(m, num, test);
      var t :- Truth(step.0, step.1, test.typ);
      // The emitted branch jumps to the then label on a true test; the else part sits
      // between the branch and that label, so without it control falls into the then part.
      if t.1 || ifNot.None? then Exec(t.0, num, ifSo, fuel)
      else Exec(t.0, num, ifNot.value, fuel)
    case While(test, body) => Loop(m, num, test, body, fuel)
  }

  function ExecSeq(m: Machine, num: Numerics, ss: seq<Stmt>, fuel: nat): Result<Machine, Fault>
    decreases fuel, SizeSeq(ss), 2
  {
    if ss == [] then Ok(m)
    else
      var m1 :- Exec(m, num, ss[0], fuel);
      ExecSeq(m1, num, ss[1..], fuel)
  }

  function Loop(m: Machine, num: Numerics, test: TypedExpr, body: Stmt, fuel: nat): Result<Machine, Fault>
    decreases fuel, Size(body), 2
  {
    if fuel == 0 then Err(OutOfFuel)
    else
      var step :- Eval(m, num, test);
      var t :- Truth(step.0, step.1, test.typ);
      if !t.1 then Ok(t.0)
      else
        var m1 :- Exec(t.0, num, body, fuel);
        Loop(m1, num, test, body, fuel - 1)
  }

  // ---------------------------------------------------------------- compiling

  /** The constructs the code generator can emit: no concatenation, no regular-expression
      match, and comparisons only between two Float-typed operands. */
  predicate SupportedExpr(e: TypedExpr)
  {
    match e.expr
    case Assign(_, value) => SupportedExpr(value)
    case MathOp(left, _, right) => SupportedExpr(left) && SupportedExpr(right)
    case BinOp(left, op, right) =>
      && SupportedExpr(left) && SupportedExpr(right)
      && left.typ == Float && right.typ == Float && !op.MatchedBy? && !op.NotMatchedBy?
    case LogicalOp(left, _, right) => SupportedExpr(left) && SupportedExpr(right)
    case Column(col) => SupportedExpr(col)
    case Concatenation(_, _) => false
    case _ => true
  }

  predicate Supported(s: Stmt)
  {
    match s
    case ExprStmt(e) => SupportedExpr(e)
    case Print(e) => SupportedExpr(e)
    case Group(ss) => forall i :: 0 <= i < |ss| ==> Supported(ss[i])
    case If(test, ifSo, ifNot) => SupportedExpr(test) && Supported(ifSo) && (ifNot.Some? ==> Supported(ifNot.value))
    case While(test, body) => SupportedExpr(test) && Supported(body)
  }

  /** What compiling an expression does besides emitting instructions: every string literal
      is boxed once, in compilation order, and an unsupported construct stops compilation
      with its `todo!` message after its operands have been compiled. */
  function BoxExpr(e: TypedExpr, h: Heap): Result<(TypedExpr, Heap), Fault>
  {
    match e.expr
    case Assign(name, value) =>
      var v :- BoxExpr(value, h);
      Ok((e.(expr := Assign(name, v.0)), v.1))
    case String(text, _) =>
      var (h1, p) := Alloc(h, text);
      Ok((e.(expr := Expr.String(text, p)), h1))
    case MathOp(left, op, right) =>
      var a :- BoxExpr(left, h);
      var b :- BoxExpr(right, a.1);
      Ok((e.(expr := MathOp(a.0, op, b.0)), b.1))
    case BinOp(left, op, right) =>
      var a :- BoxExpr(left, h);
      var b :- BoxExpr(right, a.1);
      if left.typ != Float || right.typ != Float then Err(Todo("non float float binop "))
      else if op.MatchedBy? || op.NotMatchedBy? then Err(Todo("matched expr"))
      else Ok((e.(expr := BinOp(a.0, op, b.0)), b.1))
    case LogicalOp(left, op, right) =>
      var a :- BoxExpr(left, h);
      var b :- BoxExpr(right, a.1);
      Ok((e.(expr := LogicalOp(a.0, op, b.0)), b.1))
    case Column(col) =>
      var c :- BoxExpr(col, h);
      Ok((e.(expr := Column(c.0)), c.1))
    case Concatenation(left, right) =>
      var a :- BoxExpr(left, h);
      var b :- BoxExpr(right, a.1);
      Err(Todo("concat wip"))
    case _ => Ok((e, h))
  }

  /** `compile_stmt`'s traversal; an `if` compiles its else branch before its then branch. */
  function BoxStmt(s: Stmt, h: Heap): Result<(Stmt, Heap), Fault>
  {
    match s
    case ExprStmt(e) =>
      var b :- BoxExpr(e, h);
      Ok((ExprStmt(b.0), b.1))
    case Print(e) =>
      var b :- BoxExpr(e, h);
      Ok((Print(b.0), b.1))
    case Group(ss) =>
      var b :- BoxSeq(ss, h);
      Ok((Group(b.0), b.1))
    case If(test, ifSo, ifNot) =>
      var t :- BoxExpr(test, h);
      var n :- if ifNot.Some? then
                 var b :- BoxStmt(ifNot.value, t.1);
                 Ok((Some(b.0), b.1))
               else Ok((None, t.1));
      var y :- BoxStmt(ifSo, n.1);
      Ok((If(t.0, y.0, n.0), y.1))
    case While(test, body) =>
      var t :- BoxExpr(test, h);
      var b :- BoxStmt(body, t.1);
      Ok((While(t.0, b.0), b.1))
  }

  function BoxSeq(ss: seq<Stmt>, h: Heap): Result<(seq<Stmt>, Heap), Fault>
  {
    if ss == [] then Ok(([], h))
    else
      var a :- BoxStmt(ss[0], h);
      var b :- BoxSeq(ss[1..], a.1);
      Ok(([a.0] + b.0, b.1))
  }

  /** The names a program assigns or reads, in order of appearance (`variable_extract::extract`). */
  function ExprVars(e: TypedExpr): seq<string>
  {
    match e.expr
    case Assign(name, value) => [name] + ExprVars(value)
    case Variable(name) => [name]
    case MathOp(left, _, right) => ExprVars(left) + ExprVars(right)
    case BinOp(left, _, right) => ExprVars(left) + ExprVars(right)
    case LogicalOp(left, _, right) => ExprVars(left) + ExprVars(right)
    case Concatenation(left, right) => ExprVars(left) + ExprVars(right)
    case Column(col) => ExprVars(col)
    case _ => []
  }

  function StmtVars(s: Stmt): seq<string>
  {
    match s
    case ExprStmt(e) => ExprVars(e)
    case Print(e) => ExprVars(e)
    case Group(ss) => SeqVars(ss)
    case If(test, ifSo, ifNot) => ExprVars(test) + StmtVars(ifSo) + (if ifNot.Some? then StmtVars(ifNot.value) else [])
    case While(test, body) => ExprVars(test) + StmtVars(body)
  }

  function SeqVars(ss: seq<Stmt>): seq<string>
  {
    if ss == [] then [] else StmtVars(ss[0]) + SeqVars(ss[1..])
  }

  /** The slots `define_all_vars` creates: one per distinct name, each holding `create_value`'s 0. */
  function SlotsFor(names: seq<string>): (slots: map<string, Value>)
    ensures forall n :: n in names <==> n in slots
    ensures forall n :: n in slots ==> slots[n] == Unset
  {
    if names == [] then map[]
    else SlotsFor(names[..|names| - 1])[names[|names| - 1] := Unset]
  }

  /** `compile_and_capture`: the capturing runtime is created first (reading the files),
      then the program is compiled and run; the result is the captured output. The scratch
      slots start uninitialised in the emitted code and are never read before written. */
  function Capture(prog: Stmt, paths: seq<string>, disk: map<string, string>, num: Numerics, fuel: nat): Result<string, Fault>
  {
    var t :- TestingRuntime.NewTestData(paths, disk, EmptyHeap());
    var compiled :- BoxStmt(prog, t.heap);
    var m := Machine(SlotsFor(StmtVars(prog)), 0.0, ZeroPtr, false, t.(heap := compiled.1));
    var done :- Exec(m, num, compiled.0, fuel);
    Ok(done.rt.output)
  }

  // ---------------------------------------------------------------- what no step undoes

  /** No step of the emitted code removes a slot, touches the canary, takes back output or
      call-log entries, or breaks a well-formed heap. */
  predicate Progress(m: Machine, m2: Machine)
  {
    && m2.slots.Keys == m.slots.Keys
    && m2.rt.canary == m.rt.canary
    && m.rt.output <= m2.rt.output
    && m.rt.calls <= m2.rt.calls
    && (Valid(m.rt.heap) ==> Valid(m2.rt.heap))
  }

  lemma ProgressTransitive(m1: Machine, m2: Machine, m3: Machine)
    requires Progress(m1, m2) && Progress(m2, m3)
    ensures Progress(m1, m3)
  {
    assert m1.rt.output <= m3.rt.output by {
      assert m3.rt.output[..|m1.rt.output|] == m2.rt.output[..|m2.rt.output|][..|m1.rt.output|];
    }
    assert m1.rt.calls <= m3.rt.calls by {
      assert m3.rt.calls[..|m1.rt.calls|] == m2.rt.calls[..|m2.rt.calls|][..|m1.rt.calls|];
    }
  }

  /** The runtime calls and helpers of the emitted code each make progress. */
  lemma HelpersProgress(m: Machine, num: Numerics, v: Value, typ: AwkT)
    ensures Truth(m, v, typ).Ok? ==> Progress(m, Truth(m, v, typ).value.0)
    ensures AsFloat(m, num, v).Ok? ==> Progress(m, AsFloat(m, num, v).value.0)
    ensures Dropped(m, v, typ).Ok? ==> Progress(m, Dropped(m, v, typ).value)
    ensures Copied(m, v, typ).Ok? ==> Progress(m, Copied(m, v, typ).value.0)
    ensures PrintValue(m, num, v, typ).Ok? ==> Progress(m, PrintValue(m, num, v, typ).value)
  {
    DroppedProgress(m, v, typ);
    CopiedProgress(m, v, typ);
    PrintProgress(m, num, v, typ);
  }

  /** `drop_if_string_ptr` frees the string a slot points to exactly when the static type
      says String, or says Variable and the slot is tagged STRING_TAG: the handle stops being
      live and one `free_string` call is logged, while the slot keeps the freed handle.
      Otherwise nothing changes. */
  lemma DroppedSlotFrees(m: Machine, name: string, typ: AwkT)
    requires name in m.slots
    ensures var v := m.slots[name];
      var frees := typ == AwkT.String || (typ == AwkT.Variable && v.tag == STRING_TAG);
      var r := DroppedSlot(m, name, typ);
      (!frees ==> r == Ok(m))
      && (frees ==> (r.Ok? <==> m.rt.canary == LiveRuntime.CANARY && Live(m.rt.heap, v.pointer)))
      && (frees && r.Ok? ==>
            r.value.slots == m.slots && r.value.rt.heap.cells == m.rt.heap.cells - {v.pointer}
            && r.value.rt.calls == m.rt.calls + [CallLog.FreeString])
  {
  }

  lemma DroppedProgress(m: Machine, v: Value, typ: AwkT)
    ensures Dropped(m, v, typ).Ok? ==> Progress(m, Dropped(m, v, typ).value)
  {
    if Dropped(m, v, typ).Ok? && !(typ == Float || (typ == AwkT.Variable && v.tag != STRING_TAG)) {
      var t := TestingRuntime.FreeStringEffect(m.rt, v.pointer).value.0;
      assert t.calls == m.rt.calls + [CallLog.FreeString];
    }
  }

  lemma CopiedProgress(m: Machine, v: Value, typ: AwkT)
    ensures Copied(m, v, typ).Ok? ==> Progress(m, Copied(m, v, typ).value.0)
  {
    if Copied(m, v, typ).Ok? && (typ == AwkT.String || (typ == AwkT.Variable && v.tag == STRING_TAG)) {
      var t := TestingRuntime.CopyStringEffect(m.rt, v.pointer).value.0;
      assert t.calls == m.rt.calls + [CallLog.CopyString];
    }
  }

  lemma PrintProgress(m: Machine, num: Numerics, v: Value, typ: AwkT)
    ensures PrintValue(m, num, v, typ).Ok? ==> Progress(m, PrintValue(m, num, v, typ).value)
  {
    if PrintValue(m, num, v, typ).Ok? {
      if typ == Float || (typ == AwkT.Variable && v.tag == FLOAT_TAG) {
        var t := TestingRuntime.PrintFloatEffect(m.rt, num, v.float).value;
        assert t.calls == m.rt.calls + [CallLog.PrintFloat];
      } else {
        var t := TestingRuntime.PrintStringEffect(m.rt, v.pointer).value;
        assert t.calls == m.rt.calls + [CallLog.PrintString];
      }
    }
  }

  lemma {:induction false} EvalProgress(m: Machine, num: Numerics, e: TypedExpr)
    requires Eval(m, num, e).Ok?
    ensures Progress(m, Eval(m, num, e).value.0)
    decreases e, 1
  {
    match e.expr
    case Assign(_, _) => AssignProgress(m, num, e);
    case NumberF64(_) =>
    case String(_, _) =>
    case MathOp(_, _, _) => MathProgress(m, num, e);
    case BinOp(_, _, _) => CompareProgress(m, num, e);
    case LogicalOp(_, op, _) => if op == And { AndProgress(m, num, e); } else { OrProgress(m, num, e); }
    case Variable(name) => HelpersProgress(m, num, m.slots[name], e.typ);
    case Column(_) => ColumnProgress(m, num, e);
    case Call =>
    case Concatenation(_, _) =>
  }

  lemma {:induction false} AssignProgress(m: Machine, num: Numerics, e: TypedExpr)
    requires e.expr.Assign? && Eval(m, num, e).Ok?
    ensures Progress(m, Eval(m, num, e).value.0)
    decreases e, 0
  {
    var name, value := e.expr.name, e.expr.value;
    EvalProgress(m, num, value);
    var step := Eval(m, num, value).value;
    var previous := step.0.slots[name];
    HelpersProgress(step.0, num, previous, AwkT.Variable);
    var m1 := Dropped(step.0, previous, AwkT.Variable).value;
    var m2 := m1.(slots := m1.slots[name := step.1]);
    HelpersProgress(m2, num, step.1, value.typ);
    ProgressTransitive(m, step.0, m1);
    ProgressTransitive(m, m1, m2);
    ProgressTransitive(m, m2, Eval(m, num, e).value.0);
  }

  lemma {:induction false} ColumnProgress(m: Machine, num: Numerics, e: TypedExpr)
    requires e.expr.Column? && Eval(m, num, e).Ok?
    ensures Progress(m, Eval(m, num, e).value.0)
    decreases e, 0
  {
    EvalProgress(m, num, e.expr.col);
    var step := Eval(m, num, e.expr.col).value;
    ProgressTransitive(m, step.0, Eval(m, num, e).value.0);
  }

  lemma {:induction false} MathProgress(m: Machine, num: Numerics, e: TypedExpr)
    requires e.expr.MathOp? && EvalMath(m, num, e).Ok?
    ensures Progress(m, EvalMath(m, num, e).value.0)
    decreases e, 0
  {
    EvalProgress(m, num, e.expr.left);
    var a := Eval(m, num, e.expr.left).value;
    EvalProgress(a.0, num, e.expr.right);
    var b := Eval(a.0, num, e.expr.right).value;
    ProgressTransitive(m, a.0, b.0);
    HelpersProgress(b.0, num, a.1, e.expr.left.typ);
    var x := if e.expr.left.typ != Float then AsFloat(b.0, num, a.1).value else (b.0, a.1.float);
    ProgressTransitive(m, b.0, x.0);
    HelpersProgress(x.0, num, b.1, e.expr.right.typ);
    var y := if e.expr.right.typ != Float then AsFloat(x.0, num, b.1).value else (x.0, b.1.float);
    ProgressTransitive(m, x.0, y.0);
  }

  lemma {:induction false} CompareProgress(m: Machine, num: Numerics, e: TypedExpr)
    requires e.expr.BinOp? && EvalCompare(m, num, e).Ok?
    ensures Progress(m, EvalCompare(m, num, e).value.0)
    decreases e, 0
  {
    EvalProgress(m, num, e.expr.left);
    var a := Eval(m, num, e.expr.left).value;
    EvalProgress(a.0, num, e.expr.right);
    var b := Eval(a.0, num, e.expr.right).value;
    ProgressTransitive(m, a.0, b.0);
  }

  lemma {:induction false} AndProgress(m: Machine, num: Numerics, e: TypedExpr)
    requires e.expr.LogicalOp? && EvalAnd(m, num, e).Ok?
    ensures Progress(m, EvalAnd(m, num, e).value.0)
    decreases e, 0
  {
    EvalProgress(m, num, e.expr.left);
    var a := Eval(m, num, e.expr.left).value;
    HelpersProgress(a.0, num, a.1, e.expr.left.typ);
    var l := Truth(a.0, a.1, e.expr.left.typ).value;
    ProgressTransitive(m, a.0, l.0);
    if l.1 {
      EvalProgress(l.0, num, e.expr.right);
      var b := Eval(l.0, num, e.expr.right).value;
      ProgressTransitive(m, l.0, b.0);
      HelpersProgress(b.0, num, b.1, e.expr.right.typ);
      ProgressTransitive(m, b.0, Truth(b.0, b.1, e.expr.right.typ).value.0);
    }
  }

  lemma {:induction false} OrProgress(m: Machine, num: Numerics, e: TypedExpr)
    requires e.expr.LogicalOp? && EvalOr(m, num, e).Ok?
    ensures Progress(m, EvalOr(m, num, e).value.0)
    decreases e, 0
  {
    EvalProgress(m, num, e.expr.left);
    var a := Eval(m, num, e.expr.left).value;
    HelpersProgress(a.0, num, a.1, e.expr.left.typ);
    var l := Truth(a.0, a.1, e.expr.left.typ).value;
    ProgressTransitive(m, a.0, l.0);
    if !l.1 {
      EvalProgress(l.0, num, e.expr.right);
      var b := Eval(l.0, num, e.expr.right).value;
      ProgressTransitive(m, l.0, b.0);
      HelpersProgress(b.0, num, b.1, e.expr.left.typ);
      ProgressTransitive(m, b.0, Truth(b.0, b.1, e.expr.left.typ).value.0);
    }
  }

  lemma {:induction false} ExecProgress(m: Machine, num: Numerics, s: Stmt, fuel: nat)
    requires Exec(m, num, s, fuel).Ok?
    ensures Progress(m, Exec(m, num, s, fuel).value)
    decreases fuel, Size(s), 1
  {
    match s
    case ExprStmt(e) =>
      EvalProgress(m, num, e);
      var step := Eval(m, num, e).value;
      HelpersProgress(step.0, num, step.1, e.typ);
      ProgressTransitive(m, step.0, Exec(m, num, s, fuel).value);
    case Print(e) =>
      EvalProgress(m, num, e);
      var step := Eval(m, num, e).value;
      HelpersProgress(step.0, num, step.1, e.typ);
      ProgressTransitive(m, step.0, Exec(m, num, s, fuel).value);
    case Group(ss) => ExecSeqProgress(m, num, ss, fuel);
    case If(test, ifSo, ifNot) =>
      EvalProgress(m, num, test);
      var step := Eval(m, num, test).value;
      HelpersProgress(step.0, num, step.1, test.typ);
      var t := Truth(step.0, step.1, test.typ).value;
      ProgressTransitive(m, step.0, t.0);
      if t.1 || ifNot.None? {
        ExecProgress(t.0, num, ifSo, fuel);
        ProgressTransitive(m, t.0, Exec(m, num, s, fuel).value);
      } else {
        ExecProgress(t.0, num, ifNot.value, fuel);
        ProgressTransitive(m, t.0, Exec(m, num, s, fuel).value);
      }
    case While(test, body) => LoopProgress(m, num, test, body, fuel);
  }

  lemma {:induction false} ExecSeqProgress(m: Machine, num: Numerics, ss: seq<Stmt>, fuel: nat)
    requires ExecSeq(m, num, ss, fuel).Ok?
    ensures Progress(m, ExecSeq(m, num, ss, fuel).value)
    decreases fuel, SizeSeq(ss), 2
  {
    if ss != [] {
      ExecProgress(m, num, ss[0], fuel);
      var m1 := Exec(m, num, ss[0], fuel).value;
      ExecSeqProgress(m1, num, ss[1..], fuel);
      ProgressTransitive(m, m1, ExecSeq(m, num, ss, fuel).value);
    }
  }

  lemma {:induction false} LoopProgress(m: Machine, num: Numerics, test: TypedExpr, body: Stmt, fuel: nat)
    requires Loop(m, num, test, body, fuel).Ok?
    ensures Progress(m, Loop(m, num, test, body, fuel).value)
    decreases fuel, Size(body), 2
  {
    EvalProgress(m, num, test);
    var step := Eval(m, num, test).value;
    HelpersProgress(step.0, num, step.1, test.typ);
    var t := Truth(step.0, step.1, test.typ).value;
    ProgressTransitive(m, step.0, t.0);
    if t.1 {
      ExecProgress(t.0, num, body, fuel);
      var m1 := Exec(t.0, num, body, fuel).value;
      ProgressTransitive(m, t.0, m1);
      LoopProgress(m1, num, test, body, fuel - 1);
      ProgressTransitive(m, m1, Loop(m, num, test, body, fuel).value);
    }
  }

  // ---------------------------------------------------------------- truth and connectives

  /** When the static type is right about the tag, the emitted truth test is AWK's rule,
      and it touches neither the slots nor the runtime. */
  lemma TruthFollowsTags(m: Machine, v: Value, typ: AwkT)
    requires Fits(v, typ)
    requires v.tag == STRING_TAG ==> Live(m.rt.heap, v.pointer)
    ensures Truth(m, v, typ).Ok?
    ensures Truth(m, v, typ).value.1 == AwkTrue(m.rt.heap, v)
    ensures Truth(m, v, typ).value.0.rt == m.rt && Truth(m, v, typ).value.0.slots == m.slots
  {
  }

  /** Testing a String-typed value whose string was freed reads freed memory. */
  lemma TruthOfFreedString(m: Machine, v: Value)
    requires !Live(m.rt.heap, v.pointer)
    ensures Truth(m, v, AwkT.String) == Err(UseAfterFree(v.pointer))
  {
  }

  /** Once the left operand decides a `&&` (false) or a `||` (true), the right operand's code
      does not run: the result is 0.0 or 1.0 and the state is the one after the left test. */
  lemma LeftOperandDecides(m: Machine, num: Numerics, e: TypedExpr, m1: Machine, lv: Value, m2: Machine, lt: bool)
    requires e.expr.LogicalOp?
    requires Eval(m, num, e.expr.left) == Ok((m1, lv))
    requires Truth(m1, lv, e.expr.left.typ) == Ok((m2, lt))
    requires lt == (e.expr.logicalOp == Or)
    ensures var x := if lt then 1.0 else 0.0;
      Eval(m, num, e) == Ok((m2.(scratchFloat := x), Value(FLOAT_TAG, x, ZeroPtr)))
  {
  }

  /** Otherwise the right operand decides: 1.0 iff it tests true; `&&` tests it with its own
      static type, `||` with the left operand's. */
  lemma RightOperandDecides(m: Machine, num: Numerics, e: TypedExpr, m1: Machine, lv: Value, m2: Machine, lt: bool,
                            m3: Machine, rv: Value, m4: Machine, rt: bool)
    requires e.expr.LogicalOp?
    requires Eval(m, num, e.expr.left) == Ok((m1, lv))
    requires Truth(m1, lv, e.expr.left.typ) == Ok((m2, lt))
    requires lt != (e.expr.logicalOp == Or)
    requires Eval(m2, num, e.expr.right) == Ok((m3, rv))
    requires Truth(m3, rv, if e.expr.logicalOp == And then e.expr.right.typ else e.expr.left.typ) == Ok((m4, rt))
    ensures var x := if rt then 1.0 else 0.0;
      Eval(m, num, e) == Ok((m4.(scratchFloat := x), Value(FLOAT_TAG, x, ZeroPtr)))
  {
  }

  /** `0 || "a"` is false: the string operand is judged as a number because the left operand
      is Float-typed, although the string is not empty. */
  lemma OrTestsRightWithLeftType(m: Machine, num: Numerics, p: Handle)
    requires Live(m.rt.heap, p) && m.rt.heap.cells[p] == "a"
    ensures AwkTrue(m.rt.heap, Value(STRING_TAG, 0.0, p))
    ensures var zero := TypedExpr(NumberF64(0.0), Float);
      var a := TypedExpr(Expr.String("a", p), AwkT.String);
      Eval(m, num, TypedExpr(LogicalOp(zero, Or, a), Float))
        == Ok((m.(scratchFloat := 0.0), Value(FLOAT_TAG, 0.0, ZeroPtr)))
  {
    var zero := TypedExpr(NumberF64(0.0), Float);
    var a := TypedExpr(Expr.String("a", p), AwkT.String);
    assert Eval(m, num, zero) == Ok((m, Value(FLOAT_TAG, 0.0, ZeroPtr)));
    assert Eval(m, num, a) == Ok((m, Value(STRING_TAG, 0.0, p)));
    assert EvalOr(m, num, TypedExpr(LogicalOp(zero, Or, a), Float))
        == Ok((m.(scratchFloat := 0.0), Value(FLOAT_TAG, 0.0, ZeroPtr)));
  }

  /** `print (0 && (4/0))` prints the number 0: the division is never evaluated. */
  lemma PrintAndOfZero(m: Machine, num: Numerics, fuel: nat)
    requires m.rt.canary == LiveRuntime.CANARY
    ensures var zero := TypedExpr(NumberF64(0.0), Float);
      var quotient := TypedExpr(MathOp(TypedExpr(NumberF64(4.0), Float), Slash, zero), Float);
      Exec(m, num, Print(TypedExpr(LogicalOp(zero, And, quotient), Float)), fuel)
        == Ok(m.(scratchFloat := 0.0,
                 rt := m.rt.(output := m.rt.output + num.show(0.0) + "\n",
                             calls := m.rt.calls + [CallLog.PrintFloat])))
  {
  }

  /** An `if` without `else` runs its then part whatever the test says: the test is still
      evaluated and judged (and may fail), but nothing sits between the branch and the
      then label. With an `else`, the test chooses the part. */
  lemma IfWithoutElseAlwaysRunsThen(m: Machine, num: Numerics, test: TypedExpr, ifSo: Stmt, ifNot: Option<Stmt>, fuel: nat)
    ensures var r := Exec(m, num, If(test, ifSo, ifNot), fuel);
      match Eval(m, num, test)
      case Err(f) => r == Err(f)
      case Ok(step) =>
        match Truth(step.0, step.1, test.typ)
        case Err(f) => r == Err(f)
        case Ok(t) =>
          && (ifNot.None? ==> r == Exec(t.0, num, ifSo, fuel))
          && (ifNot.Some? && t.1 ==> r == Exec(t.0, num, ifSo, fuel))
          && (ifNot.Some? && !t.1 ==> r == Exec(t.0, num, ifNot.value, fuel))
  {
  }

  /** `if (0) print 1` prints 1. */
  lemma IfZeroPrintsOne(m: Machine, num: Numerics, fuel: nat)
    requires m.rt.canary == LiveRuntime.CANARY
    ensures var one := TypedExpr(NumberF64(1.0), Float);
      Exec(m, num, If(TypedExpr(NumberF64(0.0), Float), Print(one), None), fuel)
        == Ok(m.(rt := m.rt.(output := m.rt.output + num.show(1.0) + "\n",
                             calls := m.rt.calls + [CallLog.PrintFloat])))
  {
  }

  // ---------------------------------------------------------------- comparison and arithmetic

  /** A comparison of two Float-typed operands is 1.0 when the relation holds and 0.0
      otherwise; any other pair of static types is unsupported. */
  lemma ComparisonOutcome(m: Machine, num: Numerics, e: TypedExpr, m1: Machine, a: Value, m2: Machine, b: Value)
    requires e.expr.BinOp?
    requires Eval(m, num, e.expr.left) == Ok((m1, a)) && Eval(m1, num, e.expr.right) == Ok((m2, b))
    ensures e.expr.left.typ == Float && e.expr.right.typ == Float && !e.expr.binOp.MatchedBy? && !e.expr.binOp.NotMatchedBy? ==>
      var x := if Holds(e.expr.binOp, a.float, b.float) then 1.0 else 0.0;
      Eval(m, num, e) == Ok((m2.(scratchFloat := x), Value(FLOAT_TAG, x, ZeroPtr)))
    ensures e.expr.left.typ != Float || e.expr.right.typ != Float ==> Eval(m, num, e) == Err(Todo("non float float binop "))
    ensures e.expr.left.typ == Float && e.expr.right.typ == Float && (e.expr.binOp.MatchedBy? || e.expr.binOp.NotMatchedBy?) ==>
      Eval(m, num, e) == Err(Todo("matched expr"))
  {
  }

  /** The `string_to_number` calls an arithmetic operand costs: one exactly when its static
      type is not Float and its tag is not FLOAT_TAG. */
  function Conversion(typ: AwkT, v: Value): seq<CallLog.Call>
  {
    if typ != Float && v.tag != FLOAT_TAG then [CallLog.StringToNumber] else []
  }

  /** Arithmetic always yields a number with the zero pointer; it converts exactly the
      operands `Conversion` names, frees nothing and prints nothing; number operands are
      used as they are. */
  lemma ArithmeticConverts(m: Machine, num: Numerics, e: TypedExpr, m1: Machine, a: Value, m2: Machine, b: Value)
    requires e.expr.MathOp?
    requires Eval(m, num, e.expr.left) == Ok((m1, a)) && Eval(m1, num, e.expr.right) == Ok((m2, b))
    requires Eval(m, num, e).Ok?
    ensures var (m3, v) := Eval(m, num, e).value;
      && v.tag == FLOAT_TAG && v.pointer == ZeroPtr
      && m3.slots == m2.slots && m3.rt.heap == m2.rt.heap && m3.rt.output == m2.rt.output
      && m3.rt.calls == m2.rt.calls + Conversion(e.expr.left.typ, a) + Conversion(e.expr.right.typ, b)
    ensures a.tag == FLOAT_TAG && b.tag == FLOAT_TAG ==>
      Eval(m, num, e).value.1.float == Arith(num, e.expr.mathOp, a.float, b.float)
  {
    var x := if e.expr.left.typ != Float then AsFloat(m2, num, a).value else (m2, a.float);
    assert x.0.slots == m2.slots && x.0.rt.heap == m2.rt.heap && x.0.rt.output == m2.rt.output;
    assert x.0.rt.calls == m2.rt.calls + Conversion(e.expr.left.typ, a);
  }

  // ---------------------------------------------------------------- ownership of strings

  /** Assignment frees the string the slot held, stores the new value, and (for a string)
      returns a fresh copy, so the slot and the result never share a handle. */
  lemma AssignmentOwnership(m: Machine, num: Numerics, name: string, value: TypedExpr, typ: AwkT, m1: Machine, nv: Value)
    requires Eval(m, num, value) == Ok((m1, nv))
    requires Valid(m1.rt.heap)
    requires Eval(m, num, TypedExpr(Assign(name, value), typ)).Ok?
    ensures name in m1.slots
    ensures var (m2, r) := Eval(m, num, TypedExpr(Assign(name, value), typ)).value;
      var previous := m1.slots[name];
      && m2.slots == m1.slots[name := nv]
      && (previous.tag == STRING_TAG ==> Live(m1.rt.heap, previous.pointer) && !Live(m2.rt.heap, previous.pointer))
      && (previous.tag != STRING_TAG && value.typ == Float ==> m2.rt == m1.rt)
      && (value.typ == Float ==> r == nv)
      && (value.typ == AwkT.String || (value.typ == AwkT.Variable && nv.tag == STRING_TAG) ==>
            && r.pointer != nv.pointer && !Live(m1.rt.heap, r.pointer)
            && Live(m2.rt.heap, r.pointer) && m2.rt.heap.cells[r.pointer] == m2.rt.heap.cells[nv.pointer])
  {
    var previous := m1.slots[name];
    var md := Dropped(m1, previous, AwkT.Variable).value;
    assert md.rt.heap.next == m1.rt.heap.next && Valid(md.rt.heap);
    assert md.rt.heap.cells == if previous.tag == STRING_TAG then m1.rt.heap.cells - {previous.pointer} else m1.rt.heap.cells;
  }

  /** Reading a String-typed variable, or a Variable-typed one tagged STRING_TAG, yields a
      fresh copy of its string; a Float-typed read yields the slot itself. */
  lemma ReadCopiesStrings(m: Machine, num: Numerics, name: string, typ: AwkT)
    requires name in m.slots && Valid(m.rt.heap)
    requires Eval(m, num, TypedExpr(Expr.Variable(name), typ)).Ok?
    ensures var (m2, r) := Eval(m, num, TypedExpr(Expr.Variable(name), typ)).value;
      var v := m.slots[name];
      && m2.slots == m.slots
      && (typ == Float ==> m2 == m && r == v)
      && (typ == AwkT.String || (typ == AwkT.Variable && v.tag == STRING_TAG) ==>
            && !Live(m.rt.heap, r.pointer) && Live(m.rt.heap, v.pointer)
            && m2.rt.heap.cells == m.rt.heap.cells[r.pointer := m.rt.heap.cells[v.pointer]])
      && (typ == AwkT.Variable && v.tag != STRING_TAG ==> r == Value(v.tag, v.float, ZeroPtr) && m2.rt == m.rt)
  {
  }

  /** An expression statement frees the string it computed; `print` leaves it allocated. */
  lemma ExprStmtFreesPrintKeeps(m: Machine, num: Numerics, e: TypedExpr, fuel: nat, m1: Machine, v: Value)
    requires Eval(m, num, e) == Ok((m1, v))
    requires e.typ == AwkT.String || (e.typ == AwkT.Variable && v.tag == STRING_TAG)
    requires m1.rt.canary == LiveRuntime.CANARY && Live(m1.rt.heap, v.pointer)
    ensures Exec(m, num, ExprStmt(e), fuel).Ok?
    ensures Exec(m, num, ExprStmt(e), fuel).value.rt.heap.cells == m1.rt.heap.cells - {v.pointer}
    ensures Exec(m, num, Print(e), fuel).Ok?
    ensures Exec(m, num, Print(e), fuel).value.rt.heap == m1.rt.heap
    ensures Exec(m, num, Print(e), fuel).value.rt.output == m1.rt.output + LiveRuntime.Printed(m1.rt.heap.cells[v.pointer])
  {
  }

  /** A string literal is boxed once, when compiling; assigning it stores that very box in
      the variable, so running the assignment a second time frees the box and then copies
      from freed memory. */
  lemma LiteralAssignedTwice(m: Machine, num: Numerics, p: Handle, fuel: nat)
    requires Valid(m.rt.heap) && m.rt.canary == LiveRuntime.CANARY && Live(m.rt.heap, p) && m.rt.heap.cells[p] == "a"
    requires "x" in m.slots && m.slots["x"] == Unset
    ensures var s := ExprStmt(TypedExpr(Assign("x", TypedExpr(Expr.String("a", p), AwkT.String)), AwkT.String));
      && Exec(m, num, s, fuel).Ok?
      && Exec(m, num, s, fuel).value.slots["x"] == Value(STRING_TAG, 0.0, p)
      && Exec(m, num, Group([s, s]), fuel) == Err(UseAfterFree(p))
  {
    var lit := TypedExpr(Expr.String("a", p), AwkT.String);
    var assign := TypedExpr(Assign("x", lit), AwkT.String);
    var s := ExprStmt(assign);
    var box := Value(STRING_TAG, 0.0, p);
    // first run: nothing to free, the box goes into the slot, the returned copy is freed
    var q := m.rt.heap.next;
    var m0 := m.(slots := m.slots["x" := box]);
    assert Dropped(m, Unset, AwkT.Variable) == Ok(m);
    var copied := m0.(rt := m0.rt.(heap := Heap(m.rt.heap.cells[q := "a"], q + 1),
                                   calls := m.rt.calls + [CallLog.CopyString]));
    assert Copied(m0, box, AwkT.String) == Ok((copied, Value(STRING_TAG, 0.0, q)));
    assert Eval(m, num, assign) == Ok((copied, Value(STRING_TAG, 0.0, q)));
    assert m.rt.heap.cells[q := "a"] - {q} == m.rt.heap.cells;
    var m1 := copied.(rt := copied.rt.(heap := Heap(m.rt.heap.cells, q + 1), calls := copied.rt.calls + [CallLog.FreeString]));
    assert Exec(m, num, s, fuel) == Ok(m1);
    // second run: the slot's string is the box itself, which is freed before being copied
    assert Dropped(m1, box, AwkT.Variable).Ok?;
    var m2 := Dropped(m1, box, AwkT.Variable).value;
    assert !Live(m2.rt.heap, p);
    assert Eval(m1, num, assign) == Err(UseAfterFree(p));
    assert Exec(m1, num, s, fuel) == Err(UseAfterFree(p));
    assert Exec(m, num, Group([s, s]), fuel) == ExecSeq(m, num, [s, s], fuel);
    assert [s, s][1..] == [s];
  }

  // ---------------------------------------------------------------- compiling

  /** Compilation stops with a `todo!` exactly when the program uses a construct the code
      generator cannot emit. */
  lemma {:induction false} BoxExprOkIff(e: TypedExpr, h: Heap)
    ensures BoxExpr(e, h).Ok? <==> SupportedExpr(e)
    decreases e, 1
  {
    match e.expr
    case Assign(_, value) => BoxExprOkIff(value, h);
    case MathOp(_, _, _) => BoxPairOkIff(e, h);
    case BinOp(_, _, _) => BoxPairOkIff(e, h);
    case LogicalOp(_, _, _) => BoxPairOkIff(e, h);
    case Column(col) => BoxExprOkIff(col, h);
    case _ =>
  }

  lemma {:induction false} BoxPairOkIff(e: TypedExpr, h: Heap)
    requires e.expr.MathOp? || e.expr.BinOp? || e.expr.LogicalOp?
    ensures var (left, right) := (e.expr.left, e.expr.right);
      (BoxExpr(left, h).Ok? && BoxExpr(right, BoxExpr(left, h).value.1).Ok?)
      <==> SupportedExpr(left) && SupportedExpr(right)
    decreases e, 0
  {
    var (left, right) := (e.expr.left, e.expr.right);
    BoxExprOkIff(left, h);
    if BoxExpr(left, h).Ok? {
      BoxExprOkIff(right, BoxExpr(left, h).value.1);
    }
  }

  lemma {:induction false} BoxStmtOkIff(s: Stmt, h: Heap)
    ensures BoxStmt(s, h).Ok? <==> Supported(s)
  {
    match s
    case ExprStmt(e) => BoxExprOkIff(e, h);
    case Print(e) => BoxExprOkIff(e, h);
    case Group(ss) => BoxSeqOkIff(ss, h);
    case If(test, ifSo, ifNot) =>
      BoxExprOkIff(test, h);
      if BoxExpr(test, h).Ok? {
        var h1 := BoxExpr(test, h).value.1;
        if ifNot.Some? {
          BoxStmtOkIff(ifNot.value, h1);
          if BoxStmt(ifNot.value, h1).Ok? {
            BoxStmtOkIff(ifSo, BoxStmt(ifNot.value, h1).value.1);
          }
        } else {
          BoxStmtOkIff(ifSo, h1);
        }
      }
    case While(test, body) =>
      BoxExprOkIff(test, h);
      if BoxExpr(test, h).Ok? {
        BoxStmtOkIff(body, BoxExpr(test, h).value.1);
      }
  }

  lemma {:induction false} BoxSeqOkIff(ss: seq<Stmt>, h: Heap)
    ensures BoxSeq(ss, h).Ok? <==> forall i :: 0 <= i < |ss| ==> Supported(ss[i])
  {
    if ss != [] {
      BoxStmtOkIff(ss[0], h);
      if BoxStmt(ss[0], h).Ok? {
        BoxSeqOkIff(ss[1..], BoxStmt(ss[0], h).value.1);
        assert forall i :: 1 <= i < |ss| ==> ss[i] == ss[1..][i - 1];
      }
    }
  }

  /** Every literal of `e` is boxed in a live allocation holding its text. */
  predicate BoxedExpr(e: TypedExpr, h: Heap)
  {
    match e.expr
    case String(text, p) => Live(h, p) && h.cells[p] == text
    case Assign(_, value) => BoxedExpr(value, h)
    case MathOp(left, _, right) => BoxedExpr(left, h) && BoxedExpr(right, h)
    case BinOp(left, _, right) => BoxedExpr(left, h) && BoxedExpr(right, h)
    case LogicalOp(left, _, right) => BoxedExpr(left, h) && BoxedExpr(right, h)
    case Concatenation(left, right) => BoxedExpr(left, h) && BoxedExpr(right, h)
    case Column(col) => BoxedExpr(col, h)
    case _ => true
  }

  /** `h2` keeps every allocation of `h` with its contents. */
  predicate Grows(h: Heap, h2: Heap)
  {
    h.next <= h2.next && forall p :: p in h.cells ==> p in h2.cells && h2.cells[p] == h.cells[p]
  }

  lemma {:induction false} BoxedExprGrows(e: TypedExpr, h: Heap, h2: Heap)
    requires BoxedExpr(e, h) && Grows(h, h2)
    ensures BoxedExpr(e, h2)
  {
    match e.expr
    case Assign(_, value) => BoxedExprGrows(value, h, h2);
    case MathOp(left, _, right) => BoxedExprGrows(left, h, h2); BoxedExprGrows(right, h, h2);
    case BinOp(left, _, right) => BoxedExprGrows(left, h, h2); BoxedExprGrows(right, h, h2);
    case LogicalOp(left, _, right) => BoxedExprGrows(left, h, h2); BoxedExprGrows(right, h, h2);
    case Concatenation(left, right) => BoxedExprGrows(left, h, h2); BoxedExprGrows(right, h, h2);
    case Column(col) => BoxedExprGrows(col, h, h2);
    case _ =>
  }

  /** Compiling an expression boxes each of its literals into a new allocation holding the
      literal's text and frees nothing. */
  lemma {:induction false} BoxExprBoxes(e: TypedExpr, h: Heap)
    requires Valid(h) && BoxExpr(e, h).Ok?
    ensures var (e2, h2) := BoxExpr(e, h).value;
      Valid(h2) && Grows(h, h2) && BoxedExpr(e2, h2) && e2.typ == e.typ
    decreases e, 1
  {
    match e.expr
    case Assign(_, value) => BoxExprBoxes(value, h);
    case MathOp(_, _, _) => BoxPairBoxes(e, h);
    case BinOp(_, _, _) => BoxPairBoxes(e, h);
    case LogicalOp(_, _, _) => BoxPairBoxes(e, h);
    case Column(col) => BoxExprBoxes(col, h);
    case _ =>
  }

  lemma {:induction false} BoxPairBoxes(e: TypedExpr, h: Heap)
    requires e.expr.MathOp? || e.expr.BinOp? || e.expr.LogicalOp?
    requires Valid(h) && BoxExpr(e.expr.left, h).Ok?
    requires BoxExpr(e.expr.right, BoxExpr(e.expr.left, h).value.1).Ok?
    ensures var (left, right) := (e.expr.left, e.expr.right);
      var (l2, h1) := BoxExpr(left, h).value;
      var (r2, h2) := BoxExpr(right, h1).value;
      Valid(h2) && Grows(h, h2) && BoxedExpr(l2, h2) && BoxedExpr(r2, h2)
      && l2.typ == left.typ && r2.typ == right.typ
    decreases e, 0
  {
    var (left, right) := (e.expr.left, e.expr.right);
    BoxExprBoxes(left, h);
    var (l2, h1) := BoxExpr(left, h).value;
    BoxExprBoxes(right, h1);
    var h2 := BoxExpr(right, h1).value.1;
    BoxedExprGrows(l2, h1, h2);
  }

  // ---------------------------------------------------------------- the emitted function

  /** The function `CodeGen` emits, running: its variable slots (`scopes`), its scratch slots
      and the runtime it calls into. Each method is the code one `compile_*` helper emits,
      proved to do what the interpreter above says. */
  class Emitted {
    var slots: map<string, Value>
    var scratchFloat: real
    var scratchPointer: Handle
    var scratchInt: bool
    const rt: TestingRuntime.TestRuntime
    const num: Numerics

    ghost function State(): Machine
      reads this, rt, rt.columns, rt.calls
    {
      Machine(slots, scratchFloat, scratchPointer, scratchInt, rt.Data())
    }

    /** `CodeGen::new` and `define_all_vars`: one slot per variable of the program. */
    constructor (names: seq<string>, runtime: TestingRuntime.TestRuntime, numerics: Numerics)
      ensures rt == runtime && num == numerics
      ensures State() == Machine(SlotsFor(names), 0.0, ZeroPtr, false, runtime.Data())
    {
      rt := runtime;
      num := numerics;
      slots := map[];
      scratchFloat := 0.0;
      scratchPointer := ZeroPtr;
      scratchInt := false;
      new;
      DefineAllVars(names);
    }

    /** `define_all_vars`: each name gets a slot holding `create_value`'s 0. */
    method DefineAllVars(names: seq<string>)
      modifies this
      ensures slots == old(slots) + SlotsFor(names)
      ensures scratchFloat == old(scratchFloat) && scratchPointer == old(scratchPointer)
      ensures scratchInt == old(scratchInt)
    {
      for i := 0 to |names|
        invariant slots == old(slots) + SlotsFor(names[..i])
        invariant scratchFloat == old(scratchFloat) && scratchPointer == old(scratchPointer)
        invariant scratchInt == old(scratchInt)
      {
        assert names[..i + 1][..i] == names[..i];
        slots := slots[names[i] := Unset];
      }
      assert names[..|names|] == names;
    }

    /** `truthy_ret_integer`. */
    method TruthyRetInteger(v: Value, typ: AwkT) returns (r: Result<bool, Fault>)
      modifies this
      ensures Agrees(r, State(), Truth(old(State()), v, typ))
    {
      var b: bool;
      if typ == Float || (typ == AwkT.Variable && v.tag != STRING_TAG) {
        b := v.float != 0.0;
      } else {
        if v.pointer !in rt.heap.cells {
          return Err(UseAfterFree(v.pointer));
        }
        b := |rt.heap.cells[v.pointer]| != 0;
      }
      if typ == AwkT.Variable {
        scratchInt := b;
      }
      return Ok(b);
    }

    /** `to_float`. */
    method ToFloat(v: Value) returns (r: Result<real, Fault>)
      modifies this, rt.calls
      ensures Agrees(r, State(), AsFloat(old(State()), num, v))
    {
      if v.tag == FLOAT_TAG {
        scratchFloat := v.float;
        return Ok(v.float);
      }
      r := rt.StringToNumber(num, v.pointer);
      if r.Ok? {
        scratchFloat := r.value;
      }
    }

    /** `drop_if_str`. */
    method DropIfStr(v: Value, typ: AwkT) returns (r: Result<(), Fault>)
      modifies rt, rt.calls
      ensures unchanged(rt`columns, rt`calls)
      ensures Settles(r, State(), Dropped(old(State()), v, typ))
    {
      if typ == Float || (typ == AwkT.Variable && v.tag != STRING_TAG) {
        return Ok(());
      }
      var freed := rt.FreeString(v.pointer);
      if freed.Err? {
        return Err(freed.error);
      }
      return Ok(());
    }

    /** `drop_if_string_ptr`. */
    method DropIfStringPtr(name: string, typ: AwkT) returns (r: Result<(), Fault>)
      modifies rt, rt.calls
      ensures unchanged(rt`columns, rt`calls)
      ensures Settles(r, State(), DroppedSlot(old(State()), name, typ))
    {
      if typ == Float {
        return Ok(());
      }
      if name !in slots {
        return Err(Panic("no slot for variable " + name));
      }
      r := DropIfStr(slots[name], typ);
    }

    /** `copy_if_string`. */
    method CopyIfString(v: Value, typ: AwkT) returns (r: Result<Value, Fault>)
      modifies this, rt, rt.calls
      ensures unchanged(rt`columns, rt`calls)
      ensures Agrees(r, State(), Copied(old(State()), v, typ))
    {
      if typ == Float {
        return Ok(v);
      }
      if typ == AwkT.Variable && v.tag != STRING_TAG {
        scratchPointer := ZeroPtr;
        return Ok(Value(v.tag, v.float, ZeroPtr));
      }
      var q := rt.CopyString(v.pointer);
      if q.Err? {
        return Err(q.error);
      }
      if typ == AwkT.Variable {
        scratchPointer := q.value;
        return Ok(Value(v.tag, v.float, q.value));
      }
      return Ok(Value(STRING_TAG, 0.0, q.value));
    }

    /** `compile_expr`. */
    method CompileExpr(e: TypedExpr) returns (r: Result<Value, Fault>)
      modifies this, rt, rt.columns, rt.calls
      ensures unchanged(rt`columns, rt`calls)
      ensures Agrees(r, State(), Eval(old(State()), num, e))
      decreases e, 1
    {
      match e.expr
      case Assign(_, _) =>
        r := CompileAssign(e);
      case NumberF64(x) =>
        return Ok(Value(FLOAT_TAG, x, ZeroPtr));
      case String(_, boxed) =>
        return Ok(Value(STRING_TAG, 0.0, boxed));
      case MathOp(_, _, _) =>
        r := CompileMath(e);
      case BinOp(_, _, _) =>
        r := CompileCompare(e);
      case LogicalOp(_, op, _) =>
        if op == And {
          r := CompileAnd(e);
        } else {
          r := CompileOr(e);
        }
      case Variable(name) =>
        if name !in slots {
          return Err(Panic("no slot for variable " + name));
        }
        r := CopyIfString(slots[name], e.typ);
      case Column(_) =>
        r := CompileColumn(e);
      case Call =>
        var x := rt.NextLine();
        if x.Err? {
          return Err(x.error);
        }
        return Ok(Value(FLOAT_TAG, x.value, ZeroPtr));
      case Concatenation(left, right) =>
        var a := CompileExpr(left);
        if a.Err? {
          return Err(a.error);
        }
        var b := CompileExpr(right);
        if b.Err? {
          return Err(b.error);
        }
        return Err(Todo("concat wip"));
    }

    /** An assignment: the value, then the old contents of the slot freed, then the copy. */
    method CompileAssign(e: TypedExpr) returns (r: Result<Value, Fault>)
      requires e.expr.Assign?
      modifies this, rt, rt.columns, rt.calls
      ensures unchanged(rt`columns, rt`calls)
      ensures Agrees(r, State(), Eval(old(State()), num, e))
      decreases e, 0
    {
      var name, value := e.expr.name, e.expr.value;
      var v := CompileExpr(value);
      if v.Err? {
        return Err(v.error);
      }
      if name !in slots {
        return Err(Panic("no slot for variable " + name));
      }
      var dropped := DropIfStr(slots[name], AwkT.Variable);
      if dropped.Err? {
        return Err(dropped.error);
      }
      slots := slots[name := v.value];
      r := CopyIfString(v.value, value.typ);
    }

    /** A column: the index expression, then the runtime's `column`. */
    method CompileColumn(e: TypedExpr) returns (r: Result<Value, Fault>)
      requires e.expr.Column?
      modifies this, rt, rt.columns, rt.calls
      ensures unchanged(rt`columns, rt`calls)
      ensures Agrees(r, State(), Eval(old(State()), num, e))
      decreases e, 0
    {
      var c := CompileExpr(e.expr.col);
      if c.Err? {
        return Err(c.error);
      }
      var q := rt.Column(num, c.value.tag, c.value.float, c.value.pointer);
      if q.Err? {
        return Err(q.error);
      }
      return Ok(Value(STRING_TAG, 0.0, q.value));
    }

    method CompileMath(e: TypedExpr) returns (r: Result<Value, Fault>)
      requires e.expr.MathOp?
      modifies this, rt, rt.columns, rt.calls
      ensures unchanged(rt`columns, rt`calls)
      ensures Agrees(r, State(), EvalMath(old(State()), num, e))
      decreases e, 0
    {
      var a := CompileExpr(e.expr.left);
      if a.Err? {
        return Err(a.error);
      }
      var b := CompileExpr(e.expr.right);
      if b.Err? {
        return Err(b.error);
      }
      var x := a.value.float;
      if e.expr.left.typ != Float {
        var c := ToFloat(a.value);
        if c.Err? {
          return Err(c.error);
        }
        x := c.value;
      }
      var y := b.value.float;
      if e.expr.right.typ != Float {
        var c := ToFloat(b.value);
        if c.Err? {
          return Err(c.error);
        }
        y := c.value;
      }
      return Ok(Value(FLOAT_TAG, Arith(num, e.expr.mathOp, x, y), ZeroPtr));
    }

    method CompileCompare(e: TypedExpr) returns (r: Result<Value, Fault>)
      requires e.expr.BinOp?
      modifies this, rt, rt.columns, rt.calls
      ensures unchanged(rt`columns, rt`calls)
      ensures Agrees(r, State(), EvalCompare(old(State()), num, e))
      decreases e, 0
    {
      var a := CompileExpr(e.expr.left);
      if a.Err? {
        return Err(a.error);
      }
      var b := CompileExpr(e.expr.right);
      if b.Err? {
        return Err(b.error);
      }
      if e.expr.left.typ != Float || e.expr.right.typ != Float {
        return Err(Todo("non float float binop "));
      }
      if e.expr.binOp.MatchedBy? || e.expr.binOp.NotMatchedBy? {
        return Err(Todo("matched expr"));
      }
      scratchFloat := if Holds(e.expr.binOp, a.value.float, b.value.float) then 1.0 else 0.0;
      return Ok(Value(FLOAT_TAG, scratchFloat, ZeroPtr));
    }

    method CompileAnd(e: TypedExpr) returns (r: Result<Value, Fault>)
      requires e.expr.LogicalOp?
      modifies this, rt, rt.columns, rt.calls
      ensures unchanged(rt`columns, rt`calls)
      ensures Agrees(r, State(), EvalAnd(old(State()), num, e))
      decreases e, 0
    {
      var a := CompileExpr(e.expr.left);
      if a.Err? {
        return Err(a.error);
      }
      var l := TruthyRetInteger(a.value, e.expr.left.typ);
      if l.Err? {
        return Err(l.error);
      }
      if !l.value {
        scratchFloat := 0.0;
        return Ok(Value(FLOAT_TAG, 0.0, ZeroPtr));
      }
      var b := CompileExpr(e.expr.right);
      if b.Err? {
        return Err(b.error);
      }
      var t := TruthyRetInteger(b.value, e.expr.right.typ);
      if t.Err? {
        return Err(t.error);
      }
      scratchFloat := if t.value then 1.0 else 0.0;
      return Ok(Value(FLOAT_TAG, scratchFloat, ZeroPtr));
    }

    method CompileOr(e: TypedExpr) returns (r: Result<Value, Fault>)
      requires e.expr.LogicalOp?
      modifies this, rt, rt.columns, rt.calls
      ensures unchanged(rt`columns, rt`calls)
      ensures Agrees(r, State(), EvalOr(old(State()), num, e))
      decreases e, 0
    {
      var a := CompileExpr(e.expr.left);
      if a.Err? {
        return Err(a.error);
      }
      var l := TruthyRetInteger(a.value, e.expr.left.typ);
      if l.Err? {
        return Err(l.error);
      }
      if l.value {
        scratchFloat := 1.0;
        return Ok(Value(FLOAT_TAG, 1.0, ZeroPtr));
      }
      var b := CompileExpr(e.expr.right);
      if b.Err? {
        return Err(b.error);
      }
      var t := TruthyRetInteger(b.value, e.expr.left.typ);
      if t.Err? {
        return Err(t.error);
      }
      scratchFloat := if t.value then 1.0 else 0.0;
      return Ok(Value(FLOAT_TAG, scratchFloat, ZeroPtr));
    }

    /** `compile_stmt`. */
    method CompileStmt(s: Stmt, fuel: nat) returns (r: Result<(), Fault>)
      modifies this, rt, rt.columns, rt.calls
      ensures unchanged(rt`columns, rt`calls)
      ensures Settles(r, State(), Exec(old(State()), num, s, fuel))
      decreases fuel, Size(s), 1
    {
      match s
      case ExprStmt(e) =>
        var v := CompileExpr(e);
        if v.Err? {
          return Err(v.error);
        }
        r := DropIfStr(v.value, e.typ);
      case Print(e) =>
        var v := CompileExpr(e);
        if v.Err? {
          return Err(v.error);
        }
        if e.typ == Float || (e.typ == AwkT.Variable && v.value.tag == FLOAT_TAG) {
          r := rt.PrintFloat(num, v.value.float);
        } else {
          r := rt.PrintString(v.value.pointer);
        }
      case Group(ss) =>
        r := CompileGroup(ss, fuel);
      case If(test, ifSo, ifNot) =>
        var v := CompileExpr(test);
        if v.Err? {
          return Err(v.error);
        }
        var t := TruthyRetInteger(v.value, test.typ);
        if t.Err? {
          return Err(t.error);
        }
        if t.value || ifNot.None? {
          r := CompileStmt(ifSo, fuel);
        } else {
          r := CompileStmt(ifNot.value, fuel);
        }
      case While(test, body) =>
        r := CompileWhile(test, body, fuel);
    }

    method CompileGroup(ss: seq<Stmt>, fuel: nat) returns (r: Result<(), Fault>)
      modifies this, rt, rt.columns, rt.calls
      ensures unchanged(rt`columns, rt`calls)
      ensures Settles(r, State(), ExecSeq(old(State()), num, ss, fuel))
      decreases fuel, SizeSeq(ss), 2
    {
      var i := 0;
      while i < |ss|
        invariant 0 <= i <= |ss|
        invariant unchanged(rt`columns, rt`calls)
        invariant ExecSeq(State(), num, ss[i..], fuel) == ExecSeq(old(State()), num, ss, fuel)
      {
        SizeSeqBound(ss, i);
        assert ss[i..][1..] == ss[i + 1..];
        var done := CompileStmt(ss[i], fuel);
        if done.Err? {
          return done;
        }
        i := i + 1;
      }
      return Ok(());
    }

    /** The loop `compile_stmt` emits for `while`; each test of the condition takes one
        unit of fuel. */
    method CompileWhile(test: TypedExpr, body: Stmt, fuel: nat) returns (r: Result<(), Fault>)
      modifies this, rt, rt.columns, rt.calls
      ensures unchanged(rt`columns, rt`calls)
      ensures Settles(r, State(), Loop(old(State()), num, test, body, fuel))
      decreases fuel, Size(body), 2
    {
      var f: nat := fuel;
      while true
        invariant f <= fuel
        invariant unchanged(rt`columns, rt`calls)
        invariant Loop(State(), num, test, body, f) == Loop(old(State()), num, test, body, fuel)
        decreases f
      {
        if f == 0 {
          return Err(OutOfFuel);
        }
        var v := CompileExpr(test);
        if v.Err? {
          return Err(v.error);
        }
        var t := TruthyRetInteger(v.value, test.typ);
        if t.Err? {
          return Err(t.error);
        }
        if !t.value {
          return Ok(());
        }
        var done := CompileStmt(body, f);
        if done.Err? {
          return done;
        }
        f := f - 1;
      }
    }
  }

  /** Every element of a group is smaller than the group. */
  lemma {:induction false} SizeSeqBound(ss: seq<Stmt>, i: nat)
    requires i < |ss|
    ensures Size(ss[i]) + SizeSeq(ss[i + 1..]) <= SizeSeq(ss[i..])
    ensures SizeSeq(ss[i..]) <= SizeSeq(ss)
  {
    assert ss[i..][1..] == ss[i + 1..];
    if i > 0 {
      SizeSeqBound(ss[1..], i - 1);
      assert ss[1..][i - 1..] == ss[i..];
      assert ss[1..][i..] == ss[i + 1..];
    }
  }

  /** `compile_and_capture`: the capturing runtime reads the files, the program is compiled
      (boxing its literals) and its slots defined, the emitted function runs, and the
      captured output is returned. */
  method CompileAndCapture(prog: Stmt, paths: seq<string>, disk: map<string, string>, num: Numerics, fuel: nat)
    returns (r: Result<string, Fault>)
    ensures r == Capture(prog, paths, disk, num, fuel)
  {
    var made := TestingRuntime.TestRuntime.New(paths, disk, EmptyHeap());
    if made.Err? {
      return Err(made.error);
    }
    var rt := made.value;
    var compiled := BoxStmt(prog, rt.heap);
    if compiled.Err? {
      return Err(compiled.error);
    }
    rt.heap := compiled.value.1;
    var f := new Emitted(StmtVars(prog), rt, num);
    var done := f.CompileStmt(compiled.value.0, fuel);
    if done.Err? {
      return Err(done.error);
    }
    return Ok(rt.output);
  }
}
