// The recursive-descent parser: a cursor over the scanner's tokens that builds pattern-action
// rules, statements and expressions. Every `panic!` of the parser, including indexing past the
// last token, is a `Panic` fault.

module Parsing {
  import opened Wrappers
  import LexerTypes
  import Scanner

  type Token = Scanner.Token
  type BinOp = LexerTypes.BinOp

  /** The token kinds the parser asks for: those of the lexer's type declarations, extended
      with the kinds of the tokens the scanner emits, and `While`, which no token has. */
  datatype TokenType =
    | Minus | Plus | Slash | Star | Bang | BangEq | EqEq | Greater | GreaterEq | Less | LessEq
    | String | Number | And | Or | False | True | EOF | Column
    | Eq | LeftBrace | RightBrace | LeftParen | RightParen | Semicolon
    | Ret | If | Else | Begin | End | Print | Ident | While

  /** `ttype`: the kind of a token, whatever its payload. */
  function Kind(t: Token): (k: TokenType)
    ensures k != TokenType.While
    ensures k == TokenType.EOF <==> t.EOF?
  {
    match t
    case Column => TokenType.Column
    case BinOp(op) =>
      (match op
       case Minus => TokenType.Minus
       case Plus => TokenType.Plus
       case Slash => TokenType.Slash
       case Star => TokenType.Star
       case Greater => TokenType.Greater
       case GreaterEq => TokenType.GreaterEq
       case Less => TokenType.Less
       case LessEq => TokenType.LessEq
       case BangEq => TokenType.BangEq
       case EqEq => TokenType.EqEq)
    case LogicalOp(op) => if op == LexerTypes.LogicalOp.And then TokenType.And else TokenType.Or
    case Bang => TokenType.Bang
    case String(_) => TokenType.String
    case NumberF64(_) => TokenType.Number
    case Eq => TokenType.Eq
    case LeftBrace => TokenType.LeftBrace
    case RightBrace => TokenType.RightBrace
    case LeftParen => TokenType.LeftParen
    case RightParen => TokenType.RightParen
    case Semicolon => TokenType.Semicolon
    case True => TokenType.True
    case False => TokenType.False
    case Ret => TokenType.Ret
    case If => TokenType.If
    case Else => TokenType.Else
    case Begin => TokenType.Begin
    case End => TokenType.End
    case Print => TokenType.Print
    case Ident(_) => TokenType.Ident
    case EOF => TokenType.EOF
  }

  // ---------------------------------------------------------------- the syntax tree

  datatype Expr =
    | NumberF64(value: real)
    | String(text: string)
    | Variable(name: string)
    | BinOp(left: Expr, op: BinOp, right: Expr)
    | Column(index: Expr)

  datatype Stmt =
    | ExprStmt(expr: Expr)
    | Print(expr: Expr)
    | Assign(name: string, value: Expr)
    | Return(result: Option<Expr>)
    | While(test: Expr, body: Stmt)
    | If(test: Expr, ifSo: Stmt, ifNot: Option<Stmt>)
    | Group(stmts: seq<Stmt>)

  /** A rule: an optional pattern and an optional action; a rule written as a bare pattern
      has no action of its own (`new_pattern_only`). */
  datatype PatternAction = PatternAction(pattern: Option<Expr>, action: Option<Stmt>)

  datatype Program = Program(begins: seq<Stmt>, ends: seq<Stmt>, patternActions: seq<PatternAction>)

  /** `PAType`: what one rule contributes to the program. */
  datatype Rule = Normal(rule: PatternAction) | BeginRule(begin: Stmt) | EndRule(end: Stmt)

  /** A parse from a position: the position after it and what it built. */
  type Parsed<T> = Result<(nat, T), Fault>

  const OutOfBounds := Panic("index out of bounds")

  // ---------------------------------------------------------------- the cursor

  /** `is_at_end`: the token under the cursor is EOF; there must be one. */
  function AtEnd(ts: seq<Token>, p: nat): Result<bool, Fault>
  {
    if p < |ts| then Ok(ts[p].EOF?) else Err(OutOfBounds)
  }

  /** `peek().ttype()`. */
  function PeekKind(ts: seq<Token>, p: nat): Result<TokenType, Fault>
  {
    if p < |ts| then Ok(Kind(ts[p])) else Err(OutOfBounds)
  }

  /** `check`: not at the end, and the token under the cursor has kind `k`. */
  function CheckAt(ts: seq<Token>, p: nat, k: TokenType): Result<bool, Fault>
  {
    var end :- AtEnd(ts, p);
    Ok(!end && Kind(ts[p]) == k)
  }

  /** `advance`: move past the token under the cursor unless it is EOF, and return the token
      before the cursor. */
  function AdvanceAt(ts: seq<Token>, p: nat): (r: Parsed<Token>)
    ensures r.Ok? ==> p < |ts| && r.value.0 == (if ts[p].EOF? then p else p + 1)
    ensures r.Ok? && !ts[p].EOF? ==> r.value.1 == ts[p]
    ensures p < |ts| && !ts[p].EOF? ==> r.Ok?
  {
    var end :- AtEnd(ts, p);
    var q: nat := if end then p else p + 1;
    if q == 0 then Err(Panic("called `Option::unwrap()` on a `None` value")) else Ok((q, ts[q - 1]))
  }

  /** `consume`: the token under the cursor if it has kind `k`, else a panic. */
  function ConsumeAt(ts: seq<Token>, p: nat, k: TokenType, message: string): (r: Parsed<Token>)
    ensures r.Ok? ==> p < |ts| && r.value == (p + 1, ts[p]) && Kind(ts[p]) == k
  {
    var c :- CheckAt(ts, p, k);
    if c then AdvanceAt(ts, p) else Err(Panic(message))
  }

  /** `matches`: advance past the token under the cursor if its kind is one of `ks`. */
  function MatchesAt(ts: seq<Token>, p: nat, ks: seq<TokenType>): (r: Parsed<bool>)
    ensures r.Ok? && r.value.1 ==> p < |ts| && Kind(ts[p]) in ks
    ensures r.Ok? && r.value.1 && !ts[p].EOF? ==> r.value.0 == p + 1
    ensures r.Ok? && !r.value.1 ==> r.value.0 == p && (p < |ts| ==> Kind(ts[p]) !in ks)
    ensures EOF !in ks ==> r.Ok?
  {
    if p >= |ts| || Kind(ts[p]) !in ks then Ok((p, false))
    else
      var a :- AdvanceAt(ts, p);
      Ok((a.0, true))
  }

  /** The operator of the token `previous()` returns after a comparison matched. */
  function ComparisonOperator(t: Token): Result<BinOp, Fault>
  {
    if t.BinOp? && t.binOp in {LexerTypes.BinOp.Less, LexerTypes.BinOp.LessEq, LexerTypes.BinOp.Greater,
                               LexerTypes.BinOp.GreaterEq, LexerTypes.BinOp.BangEq, LexerTypes.BinOp.EqEq}
    then Ok(t.binOp) else Err(Panic("Parser bug in compare matches function"))
  }

  /** The operator of the token after `+` or `-` matched. */
  function AdditiveOperator(t: Token): Result<BinOp, Fault>
  {
    if t.BinOp? && t.binOp in {LexerTypes.BinOp.Minus, LexerTypes.BinOp.Plus}
    then Ok(t.binOp) else Err(Panic("Parser bug in comparison function"))
  }

  /** The operator of the token after `*` or `/` matched. */
  function MultiplicativeOperator(t: Token): Result<BinOp, Fault>
  {
    if t.BinOp? && t.binOp in {LexerTypes.BinOp.Star, LexerTypes.BinOp.Slash}
    then Ok(t.binOp) else Err(Panic("Parser bug in comparison function"))
  }

  const CompareKinds := [TokenType.GreaterEq, TokenType.Greater, TokenType.Less, TokenType.LessEq, TokenType.EqEq, TokenType.BangEq]
  const AdditiveKinds := [TokenType.Plus, TokenType.Minus]
  const MultiplicativeKinds := [TokenType.Star, TokenType.Slash]

  // ---------------------------------------------------------------- expressions

  /** `expression`: a comparison, wrapped whole in `Column` after a leading `$`. */
  function ExpressionAt(ts: seq<Token>, p: nat): (r: Parsed<Expr>)
    requires p <= |ts|
    ensures r.Ok? ==> p < r.value.0 <= |ts|
    decreases |ts| - p, 5
  {
    var m :- MatchesAt(ts, p, [TokenType.Column]);
    if m.1 then
      var c :- CompareAt(ts, m.0);
      Ok((c.0, Expr.Column(c.1)))
    else CompareAt(ts, p)
  }

  /** `compare`: additive operands joined by comparison operators, to the left. */
  function CompareAt(ts: seq<Token>, p: nat): (r: Parsed<Expr>)
    requires p <= |ts|
    ensures r.Ok? ==> p < r.value.0 <= |ts|
    decreases |ts| - p, 4
  {
    var left :- ComparisonAt(ts, p);
    CompareRest(ts, left.0, left.1)
  }

  /** One round of the loop in `compare`: a comparison operator and the operand after it,
      or nothing, at the same position, when no such operator follows. */
  function CompareStep(ts: seq<Token>, p: nat, left: Expr): (r: Parsed<Option<Expr>>)
    requires p <= |ts|
    ensures r.Ok? && r.value.1.None? ==> r.value.0 == p
    ensures r.Ok? && r.value.1.Some? ==> p < r.value.0 <= |ts|
    decreases |ts| - p, 0
  {
    var m :- MatchesAt(ts, p, CompareKinds);
    if !m.1 then Ok((p, None))
    else
      var op :- ComparisonOperator(ts[m.0 - 1]);
      var right :- ComparisonAt(ts, m.0);
      Ok((right.0, Some(Expr.BinOp(left, op, right.1))))
  }

  /** The loop of `compare`, from the expression built so far. */
  function CompareRest(ts: seq<Token>, p: nat, left: Expr): (r: Parsed<Expr>)
    requires p <= |ts|
    ensures r.Ok? ==> p <= r.value.0 <= |ts|
    decreases |ts| - p, 1
  {
    var step :- CompareStep(ts, p, left);
    match step.1
    case None => Ok((p, left))
    case Some(next) => CompareRest(ts, step.0, next)
  }

  /** `comparison`: terms joined by `+` and `-`, to the left. */
  function ComparisonAt(ts: seq<Token>, p: nat): (r: Parsed<Expr>)
    requires p <= |ts|
    ensures r.Ok? ==> p < r.value.0 <= |ts|
    decreases |ts| - p, 3
  {
    var left :- TermAt(ts, p);
    ComparisonRest(ts, left.0, left.1)
  }

  /** One round of the loop in `comparison`: a `+` or `-` and the operand after it,
      or nothing, at the same position, when no such operator follows. */
  function ComparisonStep(ts: seq<Token>, p: nat, left: Expr): (r: Parsed<Option<Expr>>)
    requires p <= |ts|
    ensures r.Ok? && r.value.1.None? ==> r.value.0 == p
    ensures r.Ok? && r.value.1.Some? ==> p < r.value.0 <= |ts|
    decreases |ts| - p, 0
  {
    var m :- MatchesAt(ts, p, AdditiveKinds);
    if !m.1 then Ok((p, None))
    else
      var op :- AdditiveOperator(ts[m.0 - 1]);
      var right :- TermAt(ts, m.0);
      Ok((right.0, Some(Expr.BinOp(left, op, right.1))))
  }

  /** The loop of `comparison`, from the expression built so far. */
  function ComparisonRest(ts: seq<Token>, p: nat, left: Expr): (r: Parsed<Expr>)
    requires p <= |ts|
    ensures r.Ok? ==> p <= r.value.0 <= |ts|
    decreases |ts| - p, 1
  {
    var step :- ComparisonStep(ts, p, left);
    match step.1
    case None => Ok((p, left))
    case Some(next) => ComparisonRest(ts, step.0, next)
  }

  /** `term`: primaries joined by `*` and `/`, to the left. */
  function TermAt(ts: seq<Token>, p: nat): (r: Parsed<Expr>)
    requires p <= |ts|
    ensures r.Ok? ==> p < r.value.0 <= |ts|
    decreases |ts| - p, 2
  {
    var left :- PrimaryAt(ts, p);
    TermRest(ts, left.0, left.1)
  }

  /** One round of the loop in `term`: a `*` or `/` and the operand after it,
      or nothing, at the same position, when no such operator follows. */
  function TermStep(ts: seq<Token>, p: nat, left: Expr): (r: Parsed<Option<Expr>>)
    requires p <= |ts|
    ensures r.Ok? && r.value.1.None? ==> r.value.0 == p
    ensures r.Ok? && r.value.1.Some? ==> p < r.value.0 <= |ts|
    decreases |ts| - p, 0
  {
    var m :- MatchesAt(ts, p, MultiplicativeKinds);
    if !m.1 then Ok((p, None))
    else
      var op :- MultiplicativeOperator(ts[m.0 - 1]);
      var right :- PrimaryAt(ts, m.0);
      Ok((right.0, Some(Expr.BinOp(left, op, right.1))))
  }

  /** The loop of `term`, from the expression built so far. */
  function TermRest(ts: seq<Token>, p: nat, left: Expr): (r: Parsed<Expr>)
    requires p <= |ts|
    ensures r.Ok? ==> p <= r.value.0 <= |ts|
    decreases |ts| - p, 1
  {
    var step :- TermStep(ts, p, left);
    match step.1
    case None => Ok((p, left))
    case Some(next) => TermRest(ts, step.0, next)
  }

  /** `primary`: a number, a parenthesised expression, a variable or a string. */
  function PrimaryAt(ts: seq<Token>, p: nat): (r: Parsed<Expr>)
    requires p <= |ts|
    ensures r.Ok? ==> p < r.value.0 <= |ts|
    decreases |ts| - p, 1
  {
    var end :- AtEnd(ts, p);
    if end then Err(Panic("Primary and at end"))
    else
      match ts[p]
      case NumberF64(x) =>
        var a :- AdvanceAt(ts, p);
        Ok((a.0, Expr.NumberF64(x)))
      case LeftParen =>
        var open :- ConsumeAt(ts, p, TokenType.LeftParen, "Expected to parse a left paren here");
        var e :- ExpressionAt(ts, open.0);
        var close :- ConsumeAt(ts, e.0, TokenType.RightParen, "Missing closing ')' after group");
        Ok((close.0, e.1))
      case Ident(name) =>
        var c :- ConsumeAt(ts, p, TokenType.Ident, "Expected to parse an ident here");
        Ok((c.0, Variable(name)))
      case String(s) =>
        var c :- ConsumeAt(ts, p, TokenType.String, "Expected to parse a string here");
        Ok((c.0, Expr.String(s)))
      case _ => Err(Panic("Unexpected token"))
  }

  // ---------------------------------------------------------------- statements

  /** `stmts`' element: one statement. Two tests of the source are left out because they can
      never succeed: `while`, since no token has the kind `While` (see `NoWhileToken`), and a
      second test for `print`, since the first one already took any `print`. */
  function StatementAt(ts: seq<Token>, p: nat): (r: Parsed<Stmt>)
    requires p <= |ts|
    ensures r.Ok? ==> p < r.value.0 <= |ts|
    decreases |ts| - p, 8
  {
    var printed :- MatchesAt(ts, p, [TokenType.Print]);
    if printed.1 then
      var e :- ExpressionAt(ts, printed.0);
      Ok((e.0, Stmt.Print(e.1)))
    else AssignOrOtherAt(ts, p)
  }

  /** A statement that is not `print`: an assignment when the token after the cursor is `=`. */
  function AssignOrOtherAt(ts: seq<Token>, p: nat): (r: Parsed<Stmt>)
    requires p <= |ts|
    ensures r.Ok? ==> p < r.value.0 <= |ts|
    decreases |ts| - p, 7
  {
    var next :- PeekKind(ts, p + 1);
    if next == TokenType.Eq then AssignAt(ts, p)
    else OtherStatementAt(ts, p)
  }

  /** The `name = expression` statement, tried when the token after the cursor is `=`. */
  function AssignAt(ts: seq<Token>, p: nat): (r: Parsed<Stmt>)
    requires p <= |ts|
    ensures r.Ok? ==> p < r.value.0 <= |ts|
    decreases |ts| - p, 6
  {
    var id :- ConsumeAt(ts, p, TokenType.Ident, "Expected identifier before '='");
    if !id.1.Ident? then Err(Panic("Expected identifier before '='"))
    else
      var eq :- ConsumeAt(ts, id.0, TokenType.Eq, "Expected '=' after identifier");
      var e :- ExpressionAt(ts, eq.0);
      Ok((e.0, Assign(id.1.name, e.1)))
  }

  /** The statements `stmts` tries after `print` and assignment: `return`, `if`, a braced
      group, and last an expression on its own. */
  function OtherStatementAt(ts: seq<Token>, p: nat): (r: Parsed<Stmt>)
    requires p <= |ts|
    ensures r.Ok? ==> p < r.value.0 <= |ts|
    decreases |ts| - p, 6
  {
    var ret :- MatchesAt(ts, p, [TokenType.Ret]);
    if ret.1 then ReturnAt(ts, ret.0)
    else
      var cond :- MatchesAt(ts, p, [TokenType.If]);
      if cond.1 then IfAt(ts, cond.0)
      else
        var open :- MatchesAt(ts, p, [TokenType.LeftBrace]);
        if open.1 then
          var body :- StmtsAt(ts, open.0);
          var close :- ConsumeAt(ts, body.0, TokenType.RightBrace, "Expected a right brace after a group");
          Ok((close.0, body.1))
        else
          var e :- ExpressionAt(ts, p);
          Ok((e.0, ExprStmt(e.1)))
  }

  /** `return_stmt`, after `return`: no value when a semicolon follows. */
  function ReturnAt(ts: seq<Token>, p: nat): (r: Parsed<Stmt>)
    requires p <= |ts|
    ensures r.Ok? ==> p <= r.value.0 <= |ts|
    decreases |ts| - p, 6
  {
    var k :- PeekKind(ts, p);
    if k == TokenType.Semicolon then Ok((p, Return(None)))
    else
      var e :- ExpressionAt(ts, p);
      Ok((e.0, Return(Some(e.1))))
  }

  /** `if_stmt`, after `if`: the else branch is present exactly when `else` follows. */
  function IfAt(ts: seq<Token>, p: nat): (r: Parsed<Stmt>)
    requires p <= |ts|
    ensures r.Ok? ==> p < r.value.0 <= |ts|
    decreases |ts| - p, 0
  {
    var lp :- ConsumeAt(ts, p, TokenType.LeftParen, "Expected '(' after if");
    var test :- ExpressionAt(ts, lp.0);
    var rp :- ConsumeAt(ts, test.0, TokenType.RightParen, "Expected ')' after if predicate");
    var ifSo :- GroupAt(ts, rp.0);
    ElseAt(ts, ifSo.0, test.1, ifSo.1)
  }

  /** The rest of `if` once its `then` branch ends at `p`: an optional `else` and its group. */
  function ElseAt(ts: seq<Token>, p: nat, test: Expr, ifSo: Stmt): (r: Parsed<Stmt>)
    requires p <= |ts|
    ensures r.Ok? ==> p <= r.value.0 <= |ts|
    decreases |ts| - p, 0
  {
    var otherwise :- MatchesAt(ts, p, [TokenType.Else]);
    if otherwise.1 then
      var ifNot :- GroupAt(ts, otherwise.0);
      Ok((ifNot.0, Stmt.If(test, ifSo, Some(ifNot.1))))
    else Ok((p, Stmt.If(test, ifSo, None)))
  }

  /** `group`: statements between braces. */
  function GroupAt(ts: seq<Token>, p: nat): (r: Parsed<Stmt>)
    requires p <= |ts|
    ensures r.Ok? ==> p < r.value.0 <= |ts|
    decreases |ts| - p, 0
  {
    var lb :- ConsumeAt(ts, p, TokenType.LeftBrace, "Expected a '}'");
    var body :- StmtsAt(ts, lb.0);
    var rb :- ConsumeAt(ts, body.0, TokenType.RightBrace, "Expected a '}'");
    Ok((rb.0, body.1))
  }

  /** `stmts`: the statements up to a closing brace; exactly one is returned as it is, any
      other number becomes a `Group`. */
  function StmtsAt(ts: seq<Token>, p: nat): (r: Parsed<Stmt>)
    requires p <= |ts|
    ensures r.Ok? ==> p <= r.value.0 <= |ts|
    decreases |ts| - p, 10
  {
    var list :- StmtListAt(ts, p, []);
    Ok((list.0, if |list.1| == 1 then list.1[0] else Group(list.1)))
  }

  /** The semicolon after a statement, if there is one. */
  function SemicolonAt(ts: seq<Token>, p: nat): (r: Result<nat, Fault>)
    ensures r.Ok? ==> p < |ts| && r.value == if ts[p].Semicolon? then p + 1 else p
  {
    var k :- PeekKind(ts, p);
    if k == TokenType.Semicolon then
      var c :- ConsumeAt(ts, p, TokenType.Semicolon, "not possible");
      Ok(c.0)
    else Ok(p)
  }

  /** The loop of `stmts`, with the statements collected so far. */
  function StmtListAt(ts: seq<Token>, p: nat, done: seq<Stmt>): (r: Parsed<seq<Stmt>>)
    requires p <= |ts|
    ensures r.Ok? ==> p <= r.value.0 <= |ts|
    decreases |ts| - p, 9
  {
    var k :- PeekKind(ts, p);
    if k == TokenType.RightBrace then Ok((p, done))
    else
      var s :- StatementAt(ts, p);
      var q :- SemicolonAt(ts, s.0);
      StmtListAt(ts, q, done + [s.1])
  }

  // ---------------------------------------------------------------- rules and programs

  /** `pattern_action`: an action, a BEGIN or END action, or a pattern with or without one. */
  function RuleAt(ts: seq<Token>, p: nat): (r: Parsed<Rule>)
    requires p <= |ts|
    ensures r.Ok? ==> p < r.value.0 <= |ts|
  {
    var action :- MatchesAt(ts, p, [TokenType.LeftBrace]);
    if action.1 then
      var body :- StmtsAt(ts, action.0);
      var rb :- ConsumeAt(ts, body.0, TokenType.RightBrace, "Expected '}' after action block");
      Ok((rb.0, Normal(PatternAction(None, Some(body.1)))))
    else
      var begin :- MatchesAt(ts, p, [TokenType.Begin]);
      if begin.1 then
        var lb :- ConsumeAt(ts, begin.0, TokenType.LeftBrace, "Expected a '{' after a begin");
        var body :- StmtsAt(ts, lb.0);
        var rb :- ConsumeAt(ts, body.0, TokenType.RightBrace, "Begin action should end with '}'");
        Ok((rb.0, BeginRule(body.1)))
      else
        var end :- MatchesAt(ts, p, [TokenType.End]);
        if end.1 then
          var lb :- ConsumeAt(ts, end.0, TokenType.LeftBrace, "Expected a {' after a end");
          var body :- StmtsAt(ts, lb.0);
          var rb :- ConsumeAt(ts, body.0, TokenType.RightBrace, "End action should end with '}'");
          Ok((rb.0, EndRule(body.1)))
        else
          var test :- ExpressionAt(ts, p);
          var lb :- MatchesAt(ts, test.0, [TokenType.LeftBrace]);
          if lb.1 then
            var body :- StmtsAt(ts, lb.0);
            var rb :- ConsumeAt(ts, body.0, TokenType.RightBrace, "Patern action should end with '}'");
            Ok((rb.0, Normal(PatternAction(Some(test.1), Some(body.1)))))
          else Ok((test.0, Normal(PatternAction(Some(test.1), None))))
  }

  /** The loop of `parse`: rules up to EOF, sorted into the three lists. */
  function ParseFrom(ts: seq<Token>, p: nat, prog: Program): Result<Program, Fault>
    requires p <= |ts|
    decreases |ts| - p
  {
    var end :- AtEnd(ts, p);
    if end then Ok(prog)
    else
      var rule :- RuleAt(ts, p);
      ParseFrom(ts, rule.0, Add(prog, rule.1))
  }

  /** The list a rule is pushed onto. */
  function Add(prog: Program, rule: Rule): Program
  {
    match rule
    case Normal(pa) => prog.(patternActions := prog.patternActions + [pa])
    case BeginRule(s) => prog.(begins := prog.begins + [s])
    case EndRule(s) => prog.(ends := prog.ends + [s])
  }

  /** `parse`. */
  function ProgramOf(ts: seq<Token>): Result<Program, Fault>
  {
    ParseFrom(ts, 0, Program([], [], []))
  }

  /** The kinds the parser compares against tell the token's shape. */
  lemma ComparisonShape(t: Token)
    requires Kind(t) in CompareKinds
    ensures t.BinOp? && ComparisonOperator(t) == Ok(t.binOp)
  {
  }

  lemma AdditiveShape(t: Token)
    requires Kind(t) in AdditiveKinds
    ensures t.BinOp? && AdditiveOperator(t) == Ok(t.binOp)
  {
  }

  lemma MultiplicativeShape(t: Token)
    requires Kind(t) in MultiplicativeKinds
    ensures t.BinOp? && MultiplicativeOperator(t) == Ok(t.binOp)
  {
  }

  lemma IdentShape(t: Token)
    requires Kind(t) == TokenType.Ident
    ensures t.Ident?
  {
  }

  /** A round of `CompareStep` where a comparison operator follows and its operand fails. */
  lemma CompareStepMatched(ts: seq<Token>, p: nat, left: Expr)
    requires p < |ts| && Kind(ts[p]) in CompareKinds
    ensures ts[p].BinOp?
    ensures ComparisonAt(ts, p + 1).Err? ==> CompareStep(ts, p, left) == Err(ComparisonAt(ts, p + 1).error)
  {
    ComparisonShape(ts[p]);
    var q: nat := p + 1;
    assert MatchesAt(ts, p, CompareKinds) == Ok((q, true));
  }

  /** A round of `CompareStep` where a comparison operator follows and its operand parses. */
  lemma CompareStepNext(ts: seq<Token>, p: nat, left: Expr, q: nat, right: Expr)
    requires p < |ts| && Kind(ts[p]) in CompareKinds && ComparisonAt(ts, p + 1) == Ok((q, right))
    ensures ts[p].BinOp?
    ensures CompareStep(ts, p, left) == Ok((q, Some(Expr.BinOp(left, ts[p].binOp, right))))
    ensures CompareRest(ts, p, left) == CompareRest(ts, q, Expr.BinOp(left, ts[p].binOp, right))
  {
    ComparisonShape(ts[p]);
    var next: nat := p + 1;
    assert MatchesAt(ts, p, CompareKinds) == Ok((next, true));
  }

  /** The loop of `CompareRest` ends, leaving its expression as it is, where no a comparison operator follows. */
  lemma CompareRestNone(ts: seq<Token>, p: nat, left: Expr)
    requires p <= |ts| && (p < |ts| ==> Kind(ts[p]) !in CompareKinds)
    ensures CompareRest(ts, p, left) == Ok((p, left))
  {
    assert MatchesAt(ts, p, CompareKinds) == Ok((p, false));
  }

  /** A round of `ComparisonStep` where `+` or `-` follows and its operand fails. */
  lemma ComparisonStepMatched(ts: seq<Token>, p: nat, left: Expr)
    requires p < |ts| && Kind(ts[p]) in AdditiveKinds
    ensures ts[p].BinOp?
    ensures TermAt(ts, p + 1).Err? ==> ComparisonStep(ts, p, left) == Err(TermAt(ts, p + 1).error)
  {
    AdditiveShape(ts[p]);
    var q: nat := p + 1;
    assert MatchesAt(ts, p, AdditiveKinds) == Ok((q, true));
  }

  /** A round of `ComparisonStep` where `+` or `-` follows and its operand parses. */
  lemma ComparisonStepNext(ts: seq<Token>, p: nat, left: Expr, q: nat, right: Expr)
    requires p < |ts| && Kind(ts[p]) in AdditiveKinds && TermAt(ts, p + 1) == Ok((q, right))
    ensures ts[p].BinOp?
    ensures ComparisonStep(ts, p, left) == Ok((q, Some(Expr.BinOp(left, ts[p].binOp, right))))
    ensures ComparisonRest(ts, p, left) == ComparisonRest(ts, q, Expr.BinOp(left, ts[p].binOp, right))
  {
    AdditiveShape(ts[p]);
    var next: nat := p + 1;
    assert MatchesAt(ts, p, AdditiveKinds) == Ok((next, true));
  }

  /** The loop of `ComparisonRest` ends, leaving its expression as it is, where no `+` or `-` follows. */
  lemma ComparisonRestNone(ts: seq<Token>, p: nat, left: Expr)
    requires p <= |ts| && (p < |ts| ==> Kind(ts[p]) !in AdditiveKinds)
    ensures ComparisonRest(ts, p, left) == Ok((p, left))
  {
    assert MatchesAt(ts, p, AdditiveKinds) == Ok((p, false));
  }

  /** A round of `TermStep` where `*` or `/` follows and its operand fails. */
  lemma TermStepMatched(ts: seq<Token>, p: nat, left: Expr)
    requires p < |ts| && Kind(ts[p]) in MultiplicativeKinds
    ensures ts[p].BinOp?
    ensures PrimaryAt(ts, p + 1).Err? ==> TermStep(ts, p, left) == Err(PrimaryAt(ts, p + 1).error)
  {
    MultiplicativeShape(ts[p]);
    var q: nat := p + 1;
    assert MatchesAt(ts, p, MultiplicativeKinds) == Ok((q, true));
  }

  /** A round of `TermStep` where `*` or `/` follows and its operand parses. */
  lemma TermStepNext(ts: seq<Token>, p: nat, left: Expr, q: nat, right: Expr)
    requires p < |ts| && Kind(ts[p]) in MultiplicativeKinds && PrimaryAt(ts, p + 1) == Ok((q, right))
    ensures ts[p].BinOp?
    ensures TermStep(ts, p, left) == Ok((q, Some(Expr.BinOp(left, ts[p].binOp, right))))
    ensures TermRest(ts, p, left) == TermRest(ts, q, Expr.BinOp(left, ts[p].binOp, right))
  {
    MultiplicativeShape(ts[p]);
    var next: nat := p + 1;
    assert MatchesAt(ts, p, MultiplicativeKinds) == Ok((next, true));
  }

  /** The loop of `TermRest` ends, leaving its expression as it is, where no `*` or `/` follows. */
  lemma TermRestNone(ts: seq<Token>, p: nat, left: Expr)
    requires p <= |ts| && (p < |ts| ==> Kind(ts[p]) !in MultiplicativeKinds)
    ensures TermRest(ts, p, left) == Ok((p, left))
  {
    assert MatchesAt(ts, p, MultiplicativeKinds) == Ok((p, false));
  }

  // ---------------------------------------------------------------- properties

  /** `consume` succeeds exactly on a token of the expected kind that is not EOF, and fails
      with the caller's message otherwise. */
  lemma ConsumeChecksKind(ts: seq<Token>, p: nat, k: TokenType, message: string)
    requires p < |ts|
    ensures ConsumeAt(ts, p, k, message).Ok? <==> Kind(ts[p]) == k && k != TokenType.EOF
    ensures ConsumeAt(ts, p, k, message).Err? ==> ConsumeAt(ts, p, k, message).error == Panic(message)
  {
  }

  /** The rules of a program in source order, up to EOF. */
  function RulesFrom(ts: seq<Token>, p: nat): Result<seq<Rule>, Fault>
    requires p <= |ts|
    decreases |ts| - p
  {
    var end :- AtEnd(ts, p);
    if end then Ok([])
    else
      var rule :- RuleAt(ts, p);
      var rest :- RulesFrom(ts, rule.0);
      Ok([rule.1] + rest)
  }

  function BeginsOf(rs: seq<Rule>): seq<Stmt>
  {
    if rs == [] then [] else (if rs[0].BeginRule? then [rs[0].begin] else []) + BeginsOf(rs[1..])
  }

  function EndsOf(rs: seq<Rule>): seq<Stmt>
  {
    if rs == [] then [] else (if rs[0].EndRule? then [rs[0].end] else []) + EndsOf(rs[1..])
  }

  function NormalsOf(rs: seq<Rule>): seq<PatternAction>
  {
    if rs == [] then [] else (if rs[0].Normal? then [rs[0].rule] else []) + NormalsOf(rs[1..])
  }

  /** `prog` extended by the rules `rs`, each list keeping the rules' order. */
  function Sorted(prog: Program, rs: seq<Rule>): Program
  {
    Program(prog.begins + BeginsOf(rs), prog.ends + EndsOf(rs), prog.patternActions + NormalsOf(rs))
  }

  lemma {:induction false} SortedAdd(prog: Program, r: Rule, rs: seq<Rule>)
    ensures Sorted(Add(prog, r), rs) == Sorted(prog, [r] + rs)
  {
    assert ([r] + rs)[1..] == rs;
    match r
    case Normal(pa) =>
      assert prog.patternActions + [pa] + NormalsOf(rs) == prog.patternActions + NormalsOf([r] + rs);
    case BeginRule(b) =>
      assert prog.begins + [b] + BeginsOf(rs) == prog.begins + BeginsOf([r] + rs);
    case EndRule(e) =>
      assert prog.ends + [e] + EndsOf(rs) == prog.ends + EndsOf([r] + rs);
  }

  /** The parse loop sorts the rules into BEGIN actions, END actions and the rest, keeping
      the source order within each list, and fails exactly when reading the rules fails. */
  lemma {:induction false} ParseSortsRules(ts: seq<Token>, p: nat, prog: Program)
    requires p <= |ts|
    ensures RulesFrom(ts, p).Err? ==> ParseFrom(ts, p, prog) == Err(RulesFrom(ts, p).error)
    ensures RulesFrom(ts, p).Ok? ==> ParseFrom(ts, p, prog) == Ok(Sorted(prog, RulesFrom(ts, p).value))
    decreases |ts| - p
  {
    var end := AtEnd(ts, p);
    if end.Ok? && !end.value {
      var rule := RuleAt(ts, p);
      if rule.Ok? {
        ParseSortsRules(ts, rule.value.0, Add(prog, rule.value.1));
        var rest := RulesFrom(ts, rule.value.0);
        if rest.Ok? {
          SortedAdd(prog, rule.value.1, rest.value);
        }
      }
    } else if end.Ok? {
      assert Sorted(prog, []) == prog;
    }
  }

  /** The whole program: BEGIN actions, END actions and pattern-action rules, each in the
      order they were written. */
  lemma ProgramKeepsOrder(ts: seq<Token>)
    ensures RulesFrom(ts, 0).Err? ==> ProgramOf(ts) == Err(RulesFrom(ts, 0).error)
    ensures RulesFrom(ts, 0).Ok? ==> var rs := RulesFrom(ts, 0).value;
      ProgramOf(ts) == Ok(Program(BeginsOf(rs), EndsOf(rs), NormalsOf(rs)))
  {
    var none := Program([], [], []);
    ParseSortsRules(ts, 0, none);
    if RulesFrom(ts, 0).Ok? {
      var rs := RulesFrom(ts, 0).value;
      assert Sorted(none, rs) == Program(BeginsOf(rs), EndsOf(rs), NormalsOf(rs));
    }
  }

  /** A term stops only where no `*` or `/` follows. */
  lemma {:induction false} TermRestStops(ts: seq<Token>, p: nat, left: Expr)
    requires p <= |ts|
    ensures var r := TermRest(ts, p, left);
      r.Ok? && r.value.0 < |ts| ==> Kind(ts[r.value.0]) !in MultiplicativeKinds
    decreases |ts| - p
  {
    if p < |ts| && Kind(ts[p]) in MultiplicativeKinds {
      var right := PrimaryAt(ts, p + 1);
      if right.Ok? {
        TermStepNext(ts, p, left, right.value.0, right.value.1);
        TermRestStops(ts, right.value.0, Expr.BinOp(left, ts[p].binOp, right.value.1));
      } else {
        TermStepMatched(ts, p, left);
      }
    } else {
      TermRestNone(ts, p, left);
    }
  }

  lemma TermStops(ts: seq<Token>, p: nat)
    requires p <= |ts|
    ensures var r := TermAt(ts, p);
      r.Ok? && r.value.0 < |ts| ==> Kind(ts[r.value.0]) !in MultiplicativeKinds
  {
    var left := PrimaryAt(ts, p);
    if left.Ok? {
      TermRestStops(ts, left.value.0, left.value.1);
    }
  }

  /** An arithmetic expression stops only where no `+`, `-`, `*` or `/` follows. */
  lemma {:induction false} ComparisonRestStops(ts: seq<Token>, p: nat, left: Expr)
    requires p <= |ts|
    requires p < |ts| ==> Kind(ts[p]) !in MultiplicativeKinds
    ensures var r := ComparisonRest(ts, p, left);
      r.Ok? && r.value.0 < |ts| ==> var k := Kind(ts[r.value.0]); k !in AdditiveKinds && k !in MultiplicativeKinds
    decreases |ts| - p
  {
    if p < |ts| && Kind(ts[p]) in AdditiveKinds {
      var right := TermAt(ts, p + 1);
      if right.Ok? {
        TermStops(ts, p + 1);
        ComparisonStepNext(ts, p, left, right.value.0, right.value.1);
        ComparisonRestStops(ts, right.value.0, Expr.BinOp(left, ts[p].binOp, right.value.1));
      } else {
        ComparisonStepMatched(ts, p, left);
      }
    } else {
      ComparisonRestNone(ts, p, left);
    }
  }

  lemma ComparisonStops(ts: seq<Token>, p: nat)
    requires p <= |ts|
    ensures var r := ComparisonAt(ts, p);
      r.Ok? && r.value.0 < |ts| ==> var k := Kind(ts[r.value.0]); k !in AdditiveKinds && k !in MultiplicativeKinds
  {
    var left := TermAt(ts, p);
    if left.Ok? {
      TermStops(ts, p);
      ComparisonRestStops(ts, left.value.0, left.value.1);
    }
  }

  /** A comparison chain stops only where no binary operator follows. */
  lemma {:induction false} CompareRestStops(ts: seq<Token>, p: nat, left: Expr)
    requires p <= |ts|
    requires p < |ts| ==> Kind(ts[p]) !in AdditiveKinds && Kind(ts[p]) !in MultiplicativeKinds
    ensures var r := CompareRest(ts, p, left);
      r.Ok? && r.value.0 < |ts| ==> var k := Kind(ts[r.value.0]); k !in CompareKinds && k !in AdditiveKinds && k !in MultiplicativeKinds
    decreases |ts| - p
  {
    if p < |ts| && Kind(ts[p]) in CompareKinds {
      var right := ComparisonAt(ts, p + 1);
      if right.Ok? {
        ComparisonStops(ts, p + 1);
        CompareStepNext(ts, p, left, right.value.0, right.value.1);
        CompareRestStops(ts, right.value.0, Expr.BinOp(left, ts[p].binOp, right.value.1));
      } else {
        CompareStepMatched(ts, p, left);
      }
    } else {
      CompareRestNone(ts, p, left);
    }
  }

  /** `expression` consumes every binary operator that follows it: a parse stops only at a
      token that cannot continue the expression. */
  lemma ExpressionStops(ts: seq<Token>, p: nat)
    requires p <= |ts|
    ensures var r := ExpressionAt(ts, p);
      r.Ok? && r.value.0 < |ts| ==> var k := Kind(ts[r.value.0]); k !in CompareKinds && k !in AdditiveKinds && k !in MultiplicativeKinds
  {
    var m := MatchesAt(ts, p, [TokenType.Column]);
    if m.Ok? {
      var q := m.value.0;
      var left := ComparisonAt(ts, q);
      if left.Ok? {
        ComparisonStops(ts, q);
        CompareRestStops(ts, left.value.0, left.value.1);
      }
    }
  }

  /** A number followed by a token that is no binary operator is a whole expression. */
  lemma NumberExpression(ts: seq<Token>, p: nat)
    requires p + 1 < |ts| && ts[p].NumberF64?
    requires var k := Kind(ts[p + 1]); k !in CompareKinds && k !in AdditiveKinds && k !in MultiplicativeKinds
    ensures ExpressionAt(ts, p) == Ok((p + 1, Expr.NumberF64(ts[p].number)))
  {
    var n := Expr.NumberF64(ts[p].number);
    var q: nat := p + 1;
    assert PrimaryAt(ts, p) == Ok((q, n));
    TermRestNone(ts, p + 1, n);
    assert TermAt(ts, p) == Ok((q, n));
    ComparisonRestNone(ts, p + 1, n);
    assert ComparisonAt(ts, p) == Ok((q, n));
    CompareRestNone(ts, p + 1, n);
    assert CompareAt(ts, p) == Ok((q, n));
    assert MatchesAt(ts, p, [TokenType.Column]) == Ok((p, false));
  }

  /** A number not followed by `*` or `/` is a whole term. */
  lemma NumberTerm(ts: seq<Token>, p: nat)
    requires p + 1 < |ts| && ts[p].NumberF64? && Kind(ts[p + 1]) !in MultiplicativeKinds
    ensures TermAt(ts, p) == Ok((p + 1, Expr.NumberF64(ts[p].number)))
  {
    var n := Expr.NumberF64(ts[p].number);
    var q: nat := p + 1;
    assert PrimaryAt(ts, p) == Ok((q, n));
    TermRestNone(ts, q, n);
  }

  /** `a * b`, between numbers, not followed by another `*` or `/`. */
  lemma ProductTerm(ts: seq<Token>, p: nat)
    requires p + 3 < |ts| && ts[p].NumberF64? && ts[p + 2].NumberF64?
    requires Kind(ts[p + 1]) in MultiplicativeKinds && Kind(ts[p + 3]) !in MultiplicativeKinds
    ensures ts[p + 1].BinOp?
    ensures TermAt(ts, p) ==
      Ok((p + 3, Expr.BinOp(Expr.NumberF64(ts[p].number), ts[p + 1].binOp, Expr.NumberF64(ts[p + 2].number))))
  {
    var a, b := Expr.NumberF64(ts[p].number), Expr.NumberF64(ts[p + 2].number);
    var q, r: nat := p + 1, p + 3;
    assert PrimaryAt(ts, p) == Ok((q, a));
    assert PrimaryAt(ts, q + 1) == Ok((r, b));
    TermStepNext(ts, q, a, r, b);
    TermRestNone(ts, r, Expr.BinOp(a, ts[q].binOp, b));
  }

  /** A term followed by `+` or `-` and another term, then something that is neither. */
  lemma SumComparison(ts: seq<Token>, p: nat, q: nat, left: Expr, r: nat, right: Expr)
    requires p <= |ts| && TermAt(ts, p) == Ok((q, left)) && q < |ts| && Kind(ts[q]) in AdditiveKinds
    requires TermAt(ts, q + 1) == Ok((r, right)) && r < |ts| && Kind(ts[r]) !in AdditiveKinds
    ensures ts[q].BinOp? && ComparisonAt(ts, p) == Ok((r, Expr.BinOp(left, ts[q].binOp, right)))
  {
    ComparisonStepNext(ts, q, left, r, right);
    ComparisonRestNone(ts, r, Expr.BinOp(left, ts[q].binOp, right));
  }

  /** An arithmetic expression that no comparison operator follows is the whole expression
      (when it does not start with `$`). */
  lemma WholeExpression(ts: seq<Token>, p: nat, q: nat, e: Expr)
    requires p < |ts| && !ts[p].Column? && ComparisonAt(ts, p) == Ok((q, e))
    requires q < |ts| && Kind(ts[q]) !in CompareKinds
    ensures ExpressionAt(ts, p) == Ok((q, e))
  {
    CompareRestNone(ts, q, e);
    assert MatchesAt(ts, p, [TokenType.Column]) == Ok((p, false));
  }

  /** The tokens from `p` on begin `a + b * c` (any additive and multiplicative operators)
      followed by a token that no operator continues. */
  predicate SumOfProduct(ts: seq<Token>, p: nat)
  {
    p + 5 < |ts| && ts[p].NumberF64? && ts[p + 2].NumberF64? && ts[p + 4].NumberF64?
    && Kind(ts[p + 1]) in AdditiveKinds && Kind(ts[p + 3]) in MultiplicativeKinds
    && var k := Kind(ts[p + 5]); k !in CompareKinds && k !in AdditiveKinds && k !in MultiplicativeKinds
  }

  /** `a + b * c` parses as `a + (b * c)`: `*` and `/` bind tighter than `+` and `-`. */
  lemma MultiplicationBindsTighter(ts: seq<Token>, p: nat)
    requires SumOfProduct(ts, p)
    ensures ts[p + 1].BinOp? && ts[p + 3].BinOp?
    ensures ExpressionAt(ts, p) ==
      Ok((p + 5, Expr.BinOp(Expr.NumberF64(ts[p].number), ts[p + 1].binOp,
                            Expr.BinOp(Expr.NumberF64(ts[p + 2].number), ts[p + 3].binOp, Expr.NumberF64(ts[p + 4].number)))))
  {
    AdditiveShape(ts[p + 1]);
    NumberTerm(ts, p);
    ProductTerm(ts, p + 2);
    var product := Expr.BinOp(Expr.NumberF64(ts[p + 2].number), ts[p + 3].binOp, Expr.NumberF64(ts[p + 4].number));
    SumComparison(ts, p, p + 1, Expr.NumberF64(ts[p].number), p + 5, product);
    WholeExpression(ts, p, p + 5, Expr.BinOp(Expr.NumberF64(ts[p].number), ts[p + 1].binOp, product));
  }

  /** The tokens from `p` on begin `a * b + c`, then a token that no operator continues. */
  predicate ProductThenSum(ts: seq<Token>, p: nat)
  {
    p + 5 < |ts| && ts[p].NumberF64? && ts[p + 2].NumberF64? && ts[p + 4].NumberF64?
    && Kind(ts[p + 1]) in MultiplicativeKinds && Kind(ts[p + 3]) in AdditiveKinds
    && var k := Kind(ts[p + 5]); k !in CompareKinds && k !in AdditiveKinds && k !in MultiplicativeKinds
  }

  /** `a * b + c` parses as `(a * b) + c`. */
  lemma ProductIsLeftOperand(ts: seq<Token>, p: nat)
    requires ProductThenSum(ts, p)
    ensures ts[p + 1].BinOp? && ts[p + 3].BinOp?
    ensures ExpressionAt(ts, p) ==
      Ok((p + 5, Expr.BinOp(Expr.BinOp(Expr.NumberF64(ts[p].number), ts[p + 1].binOp, Expr.NumberF64(ts[p + 2].number)),
                            ts[p + 3].binOp, Expr.NumberF64(ts[p + 4].number))))
  {
    AdditiveShape(ts[p + 3]);
    ProductTerm(ts, p);
    NumberTerm(ts, p + 4);
    var product := Expr.BinOp(Expr.NumberF64(ts[p].number), ts[p + 1].binOp, Expr.NumberF64(ts[p + 2].number));
    SumComparison(ts, p, p + 3, product, p + 5, Expr.NumberF64(ts[p + 4].number));
    WholeExpression(ts, p, p + 5, Expr.BinOp(product, ts[p + 3].binOp, Expr.NumberF64(ts[p + 4].number)));
  }

  /** The tokens from `p` on begin `a + b + c` (any additive operators), then a token that no
      operator continues. */
  predicate TwoSums(ts: seq<Token>, p: nat)
  {
    p + 5 < |ts| && ts[p].NumberF64? && ts[p + 2].NumberF64? && ts[p + 4].NumberF64?
    && Kind(ts[p + 1]) in AdditiveKinds && Kind(ts[p + 3]) in AdditiveKinds
    && var k := Kind(ts[p + 5]); k !in CompareKinds && k !in AdditiveKinds && k !in MultiplicativeKinds
  }

  /** `a - b - c` parses as `(a - b) - c`: operators of one level group to the left. */
  lemma SumsGroupLeft(ts: seq<Token>, p: nat)
    requires TwoSums(ts, p)
    ensures ts[p + 1].BinOp? && ts[p + 3].BinOp?
    ensures ExpressionAt(ts, p) ==
      Ok((p + 5, Expr.BinOp(Expr.BinOp(Expr.NumberF64(ts[p].number), ts[p + 1].binOp, Expr.NumberF64(ts[p + 2].number)),
                            ts[p + 3].binOp, Expr.NumberF64(ts[p + 4].number))))
  {
    var a, b, c := Expr.NumberF64(ts[p].number), Expr.NumberF64(ts[p + 2].number), Expr.NumberF64(ts[p + 4].number);
    AdditiveShape(ts[p + 1]);
    AdditiveShape(ts[p + 3]);
    NumberTerm(ts, p);
    NumberTerm(ts, p + 2);
    NumberTerm(ts, p + 4);
    var first := Expr.BinOp(a, ts[p + 1].binOp, b);
    var both := Expr.BinOp(first, ts[p + 3].binOp, c);
    ComparisonStepNext(ts, p + 1, a, p + 3, b);
    ComparisonStepNext(ts, p + 3, first, p + 5, c);
    ComparisonRestNone(ts, p + 5, both);
    WholeExpression(ts, p, p + 5, both);
  }

  /** `$ a + b`, then a token that no operator continues: the column operator applies to the
      whole sum, not to `a` alone. */
  lemma ColumnTakesWholeExpression(ts: seq<Token>, p: nat)
    requires p + 4 < |ts| && ts[p].Column? && ts[p + 1].NumberF64? && ts[p + 3].NumberF64?
    requires Kind(ts[p + 2]) in AdditiveKinds
    requires var k := Kind(ts[p + 4]); k !in CompareKinds && k !in AdditiveKinds && k !in MultiplicativeKinds
    ensures ts[p + 2].BinOp?
    ensures ExpressionAt(ts, p) ==
      Ok((p + 4, Expr.Column(Expr.BinOp(Expr.NumberF64(ts[p + 1].number), ts[p + 2].binOp, Expr.NumberF64(ts[p + 3].number)))))
  {
    var a, b := Expr.NumberF64(ts[p + 1].number), Expr.NumberF64(ts[p + 3].number);
    NumberTerm(ts, p + 1);
    NumberTerm(ts, p + 3);
    SumComparison(ts, p + 1, p + 2, a, p + 4, b);
    var sum := Expr.BinOp(a, ts[p + 2].binOp, b);
    var q: nat := p + 4;
    CompareRestNone(ts, q, sum);
    assert CompareAt(ts, p + 1) == Ok((q, sum));
    assert MatchesAt(ts, p, [TokenType.Column]) == Ok((p + 1, true));
  }

  /** There is no precedence level for `&&` and `||`: in `(0 && ...` the group ends after
      the number and the logical operator meets the closing-parenthesis check, which panics. */
  lemma LogicalOperatorEndsGroup(ts: seq<Token>, p: nat)
    requires p + 2 < |ts| && ts[p].LeftParen? && ts[p + 1].NumberF64? && ts[p + 2].LogicalOp?
    ensures PrimaryAt(ts, p) == Err(Panic("Missing closing ')' after group"))
  {
    NumberExpression(ts, p + 1);
  }

  /** The else branch of `if` is present exactly when `else` follows the `then` group. */
  lemma ElseBranchIffElse(ts: seq<Token>, p: nat, test: Expr, ifSo: Stmt)
    requires p <= |ts|
    ensures var r := ElseAt(ts, p, test, ifSo);
      r.Ok? ==> r.value.1 == Stmt.If(test, ifSo, r.value.1.ifNot)
                && (r.value.1.ifNot.Some? <==> p < |ts| && ts[p].Else?)
    ensures p < |ts| ==> ts[p].Else? || ElseAt(ts, p, test, ifSo) == Ok((p, Stmt.If(test, ifSo, None)))
  {
    if p < |ts| && ts[p].Else? {
      var q: nat := p + 1;
      assert MatchesAt(ts, p, [TokenType.Else]) == Ok((q, true));
    } else {
      assert MatchesAt(ts, p, [TokenType.Else]) == Ok((p, false));
    }
  }

  /** An identifier followed by `=` starts an assignment to that identifier. */
  lemma IdentEqAssigns(ts: seq<Token>, p: nat)
    requires p + 1 < |ts| && ts[p].Ident? && Kind(ts[p + 1]) == TokenType.Eq
    ensures var e := ExpressionAt(ts, p + 2);
      StatementAt(ts, p) == if e.Err? then Err(e.error) else Ok((e.value.0, Assign(ts[p].name, e.value.1)))
  {
    var q, q2: nat := p + 1, p + 2;
    assert MatchesAt(ts, p, [TokenType.Print]) == Ok((p, false));
    assert ConsumeAt(ts, p, TokenType.Ident, "Expected identifier before '='") == Ok((q, ts[p]));
    assert ConsumeAt(ts, q, TokenType.Eq, "Expected '=' after identifier") == Ok((q2, ts[q]));
    assert StatementAt(ts, p) == AssignAt(ts, p);
  }

  /** Any other token before `=` is refused. */
  lemma EqNeedsIdent(ts: seq<Token>, p: nat)
    requires p + 1 < |ts| && Kind(ts[p + 1]) == TokenType.Eq && Kind(ts[p]) !in {TokenType.Ident, TokenType.Print}
    ensures StatementAt(ts, p) == Err(Panic("Expected identifier before '='"))
  {
    assert MatchesAt(ts, p, [TokenType.Print]) == Ok((p, false));
    assert StatementAt(ts, p) == AssignAt(ts, p);
  }

  /** The semicolon after a statement is skipped when present and not required. */
  lemma SemicolonSkipped(ts: seq<Token>, q: nat)
    requires q < |ts|
    ensures SemicolonAt(ts, q) == Ok(if Kind(ts[q]) == TokenType.Semicolon then q + 1 else q)
  {
    if Kind(ts[q]) == TokenType.Semicolon {
      var next: nat := q + 1;
      assert ConsumeAt(ts, q, TokenType.Semicolon, "not possible") == Ok((next, ts[q]));
    }
  }

  /** One round of the loop of `stmts`: a statement, then a semicolon if there is one. */
  lemma SemicolonOptional(ts: seq<Token>, p: nat, done: seq<Stmt>, q: nat, stmt: Stmt)
    requires p < |ts| && Kind(ts[p]) != TokenType.RightBrace && StatementAt(ts, p) == Ok((q, stmt)) && q < |ts|
    ensures StmtListAt(ts, p, done) == StmtListAt(ts, if Kind(ts[q]) == TokenType.Semicolon then q + 1 else q, done + [stmt])
  {
    assert PeekKind(ts, p) == Ok(Kind(ts[p]));
    SemicolonSkipped(ts, q);
  }

  /** The loop of `stmts` stops at a closing brace. */
  lemma StmtListEnds(ts: seq<Token>, p: nat, done: seq<Stmt>)
    requires p < |ts| && Kind(ts[p]) == TokenType.RightBrace
    ensures StmtListAt(ts, p, done) == Ok((p, done))
  {
  }

  /** A single statement before the closing brace, with or without its semicolon, is
      returned as it is. */
  lemma SingleStatementUnwrapped(ts: seq<Token>, p: nat, q: nat, stmt: Stmt)
    requires p < |ts| && Kind(ts[p]) != TokenType.RightBrace && StatementAt(ts, p) == Ok((q, stmt))
    requires var e := if q < |ts| && Kind(ts[q]) == TokenType.Semicolon then q + 1 else q; e < |ts| && Kind(ts[e]) == TokenType.RightBrace
    ensures var e := if Kind(ts[q]) == TokenType.Semicolon then q + 1 else q; StmtsAt(ts, p) == Ok((e, stmt))
  {
    var e := if Kind(ts[q]) == TokenType.Semicolon then q + 1 else q;
    SemicolonOptional(ts, p, [], q, stmt);
    StmtListEnds(ts, e, [stmt]);
    assert [] + [stmt] == [stmt];
  }

  /** Two statements before the closing brace become a `Group` of both, in order. */
  lemma TwoStatementsGrouped(ts: seq<Token>, p: nat, q: nat, first: Stmt, r: nat, second: Stmt)
    requires p < |ts| && Kind(ts[p]) != TokenType.RightBrace && StatementAt(ts, p) == Ok((q, first)) && q < |ts|
    requires var m := if Kind(ts[q]) == TokenType.Semicolon then q + 1 else q;
      m < |ts| && Kind(ts[m]) != TokenType.RightBrace && StatementAt(ts, m) == Ok((r, second)) && r < |ts|
    requires var e := if Kind(ts[r]) == TokenType.Semicolon then r + 1 else r; e < |ts| && Kind(ts[e]) == TokenType.RightBrace
    ensures var e := if Kind(ts[r]) == TokenType.Semicolon then r + 1 else r;
      StmtsAt(ts, p) == Ok((e, Group([first, second])))
  {
    var m := if Kind(ts[q]) == TokenType.Semicolon then q + 1 else q;
    var e := if Kind(ts[r]) == TokenType.Semicolon then r + 1 else r;
    SemicolonOptional(ts, p, [], q, first);
    SemicolonOptional(ts, m, [first], r, second);
    StmtListEnds(ts, e, [first, second]);
    assert [] + [first] == [first] && [first] + [second] == [first, second];
  }

  // ---------------------------------------------------------------- the parser object

  /** `Parser`: the tokens and the cursor. */
  class Parser {
    const tokens: seq<Token>
    var current: nat

    constructor (ts: seq<Token>)
      ensures tokens == ts && current == 0
    {
      tokens := ts;
      current := 0;
    }

    method IsAtEnd() returns (r: Result<bool, Fault>)
      ensures r == AtEnd(tokens, current)
    {
      if current < |tokens| {
        return Ok(Kind(tokens[current]) == TokenType.EOF);
      }
      return Err(OutOfBounds);
    }

    method Peek() returns (r: Result<Token, Fault>)
      ensures r == if current < |tokens| then Ok(tokens[current]) else Err(OutOfBounds)
    {
      if current < |tokens| {
        return Ok(tokens[current]);
      }
      return Err(OutOfBounds);
    }

    method PeekNext() returns (r: Result<Token, Fault>)
      ensures r == if current + 1 < |tokens| then Ok(tokens[current + 1]) else Err(OutOfBounds)
    {
      if current + 1 < |tokens| {
        return Ok(tokens[current + 1]);
      }
      return Err(OutOfBounds);
    }

    method Previous() returns (r: Option<Token>)
      requires current <= |tokens|
      ensures current == 0 ==> r.None?
      ensures current > 0 ==> r == Some(tokens[current - 1])
    {
      if current == 0 {
        return None;
      }
      return Some(tokens[current - 1]);
    }

    method Check(k: TokenType) returns (r: Result<bool, Fault>)
      ensures r == CheckAt(tokens, current, k)
    {
      var end := IsAtEnd();
      if end.Err? {
        return Err(end.error);
      }
      if end.value {
        return Ok(false);
      }
      var t := Peek();
      return Ok(k == Kind(t.value));
    }

    method Advance() returns (r: Result<Token, Fault>)
      modifies this
      ensures Agrees(r, current, AdvanceAt(tokens, old(current)))
    {
      var end := IsAtEnd();
      if end.Err? {
        return Err(end.error);
      }
      if !end.value {
        current := current + 1;
      }
      var prev := Previous();
      if prev.None? {
        return Err(Panic("called `Option::unwrap()` on a `None` value"));
      }
      return Ok(prev.value);
    }

    method Consume(k: TokenType, message: string) returns (r: Result<Token, Fault>)
      modifies this
      ensures Agrees(r, current, ConsumeAt(tokens, old(current), k, message))
    {
      var c := Check(k);
      if c.Err? {
        return Err(c.error);
      }
      if c.value {
        r := Advance();
        return;
      }
      return Err(Panic(message));
    }

    method Matches(ks: seq<TokenType>) returns (r: Result<bool, Fault>)
      modifies this
      ensures Agrees(r, current, MatchesAt(tokens, old(current), ks))
    {
      if current >= |tokens| {
        return Ok(false);
      }
      var t := Kind(tokens[current]);
      for i := 0 to |ks|
        invariant current == old(current)
        invariant forall j :: 0 <= j < i ==> ks[j] != t
      {
        if ks[i] == t {
          var a := Advance();
          if a.Err? {
            return Err(a.error);
          }
          return Ok(true);
        }
      }
      return Ok(false);
    }

    /** `expression`. */
    method Expression() returns (r: Result<Expr, Fault>)
      requires current <= |tokens|
      modifies this
      ensures Agrees(r, current, ExpressionAt(tokens, old(current)))
      decreases |tokens| - current, 5
    {
      var m := Matches([TokenType.Column]);
      if m.value {
        var c := Compare();
        if c.Err? {
          return c;
        }
        return Ok(Expr.Column(c.value));
      }
      r := Compare();
    }

    /** `compare`. */
    method Compare() returns (r: Result<Expr, Fault>)
      requires current <= |tokens|
      modifies this
      ensures Agrees(r, current, CompareAt(tokens, old(current)))
      decreases |tokens| - current, 4
    {
      var left := Comparison();
      if left.Err? {
        return left;
      }
      var expr := left.value;
      while true
        invariant old(current) < current <= |tokens|
        invariant CompareRest(tokens, current, expr) == CompareAt(tokens, old(current))
        decreases |tokens| - current
      {
        var next := CompareRound(expr);
        if next.Err? {
          return Err(next.error);
        }
        if next.value.None? {
          return Ok(expr);
        }
        expr := next.value.value;
      }
    }

    /** One round of the loop in `compare`: the operator `matches` found and the operand after it. */
    method CompareRound(left: Expr) returns (r: Result<Option<Expr>, Fault>)
      requires current <= |tokens|
      modifies this
      ensures Agrees(r, current, CompareStep(tokens, old(current), left))
      decreases |tokens| - current, 0
    {
      ghost var pos := current;
      var m := Matches(CompareKinds);
      if !m.value {
        return Ok(None);
      }
      var prev := Previous();
      assert prev.value == tokens[pos];
      ComparisonShape(prev.value);
      var op := ComparisonOperator(prev.value).value;
      var right := Comparison();
      if right.Err? {
        CompareStepMatched(tokens, pos, left);
        return Err(right.error);
      }
      CompareStepNext(tokens, pos, left, current, right.value);
      return Ok(Some(Expr.BinOp(left, op, right.value)));
    }

    /** `comparison`. */
    method Comparison() returns (r: Result<Expr, Fault>)
      requires current <= |tokens|
      modifies this
      ensures Agrees(r, current, ComparisonAt(tokens, old(current)))
      decreases |tokens| - current, 3
    {
      var left := Term();
      if left.Err? {
        return left;
      }
      var expr := left.value;
      while true
        invariant old(current) < current <= |tokens|
        invariant ComparisonRest(tokens, current, expr) == ComparisonAt(tokens, old(current))
        decreases |tokens| - current
      {
        var next := ComparisonRound(expr);
        if next.Err? {
          return Err(next.error);
        }
        if next.value.None? {
          return Ok(expr);
        }
        expr := next.value.value;
      }
    }

    /** One round of the loop in `comparison`: the operator `matches` found and the operand after it. */
    method ComparisonRound(left: Expr) returns (r: Result<Option<Expr>, Fault>)
      requires current <= |tokens|
      modifies this
      ensures Agrees(r, current, ComparisonStep(tokens, old(current), left))
      decreases |tokens| - current, 0
    {
      ghost var pos := current;
      var m := Matches(AdditiveKinds);
      if !m.value {
        return Ok(None);
      }
      var prev := Previous();
      assert prev.value == tokens[pos];
      AdditiveShape(prev.value);
      var op := AdditiveOperator(prev.value).value;
      var right := Term();
      if right.Err? {
        ComparisonStepMatched(tokens, pos, left);
        return Err(right.error);
      }
      ComparisonStepNext(tokens, pos, left, current, right.value);
      return Ok(Some(Expr.BinOp(left, op, right.value)));
    }

    /** `term`. */
    method Term() returns (r: Result<Expr, Fault>)
      requires current <= |tokens|
      modifies this
      ensures Agrees(r, current, TermAt(tokens, old(current)))
      decreases |tokens| - current, 2
    {
      var left := Primary();
      if left.Err? {
        return left;
      }
      var expr := left.value;
      while true
        invariant old(current) < current <= |tokens|
        invariant TermRest(tokens, current, expr) == TermAt(tokens, old(current))
        decreases |tokens| - current
      {
        var next := TermRound(expr);
        if next.Err? {
          return Err(next.error);
        }
        if next.value.None? {
          return Ok(expr);
        }
        expr := next.value.value;
      }
    }

    /** One round of the loop in `term`: the operator `matches` found and the operand after it. */
    method TermRound(left: Expr) returns (r: Result<Option<Expr>, Fault>)
      requires current <= |tokens|
      modifies this
      ensures Agrees(r, current, TermStep(tokens, old(current), left))
      decreases |tokens| - current, 0
    {
      ghost var pos := current;
      var m := Matches(MultiplicativeKinds);
      if !m.value {
        return Ok(None);
      }
      var prev := Previous();
      assert prev.value == tokens[pos];
      MultiplicativeShape(prev.value);
      var op := MultiplicativeOperator(prev.value).value;
      var right := Primary();
      if right.Err? {
        TermStepMatched(tokens, pos, left);
        return Err(right.error);
      }
      TermStepNext(tokens, pos, left, current, right.value);
      return Ok(Some(Expr.BinOp(left, op, right.value)));
    }

    /** `primary`. */
    method Primary() returns (r: Result<Expr, Fault>)
      requires current <= |tokens|
      modifies this
      ensures Agrees(r, current, PrimaryAt(tokens, old(current)))
      decreases |tokens| - current, 1
    {
      var end := IsAtEnd();
      if end.Err? {
        return Err(end.error);
      }
      if end.value {
        return Err(Panic("Primary and at end"));
      }
      var t := tokens[current];
      if t.NumberF64? {
        var _ := Advance();
        return Ok(Expr.NumberF64(t.number));
      } else if t.LeftParen? {
        r := Parenthesized();
        return;
      } else if t.Ident? {
        var _ := Consume(TokenType.Ident, "Expected to parse an ident here");
        return Ok(Variable(t.name));
      } else if t.String? {
        var _ := Consume(TokenType.String, "Expected to parse a string here");
        return Ok(Expr.String(t.text));
      }
      return Err(Panic("Unexpected token"));
    }

    /** The `(` expression `)` case of `primary`. */
    method Parenthesized() returns (r: Result<Expr, Fault>)
      requires current < |tokens| && tokens[current].LeftParen?
      modifies this
      ensures Agrees(r, current, PrimaryAt(tokens, old(current)))
      decreases |tokens| - current, 0
    {
      var _ := Consume(TokenType.LeftParen, "Expected to parse a left paren here");
      var e := Expression();
      if e.Err? {
        return e;
      }
      var close := Consume(TokenType.RightParen, "Missing closing ')' after group");
      if close.Err? {
        return Err(close.error);
      }
      return e;
    }

    /** One statement of the loop in `stmts`. */
    method Statement() returns (r: Result<Stmt, Fault>)
      requires current <= |tokens|
      modifies this
      ensures Agrees(r, current, StatementAt(tokens, old(current)))
      decreases |tokens| - current, 8
    {
      ghost var pos := current;
      var printed := Matches([TokenType.Print]);
      if printed.value {
        var e := Expression();
        if e.Err? {
          return Err(e.error);
        }
        return Ok(Stmt.Print(e.value));
      }
      assert current == pos && MatchesAt(tokens, pos, [TokenType.Print]) == Ok((pos, false));
      r := AssignOrOther();
    }

    /** The cases of `stmts` after `print`: an assignment when the next token is `=`, or
        one of the others. */
    method AssignOrOther() returns (r: Result<Stmt, Fault>)
      requires current <= |tokens|
      modifies this
      ensures Agrees(r, current, AssignOrOtherAt(tokens, old(current)))
      decreases |tokens| - current, 7
    {
      var next := PeekNext();
      if next.Err? {
        return Err(next.error);
      }
      if Kind(next.value) == TokenType.Eq {
        r := Assignment();
        return;
      }
      r := OtherStatement();
    }

    /** The `return`, `if`, group and expression cases of `stmts`. */
    method OtherStatement() returns (r: Result<Stmt, Fault>)
      requires current <= |tokens|
      modifies this
      ensures Agrees(r, current, OtherStatementAt(tokens, old(current)))
      decreases |tokens| - current, 6
    {
      var ret := Matches([TokenType.Ret]);
      if ret.value {
        r := ReturnStmt();
        return;
      }
      var cond := Matches([TokenType.If]);
      if cond.value {
        r := IfStmt();
        return;
      }
      var open := Matches([TokenType.LeftBrace]);
      if open.value {
        var body := Stmts();
        if body.Err? {
          return body;
        }
        var close := Consume(TokenType.RightBrace, "Expected a right brace after a group");
        if close.Err? {
          return Err(close.error);
        }
        return body;
      }
      var e := Expression();
      if e.Err? {
        return Err(e.error);
      }
      return Ok(ExprStmt(e.value));
    }

    /** The `name = expression` case of `stmts`, entered when the next token is `=`. */
    method Assignment() returns (r: Result<Stmt, Fault>)
      requires current + 1 < |tokens| && Kind(tokens[current + 1]) == TokenType.Eq
      modifies this
      ensures Agrees(r, current, AssignAt(tokens, old(current)))
      decreases |tokens| - current, 6
    {
      var id := Consume(TokenType.Ident, "Expected identifier before '='");
      if id.Err? {
        return Err(id.error);
      }
      IdentShape(id.value);
      var name := id.value.name;
      var _ := Consume(TokenType.Eq, "Expected '=' after identifier");
      var e := Expression();
      if e.Err? {
        return Err(e.error);
      }
      return Ok(Assign(name, e.value));
    }

    /** `return_stmt`. */
    method ReturnStmt() returns (r: Result<Stmt, Fault>)
      requires current <= |tokens|
      modifies this
      ensures Agrees(r, current, ReturnAt(tokens, old(current)))
      decreases |tokens| - current, 6
    {
      var k := Peek();
      if k.Err? {
        return Err(k.error);
      }
      if Kind(k.value) == TokenType.Semicolon {
        return Ok(Return(None));
      }
      var e := Expression();
      if e.Err? {
        return Err(e.error);
      }
      return Ok(Return(Some(e.value)));
    }

    /** `if_stmt`. */
    method IfStmt() returns (r: Result<Stmt, Fault>)
      requires current <= |tokens|
      modifies this
      ensures Agrees(r, current, IfAt(tokens, old(current)))
      decreases |tokens| - current, 0
    {
      var lp := Consume(TokenType.LeftParen, "Expected '(' after if");
      if lp.Err? {
        return Err(lp.error);
      }
      var test := Expression();
      if test.Err? {
        return Err(test.error);
      }
      var rp := Consume(TokenType.RightParen, "Expected ')' after if predicate");
      if rp.Err? {
        return Err(rp.error);
      }
      var ifSo := Group();
      if ifSo.Err? {
        return ifSo;
      }
      var otherwise := Matches([TokenType.Else]);
      if otherwise.value {
        var ifNot := Group();
        if ifNot.Err? {
          return ifNot;
        }
        return Ok(Stmt.If(test.value, ifSo.value, Some(ifNot.value)));
      }
      return Ok(Stmt.If(test.value, ifSo.value, None));
    }

    /** `group`. */
    method Group() returns (r: Result<Stmt, Fault>)
      requires current <= |tokens|
      modifies this
      ensures Agrees(r, current, GroupAt(tokens, old(current)))
      decreases |tokens| - current, 0
    {
      var lb := Consume(TokenType.LeftBrace, "Expected a '}'");
      if lb.Err? {
        return Err(lb.error);
      }
      var body := Stmts();
      if body.Err? {
        return body;
      }
      var rb := Consume(TokenType.RightBrace, "Expected a '}'");
      if rb.Err? {
        return Err(rb.error);
      }
      return body;
    }

    /** `stmts`. */
    method Stmts() returns (r: Result<Stmt, Fault>)
      requires current <= |tokens|
      modifies this
      ensures Agrees(r, current, StmtsAt(tokens, old(current)))
      decreases |tokens| - current, 10
    {
      var stmts: seq<Stmt> := [];
      while true
        invariant old(current) <= current <= |tokens|
        invariant StmtListAt(tokens, current, stmts) == StmtListAt(tokens, old(current), [])
        decreases |tokens| - current
      {
        var k := Peek();
        if k.Err? {
          return Err(k.error);
        }
        if Kind(k.value) == TokenType.RightBrace {
          break;
        }
        var s := Statement();
        if s.Err? {
          return Err(s.error);
        }
        var semi := Peek();
        if semi.Err? {
          return Err(semi.error);
        }
        if Kind(semi.value) == TokenType.Semicolon {
          var _ := Consume(TokenType.Semicolon, "not possible");
        }
        stmts := stmts + [s.value];
      }
      if |stmts| == 1 {
        return Ok(stmts[0]);
      }
      return Ok(Stmt.Group(stmts));
    }

    /** `pattern_action`. */
    method ParseRule() returns (r: Result<Rule, Fault>)
      requires current <= |tokens|
      modifies this
      ensures Agrees(r, current, RuleAt(tokens, old(current)))
    {
      var action := Matches([TokenType.LeftBrace]);
      if action.value {
        var body := Stmts();
        if body.Err? {
          return Err(body.error);
        }
        var rb := Consume(TokenType.RightBrace, "Expected '}' after action block");
        if rb.Err? {
          return Err(rb.error);
        }
        return Ok(Normal(PatternAction(None, Some(body.value))));
      }
      var begin := Matches([TokenType.Begin]);
      if begin.value {
        r := SpecialRule(true);
        return;
      }
      var end := Matches([TokenType.End]);
      if end.value {
        r := SpecialRule(false);
        return;
      }
      var test := Expression();
      if test.Err? {
        return Err(test.error);
      }
      var lb := Matches([TokenType.LeftBrace]);
      if lb.value {
        var body := Stmts();
        if body.Err? {
          return Err(body.error);
        }
        var rb := Consume(TokenType.RightBrace, "Patern action should end with '}'");
        if rb.Err? {
          return Err(rb.error);
        }
        return Ok(Normal(PatternAction(Some(test.value), Some(body.value))));
      }
      return Ok(Normal(PatternAction(Some(test.value), None)));
    }

    /** The BEGIN and END cases of `pattern_action`, after the keyword. */
    method SpecialRule(begin: bool) returns (r: Result<Rule, Fault>)
      requires 0 < current <= |tokens|
      requires MatchesAt(tokens, current - 1, [TokenType.LeftBrace]) == Ok((current - 1, false))
      requires begin ==> MatchesAt(tokens, current - 1, [TokenType.Begin]) == Ok((current, true))
      requires !begin ==> MatchesAt(tokens, current - 1, [TokenType.Begin]) == Ok((current - 1, false))
      requires !begin ==> MatchesAt(tokens, current - 1, [TokenType.End]) == Ok((current, true))
      modifies this
      ensures Agrees(r, current, RuleAt(tokens, old(current) - 1))
    {
      var lb := Consume(TokenType.LeftBrace, if begin then "Expected a '{' after a begin" else "Expected a {' after a end");
      if lb.Err? {
        return Err(lb.error);
      }
      var body := Stmts();
      if body.Err? {
        return Err(body.error);
      }
      var rb := Consume(TokenType.RightBrace, if begin then "Begin action should end with '}'" else "End action should end with '}'");
      if rb.Err? {
        return Err(rb.error);
      }
      return Ok(if begin then BeginRule(body.value) else EndRule(body.value));
    }

    /** `parse`: rules up to EOF, each appended to its list. */
    method Parse() returns (r: Result<Program, Fault>)
      requires current <= |tokens|
      modifies this
      ensures r == ParseFrom(tokens, old(current), Program([], [], []))
    {
      var begins: seq<Stmt> := [];
      var ends: seq<Stmt> := [];
      var generic: seq<PatternAction> := [];
      while true
        invariant current <= |tokens|
        invariant ParseFrom(tokens, current, Program(begins, ends, generic)) == ParseFrom(tokens, old(current), Program([], [], []))
        decreases |tokens| - current
      {
        var end := IsAtEnd();
        if end.Err? {
          return Err(end.error);
        }
        if end.value {
          return Ok(Program(begins, ends, generic));
        }
        var rule := ParseRule();
        if rule.Err? {
          return Err(rule.error);
        }
        match rule.value
        case Normal(pa) => generic := generic + [pa];
        case BeginRule(s) => begins := begins + [s];
        case EndRule(s) => ends := ends + [s];
      }
    }
  }

  /** `parse`: the program a token sequence describes. */
  method ParseTokens(ts: seq<Token>) returns (r: Result<Program, Fault>)
    ensures r == ProgramOf(ts)
  {
    var parser := new Parser(ts);
    r := parser.Parse();
  }
}
