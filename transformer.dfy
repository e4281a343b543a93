// The transformer: folds a parsed program's BEGIN blocks, pattern-action pairs and END
// blocks into one statement, with the pattern-action pairs inside the loop over input lines.

module Transformer {
  import opened Wrappers
  import opened AwkTypes
  import opened Typing

  /** A pattern-action pair as the transformer receives it: an optional test and its action. */
  datatype PatternAction = PatternAction(pattern: Option<TypedExpr>, action: Stmt)

  /** The parsed program: BEGIN statements, END statements and pattern-action pairs, each in
      source order. */
  datatype Program = Program(begins: seq<Stmt>, ends: seq<Stmt>, patternActions: seq<PatternAction>)

  /** The loop test `TypedExpr::new_num(Expr::Call)`: a call to `next_line`, typed as a number. */
  const LineTest := TypedExpr(Call, Float)

  /** What one pattern-action pair contributes to the body of the line loop. */
  function EveryLine(pa: PatternAction): Stmt
  {
    match pa.pattern
    case Some(test) => While(test, pa.action)
    case None => pa.action
  }

  /** `every_line_stms`: each pair's contribution, in order. */
  function EveryLineStmts(pas: seq<PatternAction>): (r: seq<Stmt>)
    ensures |r| == |pas|
    ensures forall i :: 0 <= i < |pas| ==> r[i] == EveryLine(pas[i])
  {
    if pas == [] then [] else EveryLineStmts(pas[..|pas| - 1]) + [EveryLine(pas[|pas| - 1])]
  }

  /** The line loop, present only when there is at least one pattern-action pair. */
  function LineLoop(pas: seq<PatternAction>): (r: seq<Stmt>)
    ensures |r| == if pas == [] then 0 else 1
  {
    if pas == [] then [] else [While(LineTest, Group(EveryLineStmts(pas)))]
  }

  /** `transform`: the whole program as one statement. */
  function Transform(prog: Program): (r: Stmt)
    ensures r.Group?
    ensures |r.stmts| == |prog.begins| + (if prog.patternActions == [] then 0 else 1) + |prog.ends|
    ensures r.stmts[..|prog.begins|] == prog.begins
    ensures r.stmts[|r.stmts| - |prog.ends|..] == prog.ends
  {
    Group(prog.begins + LineLoop(prog.patternActions) + prog.ends)
  }

  // ---------------------------------------------------------------- properties

  /** Between the BEGIN and the END statements there is the line loop, exactly when there are
      pattern-action pairs; its body holds each pair's action, behind a `While` on the pair's
      test when it has one, in source order. */
  lemma LineLoopBetween(prog: Program)
    ensures var r := Transform(prog);
      |r.stmts| == |prog.begins| + |prog.ends| + 1 <==> prog.patternActions != []
    ensures var r := Transform(prog);
      prog.patternActions != [] ==>
        var loop := r.stmts[|prog.begins|];
        loop.While? && loop.test == LineTest && loop.body.Group? && |loop.body.stmts| == |prog.patternActions|
        && (forall i :: 0 <= i < |prog.patternActions| && prog.patternActions[i].pattern.Some? ==>
              loop.body.stmts[i] == While(prog.patternActions[i].pattern.value, prog.patternActions[i].action))
        && (forall i :: 0 <= i < |prog.patternActions| && prog.patternActions[i].pattern.None? ==>
              loop.body.stmts[i] == prog.patternActions[i].action)
  {
    var r := Transform(prog);
    if prog.patternActions != [] {
      assert r.stmts[|prog.begins|] == LineLoop(prog.patternActions)[0];
    }
  }

  /** A program without pattern-action pairs runs its BEGIN statements, then its END
      statements, and never reads a line. */
  lemma NoPatternsNoLoop(prog: Program)
    requires prog.patternActions == []
    ensures Transform(prog) == Group(prog.begins + prog.ends)
  {
    assert LineLoop(prog.patternActions) == [];
    assert prog.begins + [] + prog.ends == prog.begins + prog.ends;
  }

  // ---------------------------------------------------------------- the loops of `transform`

  /** `transform`, with its two `for` loops pushing onto `every_line_stms` and `prog`. */
  method TransformProgram(program: Program) returns (r: Stmt)
    ensures r == Transform(program)
  {
    var prog := program.begins;
    var everyLine: seq<Stmt> := [];
    for i := 0 to |program.patternActions|
      invariant everyLine == EveryLineStmts(program.patternActions[..i])
    {
      var pattern := program.patternActions[i];
      var stmt;
      if pattern.pattern.Some? {
        stmt := While(pattern.pattern.value, pattern.action);
      } else {
        stmt := pattern.action;
      }
      assert program.patternActions[..i + 1][..i] == program.patternActions[..i];
      everyLine := everyLine + [stmt];
    }
    assert program.patternActions[..|program.patternActions|] == program.patternActions;
    if |everyLine| > 0 {
      prog := prog + [While(LineTest, Group(everyLine))];
    }
    ghost var middle := prog;
    for i := 0 to |program.ends|
      invariant prog == middle + program.ends[..i]
    {
      assert program.ends[..i + 1] == program.ends[..i] + [program.ends[i]];
      prog := prog + [program.ends[i]];
    }
    assert program.ends[..|program.ends|] == program.ends;
    return Group(prog);
  }
}
