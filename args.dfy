// The command line: `llawk [--dump] -f progfile file ...` or `llawk [--dump] 'program' file ...`.

module CommandLine {
  import opened Wrappers

  /** Where the AWK program comes from: the command line itself, or a file to read. */
  datatype ProgramType = CLI(source: string) | File(path: string)

  /** `AwkArgs`: whether to dump the generated code, the program, and the input files. */
  datatype AwkArgs = AwkArgs(dump: bool, program: ProgramType, files: seq<string>)

  /** Why `AwkArgs::new` gives up. The source prints the usage text and one of these
      complaints to standard error, then returns `Err(())`. */
  datatype Complaint = MultiplePrograms | MissingFileName | NoProgram

  /** The variables the argument loop updates. */
  datatype Seen = Seen(dump: bool, program: Option<ProgramType>, files: seq<string>)

  const Start := Seen(false, None, [])

  /** The argument loop from index `i` on, then the check that a program was given. */
  function Scan(args: seq<string>, i: nat, seen: Seen): (r: Result<AwkArgs, Complaint>)
    decreases |args| - i
  {
    if i >= |args| then
      match seen.program
      case None => Err(NoProgram)
      case Some(prog) => Ok(AwkArgs(seen.dump, prog, seen.files))
    else if args[i] == "--dump" then
      Scan(args, i + 1, seen.(dump := true))
    else if args[i] == "-f" then
      if seen.program.Some? then Err(MultiplePrograms)
      else if i + 1 >= |args| then Err(MissingFileName)
      else Scan(args, i + 2, seen.(program := Some(File(args[i + 1]))))
    else if seen.program.None? then
      Scan(args, i + 1, seen.(program := Some(CLI(args[i]))))
    else
      Scan(args, i + 1, seen.(files := seen.files + [args[i]]))
  }

  /** `AwkArgs::new`: the loop starts past `args[0]`, the program's own name. */
  function ArgsOf(args: seq<string>): Result<AwkArgs, Complaint>
  {
    Scan(args, 1, Start)
  }

  /** The arguments the loop treats as plain words: neither `--dump` nor `-f`. */
  predicate Plain(arg: string)
  {
    arg != "--dump" && arg != "-f"
  }

  // ---------------------------------------------------------------- properties

  /** `args[0]` is never looked at. */
  lemma NameIgnored(name1: string, name2: string, rest: seq<string>)
    ensures ArgsOf([name1] + rest) == ArgsOf([name2] + rest)
  {
    ScanIgnoresBefore([name1] + rest, [name2] + rest, 1, Start);
  }

  lemma {:induction false} ScanIgnoresBefore(a: seq<string>, b: seq<string>, i: nat, seen: Seen)
    requires 1 <= |a| == |b| && a[1..] == b[1..] && 1 <= i
    ensures Scan(a, i, seen) == Scan(b, i, seen)
    decreases |a| - i
  {
    if i < |a| {
      assert a[i] == a[1..][i - 1] == b[i];
      if i + 1 < |a| {
        assert a[i + 1] == a[1..][i] == b[i + 1];
      }
      if a[i] == "--dump" || a[i] != "-f" {
        ScanIgnoresBefore(a, b, i + 1, if a[i] == "--dump" then seen.(dump := true)
                                        else if seen.program.None? then seen.(program := Some(CLI(a[i])))
                                        else seen.(files := seen.files + [a[i]]));
      } else if seen.program.None? && i + 1 < |a| {
        ScanIgnoresBefore(a, b, i + 2, seen.(program := Some(File(a[i + 1]))));
      }
    }
  }

  /** Once `--dump` has been seen, the arguments that come back ask for the dump. */
  lemma {:induction false} DumpSticks(args: seq<string>, i: nat, seen: Seen)
    requires seen.dump
    ensures Scan(args, i, seen).Ok? ==> Scan(args, i, seen).value.dump
    decreases |args| - i
  {
    if i < |args| {
      if args[i] == "--dump" {
        DumpSticks(args, i + 1, seen.(dump := true));
      } else if args[i] == "-f" {
        if seen.program.None? && i + 1 < |args| {
          DumpSticks(args, i + 2, seen.(program := Some(File(args[i + 1]))));
        }
      } else if seen.program.None? {
        DumpSticks(args, i + 1, seen.(program := Some(CLI(args[i]))));
      } else {
        DumpSticks(args, i + 1, seen.(files := seen.files + [args[i]]));
      }
    }
  }

  /** `--dump` as an option, wherever the loop meets it, sets `dump`. */
  lemma DumpAnywhere(args: seq<string>, i: nat, seen: Seen)
    requires i < |args| && args[i] == "--dump"
    ensures Scan(args, i, seen).Ok? ==> Scan(args, i, seen).value.dump
  {
    DumpSticks(args, i + 1, seen.(dump := true));
  }

  /** Without a `--dump` among the arguments nothing asks for the dump. */
  lemma {:induction false} NoDumpWithoutFlag(args: seq<string>, i: nat, seen: Seen)
    requires !seen.dump && forall j :: i <= j < |args| ==> args[j] != "--dump"
    ensures Scan(args, i, seen).Ok? ==> !Scan(args, i, seen).value.dump
    decreases |args| - i
  {
    if i < |args| {
      if args[i] == "-f" {
        if seen.program.None? && i + 1 < |args| {
          NoDumpWithoutFlag(args, i + 2, seen.(program := Some(File(args[i + 1]))));
        }
      } else if seen.program.None? {
        NoDumpWithoutFlag(args, i + 1, seen.(program := Some(CLI(args[i]))));
      } else {
        NoDumpWithoutFlag(args, i + 1, seen.(files := seen.files + [args[i]]));
      }
    }
  }

  /** `-f path` names the program file and takes the next argument with it, whatever that
      argument says. */
  lemma FileTakesTwo(args: seq<string>, i: nat, seen: Seen)
    requires i + 1 < |args| && args[i] == "-f" && seen.program.None?
    ensures Scan(args, i, seen) == Scan(args, i + 2, seen.(program := Some(File(args[i + 1]))))
  {
  }

  /** `-f` as the last argument is refused. */
  lemma FileWithoutName(args: seq<string>, seen: Seen)
    requires |args| > 0 && args[|args| - 1] == "-f" && seen.program.None?
    ensures Scan(args, |args| - 1, seen) == Err(MissingFileName)
  {
  }

  /** `-f` after a program has been given is refused, even with a file name after it. */
  lemma SecondProgramRefused(args: seq<string>, i: nat, seen: Seen)
    requires i < |args| && args[i] == "-f" && seen.program.Some?
    ensures Scan(args, i, seen) == Err(MultiplePrograms)
  {
  }

  /** Plain words after the program are the input files, in order. */
  lemma {:induction false} WordsAreFiles(args: seq<string>, i: nat, seen: Seen)
    requires i <= |args| && seen.program.Some?
    requires forall j :: i <= j < |args| ==> Plain(args[j])
    ensures Scan(args, i, seen) == Ok(AwkArgs(seen.dump, seen.program.value, seen.files + args[i..]))
    decreases |args| - i
  {
    if i == |args| {
      assert args[i..] == [];
      assert seen.files + [] == seen.files;
    } else {
      var next := seen.(files := seen.files + [args[i]]);
      WordsAreFiles(args, i + 1, next);
      assert args[i..] == [args[i]] + args[i + 1..];
      assert next.files + args[i + 1..] == seen.files + args[i..];
    }
  }

  /** `llawk 'program' file ...`: the first plain word is the program text, every later
      one an input file, in order. */
  lemma FirstWordIsProgram(args: seq<string>)
    requires |args| >= 2 && forall j :: 1 <= j < |args| ==> Plain(args[j])
    ensures ArgsOf(args) == Ok(AwkArgs(false, CLI(args[1]), args[2..]))
  {
    WordsAreFiles(args, 2, Seen(false, Some(CLI(args[1])), []));
    assert [] + args[2..] == args[2..];
  }

  /** Only `--dump`, or nothing at all, after the program's name: there is no program. */
  lemma {:induction false} NoProgramRefused(args: seq<string>, i: nat, seen: Seen)
    requires seen.program.None? && forall j :: i <= j < |args| ==> args[j] == "--dump"
    ensures Scan(args, i, seen) == Err(NoProgram)
    decreases |args| - i
  {
    if i < |args| {
      NoProgramRefused(args, i + 1, seen.(dump := true));
    }
  }

  /** A successful parse always found a program, and `-f` with a name always yields a file
      program: every `Ok` answer agrees with some argument. */
  lemma {:induction false} ProgramComesFromArgs(args: seq<string>, i: nat, seen: Seen)
    requires seen.program.Some? ==> exists j :: 1 <= j < |args| && seen.program.value in {CLI(args[j]), File(args[j])}
    requires 1 <= i
    ensures var r := Scan(args, i, seen);
      r.Ok? ==> exists j :: 1 <= j < |args| && r.value.program in {CLI(args[j]), File(args[j])}
    decreases |args| - i
  {
    if i < |args| {
      if args[i] == "--dump" {
        ProgramComesFromArgs(args, i + 1, seen.(dump := true));
      } else if args[i] == "-f" {
        if seen.program.None? && i + 1 < |args| {
          var p := File(args[i + 1]);
          assert p in {CLI(args[i + 1]), File(args[i + 1])};
          ProgramComesFromArgs(args, i + 2, seen.(program := Some(p)));
        }
      } else if seen.program.None? {
        var p := CLI(args[i]);
        assert p in {CLI(args[i]), File(args[i])};
        ProgramComesFromArgs(args, i + 1, seen.(program := Some(p)));
      } else {
        ProgramComesFromArgs(args, i + 1, seen.(files := seen.files + [args[i]]));
      }
    }
  }

  // ---------------------------------------------------------------- the loop of `AwkArgs::new`

  /** `AwkArgs::new`, with its `while` loop over the index `i`. */
  method NewArgs(args: seq<string>) returns (r: Result<AwkArgs, Complaint>)
    ensures r == ArgsOf(args)
  {
    var dump := false;
    var program: Option<ProgramType> := None;
    var files: seq<string> := [];
    var i := 1;
    while i < |args|
      invariant 1 <= i
      invariant Scan(args, i, Seen(dump, program, files)) == ArgsOf(args)
      decreases |args| - i
    {
      if args[i] == "--dump" {
        dump := true;
        i := i + 1;
      } else if args[i] == "-f" {
        if program != None {
          return Err(MultiplePrograms);
        }
        if i + 1 >= |args| {
          return Err(MissingFileName);
        }
        program := Some(File(args[i + 1]));
        i := i + 2;
      } else {
        if program == None {
          program := Some(CLI(args[i]));
        } else {
          files := files + [args[i]];
        }
        i := i + 1;
      }
    }
    if program == None {
      return Err(NoProgram);
    }
    return Ok(AwkArgs(dump, program.value, files));
  }
}
