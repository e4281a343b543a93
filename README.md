# llvm-awk, modelled in Dafny

This project models the parts of llvm-awk, an AWK compiler written in Rust, that decide
things. The compiler lexes an AWK program, parses it into pattern-action rules, folds those
rules into one statement, infers a static type for every expression, and drives a JIT to
emit native code. The native code calls back into a small runtime for printing, reading
records and handling boxed strings.

What the model covers:

- **The pipeline**: the scanner (`Scanner`, with the older token declarations in
  `LexerTypes`), the recursive-descent parser (`Parsing`), the transformer (`Transformer`),
  the type analysis (`AwkTypes`, `Typing`) and the code generator (`CodeGen`).
- **The code generator is modelled as an interpreter of the code it emits.** The state is
  one (tag, float, pointer) slot per variable, the scratch slots written on each side of a
  branch, and the capturing runtime's heap, output and call log. Each case of
  `compile_expr` and `compile_stmt` is one case of `Eval` and `Exec`. The class
  `CodeGen.Emitted` performs the same steps one at a time, and each of its methods is
  proved to agree with those functions.
- **The record and field store** (`ColumnStore`, `StringUtils`). File contents are an
  input map from path to text.
- **The scope stack** (`ScopeStack`), which is generic in the value type.
- **The runtimes**: the live runtime (`LiveRuntime`), the capturing runtime with its call
  log (`TestingRuntime`, `CallLog`), and the older runtime that reads files itself
  (`LegacyRuntime`). They share a heap of boxed strings (`StringHeap`). Handles are
  abstract, and a handle that is not live is a `UseAfterFree` fault.
- **Command-line parsing** (`CommandLine`) and path padding (`PathPadding`).

Where the source mutates state, the model has two levels:

- A value-level specification: datatypes and functions. The lemmas are stated over it, and
  the interpreter calls it.
- A class with the source's fields. Its methods carry the source's loops, and each method's
  `ensures` ties its result and new state to the specification function.

Every Rust `panic!`, `unwrap`, out-of-range index and `process::exit` is a value of
`Wrappers.Fault`. A `todo!()` is the `Todo` fault.

In these places the code does something other than what its design or its tests describe, and the model follows the code:

- The type analysis starts both `if` branches from an empty environment, not from a copy.
- The transformer wraps a pattern's action in `While`, not `If`.
- The record store reads one record past the one `next_line` accepted.
- An `if` without `else` always runs its then part. The emitted branch jumps to the then label on a true test, and with no else part in between, a false test falls through to the same label (`CodeGen.IfWithoutElseAlwaysRunsThen`, `CodeGen.IfZeroPrintsOne`). The tests only exercise a true test.
- The parser has no precedence level for `&&` and `||`. The program of src/test.rs:98, `print (0 && (4/0) }`, therefore panics in the parser: the group ends after `0` and the closing-parenthesis check meets `&&` (`Parsing.LogicalOperatorEndsGroup`). The code generator does handle `&&` on a syntax tree built another way, and there `0 && (4/0)` is 0, not the 1 that the test expects (`CodeGen.PrintAndOfZero`).

## Model

| member | source | states |
|---|---|---|
| CallLog.CallLog.constructor | src/runtime/call_log.rs:19 | a new log is empty |
| CallLog.CallLog.Log | src/runtime/call_log.rs:20-23 | the log grows by exactly one entry, the new last entry is the call, every earlier entry is kept |
| ScopeStack.Inserted | src/codgen/scopes.rs:19-21 | `insert` succeeds exactly on a non-empty stack (the `unwrap` panics otherwise) and changes no scope but the innermost |
| ScopeStack.ResolveInnermost | src/codgen/scopes.rs:23-30 | the search finds nothing iff no scope binds the name, otherwise the binding of the innermost scope that has one |
| ScopeStack.InsertShadows | src/codgen/scopes.rs:19-21 | after `insert(n, v)` the name resolves to `v`, shadowing outer scopes, and every other name resolves as before |
| ScopeStack.BeginKeepsBindings | src/codgen/scopes.rs:31-33 | pushing an empty scope leaves every name's resolution unchanged |
| ScopeStack.BeginInsertEnd | src/codgen/scopes.rs:31-36 | `begin_scope`, inserts, `end_scope`: the stack below is restored and the popped scope holds exactly the inserted bindings |
| ScopeStack.Scopes.constructor | src/codgen/scopes.rs:15-18 | `new` yields exactly one empty scope |
| ScopeStack.Scopes.Insert | src/codgen/scopes.rs:19-21 | the new stack is the one `Inserted` describes, or a panic with the stack untouched when it is empty |
| ScopeStack.Scopes.Get | src/codgen/scopes.rs:23-30 | the loop from the innermost scope outwards returns the innermost binding (`Resolve`) |
| ScopeStack.Scopes.Lookup | src/codgen/scopes.rs:37-44 | `lookup` agrees with `get` on every name |
| ScopeStack.Scopes.BeginScope | src/codgen/scopes.rs:31-33 | one empty scope is pushed and the rest kept |
| ScopeStack.Scopes.EndScope | src/codgen/scopes.rs:34-36 | the innermost scope is popped and returned; an empty stack panics |
| StringUtils.StartsWith | src/columns/string_utils.rs:24-32 | false when `base_idx` is past the end or fewer than `|needle|` elements remain; otherwise true iff every needle element equals the haystack element at `base_idx + i`; every index it reads is in bounds |
| StringUtils.EmptyNeedle | src/columns/string_utils.rs:46-47 | an empty needle matches iff `base_idx <= |haystack|` |
| StringUtils.StartsWithVectors | src/columns/string_utils.rs:34-48 | the twelve unit-test vectors of `starts_with` hold |
| StringUtils.FirstMatch | src/columns/mod.rs:56 | the leftmost occurrence of the separator at or after a position, or none, as `str::split` finds it |
| StringUtils.SplitJoin | src/columns/mod.rs:55-57 | splitting on a separator loses nothing: the pieces joined with the separator give the text back |
| StringUtils.SplitPiecesAvoidSep | src/columns/mod.rs:55-57 | no piece produced by a non-empty separator contains that separator |
| ColumnStore.Reverse | src/columns/mod.rs:26 | the reversal holds the paths back to front |
| ColumnStore.OpenNextFile | src/columns/mod.rs:70-81 | a successful `advance_file` pops exactly one path |
| ColumnStore.FieldMapContents | src/columns/mod.rs:58-62 | a record's map has keys 0..n, field 0 the record and field j + 1 the j-th piece |
| ColumnStore.TableUpToContents | src/columns/mod.rs:55-64 | the table has keys 0..n-1 and entry i holds the fields of record i |
| ColumnStore.RecordTableFaithful | src/columns/mod.rs:53-67 | one entry per piece of the text split on `rs` (empty pieces kept), field 0 the record, field j + 1 the j-th piece split on `fs`, nothing else, and no text lost |
| ColumnStore.FilesOpenedInOrder | src/columns/mod.rs:22-33 | `new` stores the paths reversed so the pending order is the given order, and each successful `advance_file` opens the first pending path and removes it |
| ColumnStore.NextLineWithinTable | src/columns/mod.rs:88-90 | while record `line_number` exists, `next_line` returns true and increases `line_number` by exactly one |
| ColumnStore.NextLineOpensNextFile | src/columns/mod.rs:92-93 | an exhausted table is followed by the next file's table from record 0 |
| ColumnStore.ScanFalseExhausted | src/columns/mod.rs:87-97 | when the loop of `next_line` returns false, no path remains and the current table has no record at the cursor |
| ColumnStore.NoFilesLeftIsPermanent | src/columns/mod.rs:83-98 | once `next_line` returns false it returns false on every later call and changes nothing |
| ColumnStore.SetThenGet | src/columns/mod.rs:34-51 | `get` after `set` reads the written field when the current record exists (or the cursor is 0), "" otherwise, and other fields are unchanged |
| ColumnStore.SeparatorsFixedOnceOpen | src/columns/mod.rs:104-111 | `set_record_sep`/`set_field_sep` panic iff a file has been opened, and otherwise store the new separator |
| ColumnStore.SplitSample | src/columns/mod.rs:55-57 | "1 2 3\n" split on "\n" is ["1 2 3", ""] |
| ColumnStore.SampleTable | src/columns/mod.rs:53-67 | the table of "1 2 3\n" has records 0 and 1 only |
| ColumnStore.SampleNew | src/columns/mod.rs:22-33 | `new` over one file opens it and leaves the cursor at 1, past the record it accepted |
| ColumnStore.FirstNextLineReadsPastRecord | src/columns/mod.rs:31-98 | with one file "1 2 3\n", the first `next_line` after `new` succeeds but `get(1)` reads the absent record 2 and yields "" |
| ColumnStore.Columns.Init | src/columns/mod.rs:23-30 | the struct literal: separators "\n" and " ", paths reversed by a loop, no file, empty table, cursor 0 |
| ColumnStore.Columns.New | src/columns/mod.rs:22-33 | `new` fails exactly when its `next_line` does, and otherwise yields the state `NewColumns` describes |
| ColumnStore.Columns.Get | src/columns/mod.rs:34-41 | field `column` of record `line_number`, or "" when either is absent |
| ColumnStore.Columns.Set | src/columns/mod.rs:43-51 | the new state is `SetField` of the old one |
| ColumnStore.Columns.StringToVecVec | src/columns/mod.rs:53-67 | the nested loops build exactly `RecordTable(contents, rs, fs)` |
| ColumnStore.Columns.AdvanceFile | src/columns/mod.rs:70-81 | result and new state agree with `OpenNextFile` |
| ColumnStore.Columns.NextLine | src/columns/mod.rs:83-98 | result and new state agree with `NextRecord` |
| ColumnStore.Columns.SetRecordSep | src/columns/mod.rs:104-107 | result and new state agree with `WithRecordSep` |
| ColumnStore.Columns.SetFieldSep | src/columns/mod.rs:108-111 | result and new state agree with `WithFieldSep` |
| ColumnStore.ReversePush | src/columns/mod.rs:26 | reversing `s + [x]` puts `x` first |
| StringUtils.Split | src/columns/mod.rs:55-57 | `str::split` always yields at least one piece, even on an empty text |
| Transformer.EveryLineStmts | src/transformer.rs:7-15 | one statement per pattern-action pair, in order, each `While(test, action)` or the bare action |
| Transformer.LineLoop | src/transformer.rs:16-19 | the line loop is present (exactly one statement) iff there is a pattern-action pair |
| Transformer.Transform | src/transformer.rs:4-25 | the result is a `Group` of length `|begins| + (1 if any pattern-action pair) + |ends|`, with the BEGIN statements first and the END statements last, each in source order |
| Transformer.LineLoopBetween | src/transformer.rs:9-19 | the line loop sits between BEGIN and END iff there are pattern-action pairs; it is `While(Call, Group(..))` whose body holds each pair's action, behind a `While` on its test when it has one, in order |
| Transformer.NoPatternsNoLoop | src/transformer.rs:16-24 | without pattern-action pairs the program is the BEGIN statements followed by the END statements |
| Transformer.TransformProgram | src/transformer.rs:4-25 | the two `for` loops build exactly `Transform(program)` |
| CommandLine.NameIgnored | src/args.rs:39 | `args[0]` never influences the result |
| CommandLine.ScanIgnoresBefore | src/args.rs:39-72 | the loop from any index `i >= 1` depends only on `args[1..]` |
| CommandLine.DumpSticks | src/args.rs:42-45 | once `dump` is set, every successful result asks for the dump |
| CommandLine.DumpAnywhere | src/args.rs:42-45 | `--dump` met at any position sets `dump` in a successful result |
| CommandLine.NoDumpWithoutFlag | src/args.rs:35-45 | without any `--dump` argument a successful result does not ask for the dump |
| CommandLine.FileTakesTwo | src/args.rs:46-62 | `-f p` sets the program to `File(p)` and the loop resumes two arguments later, whatever `p` is |
| CommandLine.FileWithoutName | src/args.rs:52-58 | `-f` as the last argument is an error |
| CommandLine.SecondProgramRefused | src/args.rs:46-51 | `-f` once a program is set is an error, even with a name after it |
| CommandLine.WordsAreFiles | src/args.rs:63-70 | once a program is set, every later plain argument is appended to `files`, in order |
| CommandLine.FirstWordIsProgram | src/args.rs:63-70 | with only plain arguments, the first one is `CLI(program)` and the rest are the files, in order |
| CommandLine.NoProgramRefused | src/args.rs:73-78 | with nothing but `--dump` flags the result is the no-program error |
| CommandLine.ProgramComesFromArgs | src/args.rs:46-70 | every successful result's program is `CLI(a)` or `File(a)` for some argument `a` past `args[0]` |
| CommandLine.NewArgs | src/args.rs:34-83 | the `while` loop over `i` yields exactly `ArgsOf(args)` |
| PathPadding.Utf8Width | src/codgen/types.rs:79 | a character takes 1 to 4 bytes, and 1 exactly for ASCII |
| PathPadding.ByteLen | src/codgen/types.rs:79 | the byte length lies between the character count and four times it |
| PathPadding.Nuls | src/codgen/types.rs:81 | `n` characters, every one `'\0'` |
| PathPadding.NulsByteLen | src/codgen/types.rs:80-81 | `n` NULs take `n` bytes |
| PathPadding.ByteLenAppend | src/codgen/types.rs:80-81 | the byte length of a concatenation is the sum of the byte lengths |
| PathPadding.PaddedShape | src/codgen/types.rs:78-83 | `pad` panics iff the path is over 1000 bytes; otherwise the result is exactly 1000 bytes, begins with the path and continues with `'\0'` only |
| PathPadding.PadIdempotent | src/codgen/types.rs:80 | padding a padded path changes nothing |
| PathPadding.Pad | src/codgen/types.rs:78-83 | the `while` loop pushing `'\0'` yields exactly `Padded(path)` |
| LexerTypes.Ttype | src/lexer/types.rs:82-87 | payloads are ignored: every `String(_)`, `Number(_)` and `Column(_)` has one fixed kind |
| LexerTypes.NameRoundTrip | src/lexer/types.rs:93-114 | `name` spells each kind so that reading it back gives the kind |
| LexerTypes.NamesDistinct | src/lexer/types.rs:93-114 | distinct kinds have distinct names |
| LexerTypes.OperatorKinds | src/lexer/types.rs:61-80 | each operator token's kind has the operator's own name; `And` maps to And and `Or` to Or |
| Scanner.LowerChar | src/lexer/mod.rs:94 | `to_ascii_lowercase` on one character leaves no capital and changes only capitals |
| Scanner.Lower | src/lexer/mod.rs:94 | lower-casing keeps the length and lower-cases each character |
| Scanner.SkipDigits | src/lexer/mod.rs:60-65 | the digit loop stops at the first non-digit, having passed only digits |
| Scanner.SkipAlnum | src/lexer/mod.rs:92 | the identifier loop stops at the first character that is neither letter nor digit, having passed only those |
| Scanner.SkipTo | src/lexer/mod.rs:45-48 | the scan to a stop character ends at the first occurrence of it or at the end of the text, having passed none; the string loop stops at `"` and the comment loop of lines 187-189 at a newline |
| Scanner.NewlinesExtend | src/lexer/mod.rs:46 | one more character adds one to the newline count exactly when it is a newline |
| Scanner.StringAt | src/lexer/mod.rs:44-57 | a successful string lexeme moves the cursor past the opening quote, within the text |
| Scanner.NumberAt | src/lexer/mod.rs:58-75 | a successful number lexeme moves the cursor forward and stays within the text; its full rule is `Scanner.NumberLexeme` |
| Scanner.NumberLexeme | src/lexer/mod.rs:58-75 | a number lexeme is the maximal digit run from its first digit, followed by `.` and a second maximal digit run only when a digit follows the `.`; no digit follows it; it is one `NumberF64` holding the parse of exactly that text, and text that does not parse is the error "Unable to parse f64" naming it |
| Scanner.Step | src/lexer/mod.rs:131-216 | a successful `scan_token` moves the cursor forward, within the text, and adds at most one token, never EOF |
| Scanner.ScanEndsWithEof | src/lexer/mod.rs:225-241 | a successful scan keeps the tokens already emitted and ends with exactly one EOF, appended last |
| Scanner.LexEndsWithEof | src/lexer/mod.rs:225-241 | a successful `lex` ends with EOF and has no other EOF |
| Scanner.NewlinesSplit | src/lexer/mod.rs:203 | newline counts add up over adjacent runs of text |
| Scanner.NoNewlines | src/lexer/mod.rs:203 | a run without a newline counts none |
| Scanner.SameLines | src/lexer/mod.rs:203 | the line counter is unchanged across text without newlines |
| Scanner.StepSpansNoNewline | src/lexer/mod.rs:131-216 | every lexeme but a string or a newline spans no newline and keeps the line counter |
| Scanner.StringCountsLines | src/lexer/mod.rs:44-51 | a string lexeme counts the newlines inside it, and an unterminated one reports the newlines of the whole text |
| Scanner.StepCountsLines | src/lexer/mod.rs:200-203 | a lexeme started with the right line counter leaves it equal to the newlines before the next lexeme, and errors report a line counted the same way |
| Scanner.ScanErrorLine | src/lexer/mod.rs:226-229 | the line reported with an error is the number of newlines before some point of the text |
| Scanner.LexErrorLine | src/lexer/mod.rs:226-229 | the line `lex` reports with an error counts the newlines before some point of the text |
| Scanner.StringExcludesQuotes | src/lexer/mod.rs:44-57 | a string lexeme succeeds iff a closing quote follows; its token is the text strictly between the quotes, which holds no quote; otherwise the error is "Unterminated String: " and the rest of the text |
| Scanner.LogicalNeedsDouble | src/lexer/mod.rs:150-163 | a lone `|` or `&` is an error; doubled, it is the Or or And token and consumes both characters |
| Scanner.TwoCharacterOperators | src/lexer/mod.rs:143-184 | after `!`, `=`, `<`, `>` a following `=` is consumed exactly when it is there, and the token is then `!=`, `==`, `<=`, `>=` |
| Scanner.CommentToEndOfLine | src/lexer/mod.rs:185-193 | `//` adds no token, keeps the line counter and runs up to, not including, the next newline |
| Scanner.BlanksAndNewlines | src/lexer/mod.rs:200-203 | a blank, tab or carriage return adds no token; a newline adds none and counts one more line |
| Scanner.LowerIdempotent | src/lexer/mod.rs:94 | lower-casing twice is lower-casing once |
| Scanner.IdentifiersIgnoreCase | src/lexer/mod.rs:91-118 | an identifier's token is the keyword or name of its lower-cased text, and names carry no capitals |
| Scanner.SkipAlnumRun | src/lexer/mod.rs:92 | the identifier loop stops exactly at the first character that is neither letter nor digit |
| Scanner.IdentifierStep | src/lexer/mod.rs:91-118 | a letter starts a lexeme that takes the whole run of letters and digits |
| Scanner.ScanDone | src/lexer/mod.rs:232 | at the end of the text the scan appends EOF |
| Scanner.ScanStep | src/lexer/mod.rs:226-231 | the scan is one lexeme followed by the scan of the rest |
| Scanner.LexBeginEnd | src/lexer/mod.rs:312-316 | `BEGIN begin END end` lexes to Begin, Begin, End, End, EOF |
| Scanner.BeginWord | src/lexer/mod.rs:105-106 | `BEGIN` or `begin`, not followed by a letter or digit, is the Begin keyword |
| Scanner.BeginEndFirst | src/lexer/mod.rs:312-316 | the first word and blank of the test text give Begin |
| Scanner.BeginEndSecond | src/lexer/mod.rs:312-316 | the second word and blank give Begin |
| Scanner.BeginEndThird | src/lexer/mod.rs:312-316 | the third word and blank give End |
| Scanner.BeginEndLast | src/lexer/mod.rs:312-316 | the last word gives End, then EOF |
| Scanner.LexString | src/lexer/mod.rs:323-327 | `{ "x" }` lexes to LeftBrace, String("x"), RightBrace, EOF |
| Scanner.LexColumn | src/lexer/mod.rs:250-255 | `$1` lexes to Column, NumberF64(1.0), EOF when the number parser reads "1" as 1.0 |
| Scanner.LexDecimals | src/lexer/mod.rs:273-276 | `4.123-123.123` lexes to NumberF64(4.123), Minus, NumberF64(123.123), EOF when the number parser reads those two texts as those numbers |
| Scanner.Lexer.constructor | src/lexer/mod.rs:24-32 | `Lexer::new`: cursor, start and line at 0, no tokens |
| Scanner.Lexer.IsAtEnd | src/lexer/mod.rs:33-35 | true iff the cursor is at or past the end |
| Scanner.Lexer.Advance | src/lexer/mod.rs:36-40 | returns the character under the cursor and moves the cursor by one |
| Scanner.Lexer.Peek | src/lexer/mod.rs:119-124 | the character under the cursor, NUL past the end |
| Scanner.Lexer.PeekNext | src/lexer/mod.rs:125-130 | the character after the cursor, NUL past the end |
| Scanner.Lexer.Matches | src/lexer/mod.rs:218-223 | true iff the expected character is under the cursor, which then moves past it, and only then |
| Scanner.Lexer.ToQuote | src/lexer/mod.rs:45-48 | the loop stops where `SkipTo` finds the closing `"` and adds the newlines it passed to the line counter |
| Scanner.Lexer.StringLit | src/lexer/mod.rs:44-57 | verdict, tokens, cursor and line counter are those of `StringAt` |
| Scanner.Lexer.Digits | src/lexer/mod.rs:60-65 | the loop stops at `SkipDigits` |
| Scanner.Lexer.Number | src/lexer/mod.rs:58-75 | verdict, token and cursor are those of `NumberAt` |
| Scanner.Lexer.Identifier | src/lexer/mod.rs:91-118 | the loop stops at `SkipAlnum` and appends the keyword or name of the lower-cased word |
| Scanner.Lexer.ScanToken | src/lexer/mod.rs:131-216 | verdict, tokens, cursor and line counter are those of `Step` |
| Scanner.Lexer.SkipComment | src/lexer/mod.rs:187-189 | the loop stops where `SkipTo` finds the next newline |
| Scanner.Lexer.ScanTokens | src/lexer/mod.rs:225-241 | the result is exactly `Scan` from the starting state |
| Scanner.Lex | src/lexer/mod.rs:5-9 | the result is exactly `Lexed(src)` |
| Parsing.Kind | src/lexer/types.rs:57-90 | every token has one kind; only the EOF token has kind EOF, and no token has kind `While` |
| Parsing.AdvanceAt | src/parser/mod.rs:89-94 | `advance` moves one token on unless the token under the cursor is EOF, returns that token, and succeeds whenever the cursor is inside the tokens |
| Parsing.ConsumeAt | src/parser/mod.rs:47-54 | a successful `consume` returns the token under the cursor, which has the requested kind, and moves one token on |
| Parsing.MatchesAt | src/parser/mod.rs:56-68 | `matches` answers true only on a token whose kind is listed, and then moves past it (unless EOF); false leaves the cursor where it is and means no listed kind is under it; it cannot fail when EOF is not listed |
| Parsing.ExpressionAt | src/parser/mod.rs:197-202 | a parsed expression consumes at least one token and stays inside the tokens |
| Parsing.CompareAt | src/parser/mod.rs:204-219 | a parsed comparison chain consumes at least one token |
| Parsing.CompareStep | src/parser/mod.rs:206-216 | a round of the `compare` loop either stops without moving or consumes an operator and its operand |
| Parsing.CompareRest | src/parser/mod.rs:206-218 | the rest of the `compare` loop never moves the cursor backwards or past the end |
| Parsing.ComparisonAt | src/parser/mod.rs:221-232 | a parsed additive expression consumes at least one token |
| Parsing.ComparisonStep | src/parser/mod.rs:223-229 | a round of the `comparison` loop either stops without moving or consumes `+`/`-` and its operand |
| Parsing.ComparisonRest | src/parser/mod.rs:223-231 | the rest of the `comparison` loop never moves the cursor backwards or past the end |
| Parsing.TermAt | src/parser/mod.rs:234-245 | a parsed term consumes at least one token |
| Parsing.TermStep | src/parser/mod.rs:236-242 | a round of the `term` loop either stops without moving or consumes `*`/`/` and its operand |
| Parsing.TermRest | src/parser/mod.rs:236-244 | the rest of the `term` loop never moves the cursor backwards or past the end |
| Parsing.PrimaryAt | src/parser/mod.rs:247-272 | a parsed primary consumes at least one token |
| Parsing.LogicalOperatorEndsGroup | src/parser/mod.rs:256-260 | `(`, a number, then `&&` or logical or: the group ends after the number and `primary` panics with "Missing closing ')' after group", because no parsing level consumes a logical operator |
| Parsing.StatementAt | src/parser/mod.rs:139-166 | a parsed statement consumes at least one token |
| Parsing.AssignOrOtherAt | src/parser/mod.rs:141-166 | a statement other than `print` consumes at least one token |
| Parsing.AssignAt | src/parser/mod.rs:141-144 | a parsed assignment consumes at least one token |
| Parsing.OtherStatementAt | src/parser/mod.rs:145-166 | a `return`, `if`, braced or expression statement consumes at least one token |
| Parsing.ReturnAt | src/parser/mod.rs:177-183 | `return_stmt` never moves the cursor backwards or past the end |
| Parsing.IfAt | src/parser/mod.rs:184-195 | a parsed `if` consumes at least one token |
| Parsing.ElseAt | src/parser/mod.rs:189-194 | the optional else part never moves the cursor backwards or past the end |
| Parsing.GroupAt | src/parser/mod.rs:129-134 | a parsed group consumes at least its braces |
| Parsing.StmtsAt | src/parser/mod.rs:136-176 | `stmts` never moves the cursor backwards or past the end |
| Parsing.SemicolonAt | src/parser/mod.rs:167-169 | the semicolon after a statement is passed exactly when the next token is one |
| Parsing.StmtListAt | src/parser/mod.rs:138-171 | the statement loop never moves the cursor backwards or past the end |
| Parsing.RuleAt | src/parser/mod.rs:96-128 | a parsed rule consumes at least one token |
| Parsing.ComparisonShape | src/parser/mod.rs:206-215 | every token `compare` matches is a comparison operator, so its panic branch is unreachable |
| Parsing.AdditiveShape | src/parser/mod.rs:223-228 | every token `comparison` matches is `+` or `-`, so its panic branch is unreachable |
| Parsing.MultiplicativeShape | src/parser/mod.rs:236-241 | every token `term` matches is `*` or `/`, so its panic branch is unreachable |
| Parsing.IdentShape | src/parser/mod.rs:142 | a token of kind `Ident` carries a name, so the `if let` fallback panic is unreachable |
| Parsing.CompareStepMatched | src/parser/mod.rs:206-216 | after a comparison operator, a failing right operand fails the round with its own fault |
| Parsing.CompareStepNext | src/parser/mod.rs:206-216 | after a comparison operator, a parsed right operand extends the chain to the left and the loop continues from there |
| Parsing.CompareRestNone | src/parser/mod.rs:206-218 | the `compare` loop stops, keeping its expression, where no comparison operator follows |
| Parsing.ComparisonStepMatched | src/parser/mod.rs:223-229 | after `+`/`-`, a failing right operand fails the round with its own fault |
| Parsing.ComparisonStepNext | src/parser/mod.rs:223-229 | after `+`/`-`, a parsed right operand extends the sum to the left and the loop continues from there |
| Parsing.ComparisonRestNone | src/parser/mod.rs:223-231 | the `comparison` loop stops, keeping its expression, where no `+`/`-` follows |
| Parsing.TermStepMatched | src/parser/mod.rs:236-242 | after `*`/`/`, a failing right operand fails the round with its own fault |
| Parsing.TermStepNext | src/parser/mod.rs:236-242 | after `*`/`/`, a parsed right operand extends the product to the left and the loop continues from there |
| Parsing.TermRestNone | src/parser/mod.rs:236-244 | the `term` loop stops, keeping its expression, where no `*`/`/` follows |
| Parsing.ConsumeChecksKind | src/parser/mod.rs:47-54 | `consume` succeeds exactly on a non-EOF token of the requested kind, and otherwise panics with the caller's message |
| Parsing.SortedAdd | src/parser/mod.rs:29-35 | pushing one rule, then the rest, gives the same lists as sorting all of them |
| Parsing.ParseSortsRules | src/parser/mod.rs:25-37 | the `parse` loop fails with the first failing rule, or appends every rule to the list of its kind |
| Parsing.ProgramKeepsOrder | src/parser/mod.rs:14-17 | the program holds the BEGIN actions, END actions and pattern-action rules, each in source order, or the first fault |
| Parsing.TermRestStops | src/parser/mod.rs:236-244 | the `term` loop ends only where no `*`/`/` follows |
| Parsing.TermStops | src/parser/mod.rs:234-245 | a term ends only where no `*`/`/` follows |
| Parsing.ComparisonRestStops | src/parser/mod.rs:223-231 | the `comparison` loop ends only where no arithmetic operator follows |
| Parsing.ComparisonStops | src/parser/mod.rs:221-232 | an additive expression ends only where no arithmetic operator follows |
| Parsing.CompareRestStops | src/parser/mod.rs:206-218 | the `compare` loop ends only where no binary operator follows |
| Parsing.ExpressionStops | src/parser/mod.rs:197-202 | an expression ends only where no binary operator follows: every operator after it is consumed |
| Parsing.NumberExpression | src/parser/mod.rs:299-307 | a number before a non-operator is the whole expression (test `ast_number`) |
| Parsing.NumberTerm | src/parser/mod.rs:234-255 | a number not followed by `*`/`/` is a whole term |
| Parsing.ProductTerm | src/parser/mod.rs:234-245 | `a * b` between numbers is one product node |
| Parsing.SumComparison | src/parser/mod.rs:221-232 | a term, `+`/`-` and a term form one sum node |
| Parsing.WholeExpression | src/parser/mod.rs:197-219 | without `$` and with no comparison operator after it, the additive expression is the whole expression |
| Parsing.MultiplicationBindsTighter | src/parser/mod.rs:310-317 | `a + b * c` parses as `a + (b * c)` (test `oop`) |
| Parsing.ProductIsLeftOperand | src/parser/mod.rs:319-326 | `a * b + c` parses as `(a * b) + c` (test `oop_2`) |
| Parsing.SumsGroupLeft | src/parser/mod.rs:221-232 | `a - b - c` parses as `(a - b) - c` |
| Parsing.ColumnTakesWholeExpression | src/parser/mod.rs:197-202 | `$ a + b` is `Column(a + b)`: the column operator takes the whole comparison after it |
| Parsing.ElseBranchIffElse | src/parser/mod.rs:184-195 | the `if` has an else branch exactly when `else` follows its then group |
| Parsing.IdentEqAssigns | src/parser/mod.rs:141-144 | an identifier followed by `=` is an assignment of the expression after `=` to that name |
| Parsing.EqNeedsIdent | src/parser/mod.rs:141-142 | any other token (not `print`) before `=` panics with "Expected identifier before '='" |
| Parsing.SemicolonSkipped | src/parser/mod.rs:167-169 | a semicolon after a statement is passed when present and not required |
| Parsing.SemicolonOptional | src/parser/mod.rs:138-171 | a round of the `stmts` loop parses one statement, passes an optional semicolon and appends the statement |
| Parsing.StmtListEnds | src/parser/mod.rs:138 | the `stmts` loop stops at a closing brace without consuming it |
| Parsing.SingleStatementUnwrapped | src/parser/mod.rs:172-174 | a block of exactly one statement yields that statement, not a group |
| Parsing.TwoStatementsGrouped | src/parser/mod.rs:175 | a block of two statements yields a group of both, in order |
| Parsing.Parser.constructor | src/parser/mod.rs:15 | a parser starts at the first token |
| Parsing.Parser.IsAtEnd | src/parser/mod.rs:85-87 | `is_at_end` is the EOF test on the token under the cursor, a panic past the end |
| Parsing.Parser.Peek | src/parser/mod.rs:77-79 | `peek` returns the token under the cursor, a panic past the end |
| Parsing.Parser.PeekNext | src/parser/mod.rs:81-83 | `peek_next` returns the token after the cursor, a panic past the end |
| Parsing.Parser.Previous | src/parser/mod.rs:70-75 | `previous` is None at the start, else the token before the cursor |
| Parsing.Parser.Check | src/parser/mod.rs:39-45 | `check` agrees with its specification: false at EOF, else whether the kind matches |
| Parsing.Parser.Advance | src/parser/mod.rs:89-94 | `advance` moves the cursor and returns the token as `AdvanceAt` describes |
| Parsing.Parser.Consume | src/parser/mod.rs:47-54 | `consume` moves the cursor and returns or panics as `ConsumeAt` describes |
| Parsing.Parser.Matches | src/parser/mod.rs:56-68 | the loop over the expected kinds agrees with `MatchesAt` |
| Parsing.Parser.Expression | src/parser/mod.rs:197-202 | `expression` builds the tree and moves the cursor as `ExpressionAt` describes |
| Parsing.Parser.Compare | src/parser/mod.rs:204-219 | the `compare` loop builds the left-grouped chain `CompareAt` describes |
| Parsing.Parser.CompareRound | src/parser/mod.rs:206-216 | one round of the `compare` loop agrees with `CompareStep` |
| Parsing.Parser.Comparison | src/parser/mod.rs:221-232 | the `comparison` loop builds the left-grouped sum `ComparisonAt` describes |
| Parsing.Parser.ComparisonRound | src/parser/mod.rs:223-229 | one round of the `comparison` loop agrees with `ComparisonStep` |
| Parsing.Parser.Term | src/parser/mod.rs:234-245 | the `term` loop builds the left-grouped product `TermAt` describes |
| Parsing.Parser.TermRound | src/parser/mod.rs:236-242 | one round of the `term` loop agrees with `TermStep` |
| Parsing.Parser.Primary | src/parser/mod.rs:247-272 | `primary` agrees with `PrimaryAt`, including its two panics |
| Parsing.Parser.Parenthesized | src/parser/mod.rs:256-261 | the parenthesised case of `primary` agrees with `PrimaryAt` |
| Parsing.Parser.Statement | src/parser/mod.rs:139-166 | one statement of `stmts` agrees with `StatementAt` |
| Parsing.Parser.AssignOrOther | src/parser/mod.rs:141-166 | the cases after `print` agree with `AssignOrOtherAt` |
| Parsing.Parser.OtherStatement | src/parser/mod.rs:145-166 | the `return`, `if`, braced and expression cases agree with `OtherStatementAt` |
| Parsing.Parser.Assignment | src/parser/mod.rs:141-144 | the assignment case agrees with `AssignAt` |
| Parsing.Parser.ReturnStmt | src/parser/mod.rs:177-183 | `return_stmt` agrees with `ReturnAt` |
| Parsing.Parser.IfStmt | src/parser/mod.rs:184-195 | `if_stmt` agrees with `IfAt` |
| Parsing.Parser.Group | src/parser/mod.rs:129-134 | `group` agrees with `GroupAt` |
| Parsing.Parser.Stmts | src/parser/mod.rs:136-176 | the `stmts` loop agrees with `StmtsAt` |
| Parsing.Parser.ParseRule | src/parser/mod.rs:96-128 | `pattern_action` agrees with `RuleAt` |
| Parsing.Parser.SpecialRule | src/parser/mod.rs:102-113 | the BEGIN and END cases of `pattern_action` agree with `RuleAt` |
| Parsing.Parser.Parse | src/parser/mod.rs:25-37 | the `parse` loop agrees with `ParseFrom`, sorting each rule onto its list |
| Parsing.ParseTokens | src/parser/mod.rs:14-17 | `parse` yields the program `ProgramOf` describes |
| CodeGen.StringTruth | src/codgen/mod.rs:137-145 | the string truth test reads the length of a live string and is true exactly when the string is not empty; a handle that is not live is a fault |
| CodeGen.AsFloat | src/codgen/mod.rs:176-190 | `to_float` passes a FLOAT_TAG value's float through unchanged; any other value is converted by `string_to_number` on its string |
| CodeGen.SlotsFor | src/codgen/mod.rs:111-130 | `define_all_vars` gives exactly the program's names a slot, each holding `create_value`'s 0 with FLOAT_TAG |
| CodeGen.ProgressTransitive | src/codgen/mod.rs:218-290 | making progress (no slot removed, canary kept, output and call log only extended) composes |
| CodeGen.HelpersProgress | src/codgen/mod.rs:132-216 | the truth test, `to_float`, `drop_if_str`, `copy_if_string` and printing each make progress |
| CodeGen.DroppedProgress | src/codgen/mod.rs:200-216 | `drop_if_str` makes progress |
| CodeGen.DroppedSlotFrees | src/codgen/mod.rs:192-216 | `drop_if_string_ptr` skips a Float-typed slot without loading it; otherwise it frees the slot's string exactly when the type is String or the tag is STRING_TAG, which fails exactly on a bad canary or a handle that is not live, removes only that handle from the heap, logs one `free_string` and leaves the slot holding the freed handle |
| CodeGen.CopiedProgress | src/codgen/mod.rs:292-314 | `copy_if_string` makes progress |
| CodeGen.PrintProgress | src/codgen/mod.rs:224-248 | printing makes progress |
| CodeGen.EvalProgress | src/codgen/mod.rs:316-508 | every successful expression evaluation makes progress |
| CodeGen.AssignProgress | src/codgen/mod.rs:318-330 | an assignment makes progress |
| CodeGen.ColumnProgress | src/codgen/mod.rs:487-494 | a column read makes progress |
| CodeGen.MathProgress | src/codgen/mod.rs:343-365 | arithmetic makes progress |
| CodeGen.CompareProgress | src/codgen/mod.rs:366-406 | a comparison makes progress |
| CodeGen.AndProgress | src/codgen/mod.rs:411-429 | `&&` makes progress |
| CodeGen.OrProgress | src/codgen/mod.rs:430-447 | logical or makes progress |
| CodeGen.ExecProgress | src/codgen/mod.rs:218-290 | every successful statement makes progress |
| CodeGen.ExecSeqProgress | src/codgen/mod.rs:249-253 | a group of statements makes progress |
| CodeGen.LoopProgress | src/codgen/mod.rs:277-288 | a `while` loop makes progress |
| CodeGen.TruthFollowsTags | src/codgen/mod.rs:147-174 | when the static type agrees with the tag, the emitted truth test is AWK's rule (a number is true iff non-zero, a string iff non-empty) and touches neither the runtime nor the slots |
| CodeGen.TruthOfFreedString | src/codgen/mod.rs:149-151 | testing a String-typed value whose string was freed reads freed memory |
| CodeGen.LeftOperandDecides | src/codgen/mod.rs:407-447 | when the left operand is false for `&&` or true for logical or, the right operand is never evaluated and the result is 0.0 or 1.0 with FLOAT_TAG |
| CodeGen.RightOperandDecides | src/codgen/mod.rs:407-447 | otherwise the result is 1.0 iff the right operand tests true: `&&` tests it with its own type, logical or with the left operand's type |
| CodeGen.OrTestsRightWithLeftType | src/codgen/mod.rs:436-437 | `0 logical or "a"` is false although "a" is true by AWK's rule, because the string is judged as a number |
| CodeGen.IfWithoutElseAlwaysRunsThen | src/codgen/mod.rs:254-275 | an `if` evaluates and judges its test, failing as they fail; with an `else` the test chooses the part that runs, and without one the then part runs on either outcome, since the false case falls through to the then label |
| CodeGen.IfZeroPrintsOne | src/codgen/mod.rs:254-275 | `if (0) print 1` prints 1 and logs one `print_float` |
| CodeGen.PrintAndOfZero | src/codgen/mod.rs:411-429 | on a syntax tree for `print (0 && (4/0))`, the emitted code prints the number 0 and never divides |
| CodeGen.ComparisonOutcome | src/codgen/mod.rs:366-406 | a comparison of two Float-typed operands is 1.0 when the relation holds and 0.0 otherwise; other static types, and the match operators, are unsupported |
| CodeGen.ArithmeticConverts | src/codgen/mod.rs:343-365 | arithmetic yields a FLOAT_TAG number with the zero pointer, converts exactly the operands not typed Float and not tagged FLOAT_TAG, frees and prints nothing, and on two numbers computes the operation |
| CodeGen.AssignmentOwnership | src/codgen/mod.rs:318-330 | assignment frees the string the slot held, stores the new value, and returns a fresh copy of a string so the slot and the result never share a handle |
| CodeGen.ReadCopiesStrings | src/codgen/mod.rs:451-486 | reading a String-typed variable, or a Variable-typed one tagged STRING_TAG, yields a fresh copy of its string; a Float-typed read yields the slot itself |
| CodeGen.ExprStmtFreesPrintKeeps | src/codgen/mod.rs:220-248 | an expression statement frees the string it computed; `print` prints it and leaves it allocated |
| CodeGen.LiteralAssignedTwice | src/codgen/mod.rs:336-342 | a string literal is boxed once at compile time, so running `x = "a"` twice frees the box and then copies freed memory |
| CodeGen.BoxExprOkIff | src/codgen/mod.rs:502-506 | compiling an expression stops with a `todo!` exactly when it uses concatenation, a regular-expression match or a comparison the code generator cannot emit |
| CodeGen.BoxPairOkIff | src/codgen/mod.rs:343-447 | an operator compiles exactly when both operands compile and the operator itself is supported |
| CodeGen.BoxStmtOkIff | src/codgen/mod.rs:218-290 | compiling a statement succeeds exactly when every construct in it is supported |
| CodeGen.BoxSeqOkIff | src/codgen/mod.rs:249-253 | a group compiles exactly when each of its statements does |
| CodeGen.BoxedExprGrows | src/codgen/mod.rs:336-342 | boxed literals stay boxed while the heap only grows |
| CodeGen.BoxExprBoxes | src/codgen/mod.rs:336-342 | compiling an expression boxes each of its literals in a new allocation holding the literal's text, keeping every earlier allocation |
| CodeGen.BoxPairBoxes | src/codgen/mod.rs:343-447 | compiling both operands of an operator boxes the literals of each |
| CodeGen.Emitted.constructor | src/codgen/mod.rs:64-88 | the emitted function starts with one slot per program variable, zeroed scratch slots and the given runtime |
| CodeGen.Emitted.DefineAllVars | src/codgen/mod.rs:125-130 | `define_all_vars` adds a zeroed slot per name and leaves the scratch slots alone |
| CodeGen.Emitted.TruthyRetInteger | src/codgen/mod.rs:147-174 | `truthy_ret_integer` agrees with `Truth` |
| CodeGen.Emitted.ToFloat | src/codgen/mod.rs:176-190 | `to_float` agrees with `AsFloat` |
| CodeGen.Emitted.DropIfStr | src/codgen/mod.rs:200-216 | `drop_if_str` agrees with `Dropped` |
| CodeGen.Emitted.DropIfStringPtr | src/codgen/mod.rs:192-198 | `drop_if_string_ptr` agrees with `DroppedSlot`, panicking on a variable without a slot |
| CodeGen.Emitted.CopyIfString | src/codgen/mod.rs:292-314 | `copy_if_string` agrees with `Copied` |
| CodeGen.Emitted.CompileExpr | src/codgen/mod.rs:316-508 | the code `compile_expr` emits agrees with `Eval` |
| CodeGen.Emitted.CompileAssign | src/codgen/mod.rs:318-330 | the assignment case agrees with `Eval` |
| CodeGen.Emitted.CompileColumn | src/codgen/mod.rs:487-494 | the column case agrees with `Eval` |
| CodeGen.Emitted.CompileMath | src/codgen/mod.rs:343-365 | the arithmetic case agrees with `EvalMath` |
| CodeGen.Emitted.CompileCompare | src/codgen/mod.rs:366-406 | the comparison case agrees with `EvalCompare` |
| CodeGen.Emitted.CompileAnd | src/codgen/mod.rs:411-429 | the `&&` case agrees with `EvalAnd` |
| CodeGen.Emitted.CompileOr | src/codgen/mod.rs:430-447 | the logical or case agrees with `EvalOr` |
| CodeGen.Emitted.CompileStmt | src/codgen/mod.rs:218-290 | the code `compile_stmt` emits agrees with `Exec`, including the fall-through of an `if` without `else` into its then part |
| CodeGen.Emitted.CompileGroup | src/codgen/mod.rs:249-253 | a group runs its statements in order, as `ExecSeq` |
| CodeGen.Emitted.CompileWhile | src/codgen/mod.rs:277-288 | the emitted loop agrees with `Loop` |
| CodeGen.SizeSeqBound | src/codgen/mod.rs:249-253 | each statement of a group is smaller than the group |
| CodeGen.CompileAndCapture | src/codgen/mod.rs:28-34 | `compile_and_capture` yields the output `Capture` describes, which runs the program through `Exec`, so an `if` without `else` prints what its then part prints even on a false test |
| Numbers.RoundToIndex | src/runtime/live.rs:59 | `round() as usize` rounds a non-negative index to the nearest whole number, halves away from zero, and saturates negative indices to 0 |
| Numbers.Decimal | src/runtime/mod.rs:105 | `Display` of an unsigned integer: decimal digits that spell exactly the number, with no leading zero, and one digit exactly for a value below 10 |
| StringHeap.EmptyHeap | src/runtime/live.rs:117-125 | a runtime starts with no live string |
| StringHeap.Alloc | src/runtime/live.rs:60 | boxing a string adds exactly one new live allocation holding it, never the zero pointer |
| StringHeap.Load | src/runtime/live.rs:88-93 | reading through a handle succeeds exactly on a live one and yields its contents |
| StringHeap.Release | src/runtime/live.rs:63-66 | dropping a box succeeds exactly on a live handle and removes only that allocation |
| StringHeap.Duplicate | src/runtime/live.rs:88-93 | cloning a boxed string makes a second, new allocation with the same contents and leaves the original live |
| StringHeap.AllocThenRelease | src/runtime/live.rs:60-66 | freeing what was just boxed gives back the same live set |
| LiveRuntime.CastToRuntimeData | src/runtime/live.rs:206-216 | the runtime data is handed back exactly when its canary is intact; otherwise the process exits with status -1 |
| LiveRuntime.Printed | src/runtime/live.rs:31-35 | a printed string always ends with a newline: the string itself when it has one, else the string plus one |
| LiveRuntime.PrintedInjective | src/runtime/live.rs:26-38 | two strings that print the same and agree on ending with a newline are equal |
| LiveRuntime.PrintStringEffect | src/runtime/live.rs:12-20 | `print_string` succeeds exactly on a live string and writes it with one final newline; the string stays allocated |
| LiveRuntime.PrintStringCaptureEffect | src/runtime/live.rs:26-38 | `print_string_capture` succeeds exactly with an intact canary and a live string, and appends the printed string to the capture buffer |
| LiveRuntime.PrintFloatCaptureEffect | src/runtime/live.rs:40-44 | `print_float_capture` appends the formatted number and a newline, given an intact canary |
| LiveRuntime.NextLineEffect | src/runtime/live.rs:46-49 | `next_line` is 1.0 when the record store moved to another record and 0.0 when it is exhausted |
| LiveRuntime.StringToNumberEffect | src/runtime/live.rs:68-73 | `string_to_number` parses a live string and panics with "couldn't convert string to number" and the text when it is not a number; the string stays allocated |
| LiveRuntime.ColumnEffect | src/runtime/live.rs:51-61 | `column` boxes field `round(index)` of the current record in a new allocation, the index being the float or the parsed string |
| LiveRuntime.FreeStringEffect | src/runtime/live.rs:63-66 | `free_string` drops exactly the given live allocation and returns 0.0 |
| LiveRuntime.NumberToStringEffect | src/runtime/live.rs:75-86 | `number_to_string` panics on a value not tagged FLOAT_TAG, and otherwise boxes the formatted number |
| LiveRuntime.CopyStringEffect | src/runtime/live.rs:88-93 | `copy_string` makes a new allocation with the same contents and keeps the original live |
| LiveRuntime.CanaryGuardsEntryPoints | src/runtime/live.rs:206-216 | every entry point that goes through `cast_to_runtime_data` exits with status -1 when the canary is damaged |
| LiveRuntime.CopyThenFree | src/runtime/live.rs:63-93 | freeing a fresh copy gives back the original heap |
| LiveRuntime.Runtime.New | src/runtime/live.rs:118-124 | `RuntimeData::new` builds the record store, an intact canary and an empty capture buffer, or fails as the record store does |
| LiveRuntime.Runtime.Init | src/runtime/live.rs:119-123 | the struct literal holds the given store, the canary and empty buffers |
| LiveRuntime.Runtime.CheckCanary | src/runtime/live.rs:210-213 | the canary check passes exactly on an intact canary and otherwise exits with status -1 |
| LiveRuntime.Runtime.PrintString | src/runtime/live.rs:12-20 | agrees with `PrintStringEffect` and changes nothing else |
| LiveRuntime.Runtime.PrintFloat | src/runtime/live.rs:22-24 | writes the formatted number and a newline to standard output and changes nothing else |
| LiveRuntime.Runtime.PrintStringCapture | src/runtime/live.rs:26-38 | agrees with `PrintStringCaptureEffect` |
| LiveRuntime.Runtime.PrintFloatCapture | src/runtime/live.rs:40-44 | agrees with `PrintFloatCaptureEffect` |
| LiveRuntime.Runtime.NextLine | src/runtime/live.rs:46-49 | agrees with `NextLineEffect` |
| LiveRuntime.Runtime.StringToNumber | src/runtime/live.rs:68-73 | agrees with `StringToNumberEffect` and changes nothing |
| LiveRuntime.Runtime.Column | src/runtime/live.rs:51-61 | agrees with `ColumnEffect` |
| LiveRuntime.Runtime.FreeString | src/runtime/live.rs:63-66 | agrees with `FreeStringEffect` |
| LiveRuntime.Runtime.NumberToString | src/runtime/live.rs:75-86 | agrees with `NumberToStringEffect` |
| LiveRuntime.Runtime.CopyString | src/runtime/live.rs:88-93 | agrees with `CopyStringEffect` |
| TestingRuntime.Entered | src/runtime/testing.rs:13-14 | entering an entry point succeeds exactly with an intact canary, and then appends exactly its call to the log; otherwise the process exits with status -1 |
| TestingRuntime.PrintStringEffect | src/runtime/testing.rs:12-26 | the capturing `print_string` succeeds exactly with an intact canary and a live string |
| TestingRuntime.PrintFloatEffect | src/runtime/testing.rs:28-34 | the capturing `print_float` succeeds exactly with an intact canary |
| TestingRuntime.NextLineEffect | src/runtime/testing.rs:36-40 | `next_line` exits with -1 on a damaged canary; otherwise it fails exactly when the record store's `next_line` does, and on success logs NextLine, takes the record store's new state and answers 1.0 exactly when the store accepted another record, else 0.0 |
| TestingRuntime.StringToNumberEffect | src/runtime/testing.rs:66-74 | `string_to_number` succeeds exactly with an intact canary and a live string that parses, and yields the parsed number |
| TestingRuntime.EntryPointsLogOnce | src/runtime/testing.rs:12-101 | each entry point logs exactly one call of its own kind |
| TestingRuntime.PrintersCapture | src/runtime/testing.rs:12-34 | the capturing printers append what the live runtime prints: a string with one final newline, a number and a newline |
| TestingRuntime.ColumnEffect | src/runtime/testing.rs:42-54 | `column` exits with -1 on a damaged canary; otherwise it fails exactly when its index does, and on success keeps the record store, output and canary, logs `Column(index, field)` after the index's own entries, and boxes field `round(index)` of the current record in one new allocation, keeping every earlier cell |
| TestingRuntime.ColumnLogsWhatItReturns | src/runtime/testing.rs:42-54 | `column` returns a new live allocation and logs the index it used with the very text it returns, after a `StringToNumber` entry when the index was a string |
| TestingRuntime.CopyAndFree | src/runtime/testing.rs:56-64 | `copy_string` gives a new handle to equal text and keeps the original; `free_string` releases exactly its argument; both succeed exactly on a live handle |
| TestingRuntime.ConversionsAbort | src/runtime/testing.rs:66-89 | unparsable text panics with "couldn't convert string to number" and the text, a non-float tag panics with "Tried to convert non-number to string"; a damaged canary makes every entry point exit with status -1 |
| TestingRuntime.TestRuntime.Init | src/runtime/testing.rs:125-130 | the struct literal holds the given store, the canary, an empty capture buffer and an empty call log |
| TestingRuntime.TestRuntime.New | src/runtime/testing.rs:124-131 | `RuntimeData::new` builds the record store, or fails as the record store does |
| TestingRuntime.TestRuntime.Enter | src/runtime/testing.rs:215-225 | the canary check and the log entry agree with `Entered` |
| TestingRuntime.TestRuntime.PrintString | src/runtime/testing.rs:12-26 | agrees with `PrintStringEffect` |
| TestingRuntime.TestRuntime.PrintFloat | src/runtime/testing.rs:28-34 | agrees with `PrintFloatEffect` |
| TestingRuntime.TestRuntime.NextLine | src/runtime/testing.rs:36-40 | agrees with `NextLineEffect` |
| TestingRuntime.TestRuntime.StringToNumber | src/runtime/testing.rs:66-74 | agrees with `StringToNumberEffect` |
| TestingRuntime.TestRuntime.Column | src/runtime/testing.rs:42-54 | agrees with `ColumnEffect` |
| TestingRuntime.TestRuntime.FreeString | src/runtime/testing.rs:56-64 | agrees with `FreeStringEffect` |
| TestingRuntime.TestRuntime.NumberToString | src/runtime/testing.rs:76-89 | agrees with `NumberToStringEffect` |
| TestingRuntime.TestRuntime.CopyString | src/runtime/testing.rs:91-101 | agrees with `CopyStringEffect` |
| LegacyRuntime.ReadLine | src/runtime/mod.rs:69-77 | `read_line` splits off the text up to and including the first newline, or the whole rest; it is empty only at the end of the file, and the two parts rebuild the text |
| LegacyRuntime.NextFileEffect | src/runtime/mod.rs:10-21 | `get_next_file` opens one path and removes it from the list, or answers false with nothing changed exactly when no path is left |
| LegacyRuntime.RoundToInt | src/runtime/mod.rs:98 | `round() as i64` is the nearest whole number, halves rounded away from zero |
| LegacyRuntime.ColumnEffect | src/runtime/mod.rs:92-121 | `column` changes only the heap: every earlier cell is kept and one cell that was not live is added |
| LegacyRuntime.PrintStringCaptureEffect | src/runtime/mod.rs:39-53 | `print_string_capture` succeeds exactly on a live string and appends it with one final newline |
| LegacyRuntime.StringToNumberEffect | src/runtime/mod.rs:128-136 | a FLOAT_TAG argument panics; otherwise it succeeds exactly on a live string that parses, and yields the parsed number |
| LegacyRuntime.NumberToStringEffect | src/runtime/mod.rs:138-149 | only a FLOAT_TAG value is formatted, into a new allocation |
| LegacyRuntime.FilesOpenedFromTheEnd | src/runtime/mod.rs:11 | paths are popped from the end: the k-th file opened is the k-th from the last |
| LegacyRuntime.NoInputGivesZero | src/runtime/mod.rs:62-68 | with nothing open and no path left, `next_line` answers 0.0 and changes nothing |
| LegacyRuntime.ReadLoopSetsLine | src/runtime/mod.rs:69-89 | 1.0 comes with a non-empty `full_line` ending in a newline unless it ends its file; 0.0 means every file was used up and `full_line` is unchanged |
| LegacyRuntime.ExhaustionIsPermanent | src/runtime/mod.rs:62-90 | after a 0.0, every later `next_line` answers 0.0 again |
| LegacyRuntime.EmptyFileSkipped | src/runtime/mod.rs:79-82 | an empty read moves on to the next path |
| LegacyRuntime.ColumnCases | src/runtime/mod.rs:92-121 | before any line `column` is ""; for a FLOAT_TAG index, column 0 is the whole line; column n is the n-th piece of the line split on RS, or "" past the last |
| LegacyRuntime.ColumnOfStringIndex | src/runtime/mod.rs:99-103 | for a STRING_TAG index, the live string is parsed and rounded and the column is that column's text; a string that does not parse panics with "couldn't convert string to number" and the string |
| LegacyRuntime.ColumnBadTag | src/runtime/mod.rs:104-106 | once a line was read, a tag other than the two known ones panics with "Called column with bad tag: " and the tag in decimal |
| LegacyRuntime.ColumnsOfSampleLine | src/runtime/mod.rs:184 | with RS a space, the columns of "1 2 3\n" are "1", "2" and "3\n", and column 4 is "" |
| LegacyRuntime.Legacy.constructor | src/runtime/mod.rs:178-188 | `RuntimeData::new` holds the paths, nothing open, no line, RS a space and FS a newline |
| LegacyRuntime.Legacy.GetNextFile | src/runtime/mod.rs:10-21 | agrees with `NextFileEffect` |
| LegacyRuntime.Legacy.NextLine | src/runtime/mod.rs:62-90 | the read loop agrees with `NextLineEffect` |
| LegacyRuntime.Legacy.Column | src/runtime/mod.rs:92-121 | the loop over the pieces of the line agrees with `ColumnEffect` |
| LegacyRuntime.Legacy.PrintStringCapture | src/runtime/mod.rs:39-53 | agrees with `PrintStringCaptureEffect` |
| LegacyRuntime.Legacy.StringToNumber | src/runtime/mod.rs:128-136 | agrees with `StringToNumberEffect` |
| LegacyRuntime.Legacy.NumberToString | src/runtime/mod.rs:138-149 | agrees with `NumberToStringEffect` |
| Typing.MergeTypes | src/typing/mod.rs:111-117 | `merge_types` is Float only for two Floats, String only for two Strings, and Variable whenever they differ or one is Variable |
| Typing.Merged | src/typing/mod.rs:101-110 | `merge_maps` keeps exactly the first map's keys; a key the second map lacks keeps its type, and a key both have gets the join of the two types |
| Typing.Annotate | src/typing/mod.rs:60-98 | numbers, comparisons, arithmetic, logical operators and calls become Float; strings and columns become String; a variable gets its known type, or Float when unknown |
| Typing.AnnotateSound | src/typing/mod.rs:60-98 | `analyze_expr` changes annotations only and leaves every node of the tree annotated by its rule |
| Typing.AnnotatedIsFixed | src/typing/mod.rs:60-98 | analysing an already annotated tree changes nothing |
| Typing.AnnotateIgnoresTypes | src/typing/mod.rs:60-98 | the annotations `analyze_expr` is given do not affect its result |
| Typing.Size | src/typing/mod.rs:17-58 | every statement has a positive size, the measure the analysis recurses on |
| Typing.Analyzed | src/typing/mod.rs:17-58 | `analyze_stmt` keeps the shape of the statement |
| Typing.AnalyzedSeq | src/typing/mod.rs:25-29 | a group keeps its length and shape |
| Typing.EraseSeq | src/typing/mod.rs:25-29 | erasing a group's annotations keeps its length |
| Typing.AnalyzedErases | src/typing/mod.rs:17-58 | `analyze_stmt` changes annotations only |
| Typing.AnalyzedSeqErases | src/typing/mod.rs:25-29 | analysing a group changes annotations only |
| Typing.AnalyzedIgnoresTypes | src/typing/mod.rs:17-58 | the result of `analyze_stmt` depends on the tree, not on the annotations it is given; this is why the second pass over a loop body is sound |
| Typing.AnalyzedSeqIgnoresTypes | src/typing/mod.rs:25-29 | the same for a group |
| Typing.WhileAnalysedOnceFromJoin | src/typing/mod.rs:46-56 | analysing a loop twice comes to analysing its test and body once, from the body's own environment joined with the one before the loop |
| Typing.AnalyzedKeys | src/typing/mod.rs:17-58 | after a statement the known variables are: an assignment adds its name, an `if` keeps those known before it, a `while` keeps those its body assigns |
| Typing.AnalyzedSeqKeys | src/typing/mod.rs:25-29 | the same through a group, statement by statement |
| Typing.WhileForgetsEarlierAssignments | src/typing/mod.rs:46-56 | a string assigned before a loop is read as a number after it, because the loop's environment forgets it |
| Typing.LoopForgets | src/typing/mod.rs:46-56 | after a loop that only assigns `y`, the environment holds `y` alone |
| Typing.IfBranchStartsEmpty | src/typing/mod.rs:30-45 | a variable assigned a string before an `if` is read as a number inside it, because each branch starts from an empty environment |
| Typing.AssignRecordsType | src/typing/mod.rs:21-24 | an assignment annotates its right-hand side, records the type that side gets under the environment before it, and changes no other variable |
| Typing.IfBranchesIgnoreEnv | src/typing/mod.rs:30-45 | what an `if` writes into both of its branches is the same whatever the environment before it |
| Typing.TypeAnalysis.constructor | src/typing/mod.rs:7-9 | the analysis starts with an empty environment |
| Typing.TypeAnalysis.MergeMaps | src/typing/mod.rs:101-110 | the loop of `merge_maps` computes `Merged` |
| Typing.TypeAnalysis.AnalyzeStmt | src/typing/mod.rs:17-58 | annotates the statement and updates the environment as `Analyzed` |
| Typing.TypeAnalysis.AnalyzeGroup | src/typing/mod.rs:25-29 | the loop over a group agrees with `AnalyzedSeq` |
| Typing.TypeAnalysis.AnalyzeIf | src/typing/mod.rs:30-45 | the swaps and merges of the `if` case agree with `Analyzed` |
| Typing.TypeAnalysis.AnalyzeWhile | src/typing/mod.rs:46-56 | the swap, merge and second pass of the `while` case agree with `Analyzed` |
| Typing.AnalyzedSeqAt | src/typing/mod.rs:25-29 | a group from position i is its statement there, then the rest analysed from that statement's environment |
| Typing.SizeSeqBound | src/typing/mod.rs:25-29 | each statement of a group is smaller than the group |
| Typing.Analyze | src/typing/mod.rs:7-10 | `analyze` annotates the program as `AnalyzedProgram`, from an empty environment |

## Left out

- Instruction emission through the JIT library is left out: `Context`, `Function`, labels, `to_closure`, `compile`, `dump`, `run`, `compile_and_run` and `Types::new`. This is a foreign API; the model states what the emitted code does instead.
- The native code is modelled running against the capturing runtime only. The live runtime's entry points are modelled on their own, in `LiveRuntime`.
- `todo!()` paths have no behaviour and become the `Todo` fault. These are `Concatenation`, `MatchedBy`/`NotMatchedBy`, comparisons whose operands are not both Float-typed, and `read_until` in src/columns/string_utils.rs.
- f64 behaviour is not interpreted. Numbers are `real`. `str::parse::<f64>`, `Display` formatting and the quotient of a division by zero are parameters of type `Numbers.Numerics`, because infinities and NaN are not reals.
- LegacyRuntime.RoundToInt: `as i64` saturates at the bounds of `i64`; the model's integers are not capped.
- Numbers.RoundToIndex: `as usize` saturates negative values to 0, but values above the largest `usize` are not capped.
- Pointer and float punning is left out. This covers `cast_float_to_string`, `cast_str_to_float`, `Box::into_raw`/`from_raw` and the transmute in `number_to_string`. Handles are abstract numbers into a heap map.
- The filesystem is left out. File contents are a map from path to text: `disk` in the record store, the capturing runtime and the older runtime. A path missing from the map is the panic `read_to_string` or `File::open` would raise. `ProgramType::load`, which only reads the program file, is not part of this model.
- src/runner/mod.rs, src/main.rs and the C/C++ runtime stubs are not part of this model. They spawn clang and print through `printf`.
- src/codgen/variable_extract.rs is entirely commented out. The slot set is taken to be the distinct variable names a program assigns or reads (`CodeGen.StmtVars`).
- `TypedExpr::new_num(Expr::Call)` is taken to be `Call` typed Float.
- src/parser/types.rs does not match how the parser uses its types. The parser's AST is therefore declared from that usage in `Parsing`. The type analysis, the transformer and the code generator each keep their own revision of the AST, as in the source.
- Debug `println!` output and the usage text printed by `AwkArgs::new` are left out. The model returns a `Complaint` where the source prints one and returns `Err(())`.
- The scanner's `is_alphabetic` and `is_alphanumeric` are modelled for ASCII letters and digits only, not all of Unicode.
- The scanner's `number_usize` is marked dead code and has no caller, so it is not modelled.
- The scanner emits tokens that src/lexer/types.rs does not declare. Those declarations are kept as written in `LexerTypes`; the scanner's own token datatype is in `Scanner`.
- The scanner has no `while` keyword, so `while` lexes as an identifier. The parser's `while` branch is therefore unreachable and is not modelled, and the parser's second, dead `Print` branch is left out too.
- Parsing: when `consume` panics, only the caller's message is kept. The unexpected-token panic of `primary` is `Panic("Unexpected token")`.
- The record store's tests in src/columns/mod.rs are out of date with its code. The model follows the code, which reads `lines[line_number]` one record past the record `next_line` has just accepted (`ColumnStore.FirstNextLineReadsPastRecord`).
- The older runtime opens its paths from the last to the first, and its record separator is a space. Both are modelled as written.
- CodeGen: a string literal is boxed once, at compile time, so a loop that assigns it twice frees the box and then reads freed memory (`CodeGen.LiteralAssignedTwice`). Arithmetic never frees its operands, and `print` does not free what it prints. All three are modelled as written.
- CodeGen: logical or tests its right operand with the left operand's static type (`CodeGen.OrTestsRightWithLeftType`). This is modelled as written.
- CodeGen: an `if` with an `else` compiles the else branch before the then branch. Only the order in which literals are boxed can observe this.
- CodeGen.Exec: `while` loops are bounded by a fuel count of condition tests per entry, and running out is the `OutOfFuel` fault. The source's loops are unbounded.
- PathPadding.Pad: `pad` takes `&mut String`. The model passes the path in and returns the new contents, so aliasing of the buffer is not captured. Byte length is the UTF-8 width of each character.
- LiveRuntime.StringToNumberEffect: the panic message stops after "couldn't convert string to number" and the text. The `: ParseFloatError { kind: .. }` suffix that `expect` appends is dropped, because the f64 parser is a parameter that reports only success or failure, not why it failed. This also holds for `column` with a string index, which goes through `string_to_number`.
- TestingRuntime.StringToNumberEffect: the same `expect` suffix is dropped from the panic message, for the same reason.
- LegacyRuntime.Legacy.constructor: the `canary` field that `RuntimeData::new` sets (src/runtime/mod.rs:170-181) is not modelled; this runtime's `cast_to_runtime_data` (src/runtime/casting.rs:20-25) never checks it, so no behaviour depends on it.
- LegacyRuntime.StringToNumberEffect: the same `expect` suffix is dropped from the panic message, for the same reason.
- LegacyRuntime.ColumnEffect: the same `expect` suffix is dropped from the panic message for a string index that does not parse, for the same reason.
- Concurrency: the source has none.
