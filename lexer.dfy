// The hand-written scanner: a cursor over the program text that emits one token per lexeme
// and a final EOF, or an error message with the line it was found on.

module Scanner {
  import opened Wrappers
  import opened Numbers
  import LexerTypes

  type BinOp = LexerTypes.BinOp
  type LogicalOp = LexerTypes.LogicalOp

  /** The tokens the scanner emits and the parser reads. */
  datatype Token =
    | Column
    | BinOp(binOp: BinOp)
    | LogicalOp(logicalOp: LogicalOp)
    | Bang
    | String(text: string)
    | NumberF64(number: real)
    | Eq
    | LeftBrace | RightBrace | LeftParen | RightParen | Semicolon
    | True | False | Ret | If | Else | Begin | End | Print
    | Ident(name: string)
    | EOF

  // ---------------------------------------------------------------- characters

  /** `peek` / `peek_next`: the character at `i`, or NUL past the end. */
  function CharAt(src: string, i: nat): char
  {
    if i < |src| then src[i] else '\0'
  }

  /** `matches`: the character at `i` is `expected` (and is there at all). */
  predicate MatchAt(src: string, i: nat, expected: char)
  {
    i < |src| && src[i] == expected
  }

  predicate IsDigit(c: char)
  {
    '0' <= c <= '9'
  }

  predicate IsAlpha(c: char)
  {
    'a' <= c <= 'z' || 'A' <= c <= 'Z'
  }

  predicate IsAlnum(c: char)
  {
    IsAlpha(c) || IsDigit(c)
  }

  predicate IsUpper(c: char)
  {
    'A' <= c <= 'Z'
  }

  /** `to_ascii_lowercase` on one character. */
  function LowerChar(c: char): (r: char)
    ensures !IsUpper(r) && (IsUpper(c) || r == c)
  {
    if IsUpper(c) then (c as int + 32) as char else c
  }

  /** `to_ascii_lowercase`. */
  function Lower(s: string): (r: string)
    ensures |r| == |s|
    ensures forall i :: 0 <= i < |s| ==> r[i] == LowerChar(s[i])
  {
    seq(|s|, i requires 0 <= i < |s| => LowerChar(s[i]))
  }

  /** The end of the run of digits starting at `i`. */
  function SkipDigits(src: string, i: nat): (j: nat)
    requires i <= |src|
    ensures i <= j <= |src| && !IsDigit(CharAt(src, j))
    ensures forall k :: i <= k < j ==> IsDigit(src[k])
    decreases |src| - i
  {
    if IsDigit(CharAt(src, i)) then SkipDigits(src, i + 1) else i
  }

  /** The end of the run of letters and digits starting at `i`. */
  function SkipAlnum(src: string, i: nat): (j: nat)
    requires i <= |src|
    ensures i <= j <= |src| && !IsAlnum(CharAt(src, j))
    ensures forall k :: i <= k < j ==> IsAlnum(src[k])
    decreases |src| - i
  {
    if IsAlnum(CharAt(src, i)) then SkipAlnum(src, i + 1) else i
  }

  /** The first `stop` character at or after `i`, or the end of the text: where the string
      loop stops (at a `"`) and where the comment loop stops (at a newline). */
  function SkipTo(src: string, i: nat, stop: char): (j: nat)
    requires i <= |src|
    ensures i <= j <= |src| && (j == |src| || src[j] == stop)
    ensures forall k :: i <= k < j ==> src[k] != stop
    decreases |src| - i
  {
    if i == |src| || src[i] == stop then i else SkipTo(src, i + 1, stop)
  }

  function Newlines(s: string): nat
  {
    if s == [] then 0 else Newlines(s[..|s| - 1]) + (if s[|s| - 1] == '\n' then 1 else 0)
  }

  /** Extending a run by one character counts that character's newline. */
  lemma NewlinesExtend(src: string, i: nat, j: nat)
    requires i <= j < |src|
    ensures Newlines(src[i..j + 1]) == Newlines(src[i..j]) + (if src[j] == '\n' then 1 else 0)
  {
    assert src[i..j + 1][..j - i] == src[i..j];
  }

  // ---------------------------------------------------------------- one lexeme

  /** A lexeme: the tokens it adds (none or one), where the next one starts, and the line
      counter after it; or the error message and the line counter at the error. */
  type Lexeme = Result<(seq<Token>, nat, nat), (string, nat)>

  /** The identifier rule: the lower-cased word is a keyword or a name. */
  function Keyword(word: string): Token
  {
    if word == "true" then True
    else if word == "false" then False
    else if word == "return" then Ret
    else if word == "if" then If
    else if word == "else" then Else
    else if word == "begin" then Begin
    else if word == "end" then End
    else if word == "print" then Print
    else Ident(word)
  }

  /** `string`: from the opening quote at `start` to the next quote; newlines inside count. */
  function StringAt(src: string, start: nat, line: nat): (r: Lexeme)
    requires start < |src|
    ensures r.Ok? ==> start < r.value.1 <= |src|
  {
    var k := SkipTo(src, start + 1, '"');
    var lines := line + Newlines(src[start + 1..k]);
    if k == |src| then Err(("Unterminated String: " + src[start..], lines))
    else Ok(([String(src[start + 1..k])], k + 1, lines))
  }

  /** `number`: a run of digits, then a `.` and more digits if a digit follows the `.`. */
  function NumberAt(num: Numerics, src: string, start: nat, line: nat): (r: Lexeme)
    requires start < |src|
    ensures r.Ok? ==> start < r.value.1 <= |src|
  {
    var j1 := SkipDigits(src, start + 1);
    var j := if CharAt(src, j1) == '.' && IsDigit(CharAt(src, j1 + 1)) then SkipDigits(src, j1 + 1) else j1;
    var text := src[start..j];
    match num.parse(text)
    case Some(x) => Ok(([NumberF64(x)], j, line))
    case None => Err(("Unable to parse f64 " + text, line))
  }

  /** The operators that may be followed by `=`: `!` `=` `<` `>` alone, or `!=` `==` `<=` `>=`. */
  function WithEquals(c: char, doubled: bool): Token
  {
    if c == '!' then (if doubled then BinOp(LexerTypes.BinOp.BangEq) else Bang)
    else if c == '=' then (if doubled then BinOp(LexerTypes.BinOp.EqEq) else Eq)
    else if c == '<' then BinOp(if doubled then LexerTypes.BinOp.LessEq else LexerTypes.BinOp.Less)
    else BinOp(if doubled then LexerTypes.BinOp.GreaterEq else LexerTypes.BinOp.Greater)
  }

  /** The one-character tokens. */
  function Single(c: char): Token
  {
    if c == '$' then Column
    else if c == '-' then BinOp(LexerTypes.BinOp.Minus)
    else if c == '+' then BinOp(LexerTypes.BinOp.Plus)
    else if c == '*' then BinOp(LexerTypes.BinOp.Star)
    else if c == '{' then LeftBrace
    else if c == '}' then RightBrace
    else if c == '(' then LeftParen
    else if c == ')' then RightParen
    else Semicolon
  }

  /** `scan_token`: the lexeme starting at `start`. */
  function Step(num: Numerics, src: string, start: nat, line: nat): (r: Lexeme)
    requires start < |src|
    ensures r.Ok? ==> start < r.value.1 <= |src|
    ensures r.Ok? ==> |r.value.0| <= 1 && forall t :: t in r.value.0 ==> !t.EOF?
  {
    var c := src[start];
    var i := start + 1;
    if c in {'$', '-', '+', '*', '{', '}', '(', ')', ';'} then Ok(([Single(c)], i, line))
    else if c in {'!', '=', '<', '>'} then
      var doubled := MatchAt(src, i, '=');
      Ok(([WithEquals(c, doubled)], if doubled then i + 1 else i, line))
    else if c == '|' then
      if MatchAt(src, i, '|') then Ok(([LogicalOp(LexerTypes.LogicalOp.Or)], i + 1, line))
      else Err(("| must be followed by ||", line))
    else if c == '&' then
      if MatchAt(src, i, '&') then Ok(([LogicalOp(LexerTypes.LogicalOp.And)], i + 1, line))
      else Err(("| must be followed by &", line))
    else if c == '/' then
      if MatchAt(src, i, '/') then Ok(([], SkipTo(src, i + 1, '\n'), line))
      else Ok(([BinOp(LexerTypes.BinOp.Slash)], i, line))
    else if c == '"' then StringAt(src, start, line)
    else if c == '\r' || c == '\t' || c == ' ' then Ok(([], i, line))
    else if c == '\n' then Ok(([], i, line + 1))
    else if IsDigit(c) then NumberAt(num, src, start, line)
    else if IsAlpha(c) then
      var j := SkipAlnum(src, i);
      Ok(([Keyword(Lower(src[start..j]))], j, line))
    else Err(("Unexpected token::: `" + [c] + "`", line))
  }

  /** `scan_tokens`: lexemes from `pos` on, appended to `acc`, then EOF; the first error
      stops the scan and reports the line counter. */
  function Scan(num: Numerics, src: string, pos: nat, line: nat, acc: seq<Token>): Result<seq<Token>, (string, nat)>
    requires pos <= |src|
    decreases |src| - pos
  {
    if pos == |src| then Ok(acc + [EOF])
    else
      match Step(num, src, pos, line)
      case Err(e) => Err(e)
      case Ok((toks, next, line2)) => Scan(num, src, next, line2, acc + toks)
  }

  /** `lex`. */
  function Lexed(num: Numerics, src: string): Result<seq<Token>, (string, nat)>
  {
    Scan(num, src, 0, 0, [])
  }

  // ---------------------------------------------------------------- properties of the scanner

  /** A successful scan keeps the tokens already emitted, adds no EOF of its own, and ends
      with exactly one EOF. */
  lemma {:induction false} ScanEndsWithEof(num: Numerics, src: string, pos: nat, line: nat, acc: seq<Token>)
    requires pos <= |src|
    requires Scan(num, src, pos, line, acc).Ok?
    ensures var toks := Scan(num, src, pos, line, acc).value;
            |toks| > |acc| && toks[..|acc|] == acc && toks[|toks| - 1] == EOF &&
            forall i :: |acc| <= i < |toks| - 1 ==> !toks[i].EOF?
    decreases |src| - pos
  {
    if pos < |src| {
      var v := Step(num, src, pos, line).value;
      ScanEndsWithEof(num, src, v.1, v.2, acc + v.0);
      var toks := Scan(num, src, pos, line, acc).value;
      assert toks[..|acc + v.0|][..|acc|] == toks[..|acc|];
      forall i | |acc| <= i < |toks| - 1
        ensures !toks[i].EOF?
      {
        if i < |acc + v.0| {
          assert toks[i] == (acc + v.0)[i] == v.0[i - |acc|];
        }
      }
    }
  }

  /** `lex`: a successful lex ends with EOF, and EOF occurs nowhere else. */
  lemma LexEndsWithEof(num: Numerics, src: string)
    requires Lexed(num, src).Ok?
    ensures var toks := Lexed(num, src).value;
            toks != [] && toks[|toks| - 1] == EOF && forall i :: 0 <= i < |toks| - 1 ==> !toks[i].EOF?
  {
    ScanEndsWithEof(num, src, 0, 0, []);
  }

  /** Newlines count additively over adjacent runs. */
  lemma {:induction false} NewlinesSplit(src: string, a: nat, b: nat, c: nat)
    requires a <= b <= c <= |src|
    ensures Newlines(src[a..c]) == Newlines(src[a..b]) + Newlines(src[b..c])
    decreases c
  {
    if c == b {
      assert src[b..c] == [];
    } else {
      NewlinesExtend(src, a, c - 1);
      NewlinesExtend(src, b, c - 1);
      NewlinesSplit(src, a, b, c - 1);
    }
  }

  /** A run without a newline character counts none. */
  lemma {:induction false} NoNewlines(src: string, a: nat, b: nat)
    requires a <= b <= |src|
    requires forall k :: a <= k < b ==> src[k] != '\n'
    ensures Newlines(src[a..b]) == 0
    decreases b
  {
    if b == a {
      assert src[a..b] == [];
    } else {
      NewlinesExtend(src, a, b - 1);
      NoNewlines(src, a, b - 1);
    }
  }

  /** Lines before `p`: the newlines among the first `p` characters. */
  function LinesBefore(src: string, p: nat): nat
    requires p <= |src|
  {
    Newlines(src[0..p])
  }

  /** Newlines before `q` are those before `p` when none lies between them. */
  lemma SameLines(src: string, p: nat, q: nat)
    requires p <= q <= |src|
    requires forall k :: p <= k < q ==> src[k] != '\n'
    ensures LinesBefore(src, q) == LinesBefore(src, p)
  {
    NewlinesSplit(src, 0, p, q);
    NoNewlines(src, p, q);
  }

  /** Every lexeme other than a string or a newline spans no newline and keeps the line. */
  lemma StepSpansNoNewline(num: Numerics, src: string, pos: nat, line: nat)
    requires pos < |src| && src[pos] != '"' && src[pos] != '\n'
    requires Step(num, src, pos, line).Ok?
    ensures var v := Step(num, src, pos, line).value;
            v.2 == line && forall k :: pos <= k < v.1 ==> src[k] != '\n'
  {
    var c := src[pos];
    if IsDigit(c) {
      var j1 := SkipDigits(src, pos + 1);
      if CharAt(src, j1) == '.' && IsDigit(CharAt(src, j1 + 1)) {
        var j2 := SkipDigits(src, j1 + 1);
      }
    } else if IsAlpha(c) {
      var j := SkipAlnum(src, pos + 1);
    } else if c == '/' && MatchAt(src, pos + 1, '/') {
      var j := SkipTo(src, pos + 2, '\n');
    }
  }

  /** A string lexeme counts the newlines it spans. */
  lemma StringCountsLines(src: string, pos: nat)
    requires pos < |src| && src[pos] == '"'
    ensures match StringAt(src, pos, LinesBefore(src, pos))
            case Ok(v) => v.2 == LinesBefore(src, v.1)
            case Err(e) => e.1 == LinesBefore(src, |src|)
  {
    var k := SkipTo(src, pos + 1, '"');
    NewlinesSplit(src, 0, pos, pos + 1);
    NewlinesSplit(src, 0, pos + 1, k);
    NoNewlines(src, pos, pos + 1);
    if k < |src| {
      SameLines(src, k, k + 1);
    }
  }

  /** A lexeme that starts with the line counter right advances it to the number of newlines
      before the next lexeme; an error reports the newlines before the lexeme, or in the whole
      text for an unterminated string. */
  lemma StepCountsLines(num: Numerics, src: string, pos: nat)
    requires pos < |src|
    ensures match Step(num, src, pos, LinesBefore(src, pos))
            case Ok(v) => v.2 == LinesBefore(src, v.1)
            case Err(e) => e.1 == LinesBefore(src, pos) || e.1 == LinesBefore(src, |src|)
  {
    var line := LinesBefore(src, pos);
    var c := src[pos];
    if c == '"' {
      StringCountsLines(src, pos);
    } else if c == '\n' {
      NewlinesExtend(src, 0, pos);
    } else if Step(num, src, pos, line).Ok? {
      StepSpansNoNewline(num, src, pos, line);
      SameLines(src, pos, Step(num, src, pos, line).value.1);
    }
  }

  /** `scan_tokens`: the line reported with an error is the number of newlines before some
      point of the text at or after where the scan started. */
  lemma {:induction false} ScanErrorLine(num: Numerics, src: string, pos: nat, acc: seq<Token>)
    requires pos <= |src|
    requires Scan(num, src, pos, LinesBefore(src, pos), acc).Err?
    ensures exists p :: pos <= p <= |src| && Scan(num, src, pos, LinesBefore(src, pos), acc).error.1 == LinesBefore(src, p)
    decreases |src| - pos
  {
    StepCountsLines(num, src, pos);
    var r := Step(num, src, pos, LinesBefore(src, pos));
    if r.Ok? {
      ScanErrorLine(num, src, r.value.1, acc + r.value.0);
      var p :| r.value.1 <= p <= |src| && Scan(num, src, r.value.1, LinesBefore(src, r.value.1), acc + r.value.0).error.1 == LinesBefore(src, p);
      assert pos <= p;
    } else if r.error.1 == LinesBefore(src, pos) {
      assert pos <= pos <= |src|;
    } else {
      assert pos <= |src| <= |src|;
    }
  }

  /** `lex`: the line of an error counts the newlines before some point of the text. */
  lemma LexErrorLine(num: Numerics, src: string)
    requires Lexed(num, src).Err?
    ensures exists p :: 0 <= p <= |src| && Lexed(num, src).error.1 == LinesBefore(src, p)
  {
    assert LinesBefore(src, 0) == 0 by {
      assert src[0..0] == [];
    }
    ScanErrorLine(num, src, 0, []);
  }

  /** `string`: the token is the text strictly between the quotes, which holds no quote;
      without a closing quote the lexeme is an error. */
  lemma StringExcludesQuotes(num: Numerics, src: string, pos: nat, line: nat)
    requires pos < |src| && src[pos] == '"'
    ensures var r := Step(num, src, pos, line);
            (r.Ok? <==> exists k :: pos < k < |src| && src[k] == '"') &&
            (r.Err? ==> r.error.0 == "Unterminated String: " + src[pos..]) &&
            (r.Ok? ==> exists t :: r.value.0 == [String(t)] && '"' !in t &&
                                   src[pos..r.value.1] == ['"'] + t + ['"'])
  {
    var k := SkipTo(src, pos + 1, '"');
    var r := Step(num, src, pos, line);
    assert r == StringAt(src, pos, line);
    if k < |src| {
      var t := src[pos + 1..k];
      assert r.Ok? && r.value.0 == [String(t)] && r.value.1 == k + 1;
      assert src[pos..k + 1] == ['"'] + t + ['"'];
      assert '"' !in t by {
        forall i | 0 <= i < |t|
          ensures t[i] != '"'
        {
          assert t[i] == src[pos + 1 + i];
        }
      }
      assert pos < k < |src| && src[k] == '"';
    } else {
      assert r.Err? && r.error.0 == "Unterminated String: " + src[pos..];
      forall k' | pos < k' < |src|
        ensures src[k'] != '"'
      {
      }
    }
  }

  /** A lone `|` or `&` is an error; doubled, it is the logical operator. */
  lemma LogicalNeedsDouble(num: Numerics, src: string, pos: nat, line: nat)
    requires pos < |src| && src[pos] in {'|', '&'}
    ensures var r := Step(num, src, pos, line);
            (r.Ok? <==> MatchAt(src, pos + 1, src[pos])) &&
            (r.Ok? ==> r.value.0 == [LogicalOp(if src[pos] == '|' then LexerTypes.LogicalOp.Or else LexerTypes.LogicalOp.And)] && r.value.1 == pos + 2)
  {
  }

  /** `==`, `!=`, `<=` and `>=` are taken whole in preference to `=`, `!`, `<` and `>`. */
  lemma TwoCharacterOperators(num: Numerics, src: string, pos: nat, line: nat)
    requires pos < |src| && src[pos] in {'!', '=', '<', '>'}
    ensures var r := Step(num, src, pos, line);
            r.Ok? && |r.value.0| == 1 &&
            (MatchAt(src, pos + 1, '=') <==> r.value.1 == pos + 2) &&
            (MatchAt(src, pos + 1, '=') <==> r.value.0[0].BinOp? && r.value.0[0].binOp in {LexerTypes.BinOp.BangEq, LexerTypes.BinOp.EqEq, LexerTypes.BinOp.LessEq, LexerTypes.BinOp.GreaterEq})
  {
  }

  /** `//` adds no token and runs up to, not including, the next newline. */
  lemma CommentToEndOfLine(num: Numerics, src: string, pos: nat, line: nat)
    requires pos + 1 < |src| && src[pos] == '/' && src[pos + 1] == '/'
    ensures var r := Step(num, src, pos, line);
            r.Ok? && r.value.0 == [] && r.value.2 == line &&
            (r.value.1 == |src| || src[r.value.1] == '\n') &&
            forall k :: pos <= k < r.value.1 ==> src[k] != '\n'
  {
  }

  /** Blanks add no token; a newline adds none and counts one more line. */
  lemma BlanksAndNewlines(num: Numerics, src: string, pos: nat, line: nat)
    requires pos < |src| && src[pos] in {' ', '\t', '\r', '\n'}
    ensures var r := Step(num, src, pos, line);
            r.Ok? && r.value.0 == [] && r.value.1 == pos + 1 && r.value.2 == if src[pos] == '\n' then line + 1 else line
  {
  }

  /** Lower-casing twice is lower-casing once. */
  lemma LowerIdempotent(s: string)
    ensures Lower(Lower(s)) == Lower(s)
  {
  }

  /** An identifier is lower-cased before the keyword test, so names carry no capitals and
      two spellings that differ only in case give the same token. */
  lemma IdentifiersIgnoreCase(num: Numerics, src: string, pos: nat, line: nat)
    requires pos < |src| && IsAlpha(src[pos])
    ensures var r := Step(num, src, pos, line);
            r.Ok? && |r.value.0| == 1 && r.value.0[0] == Keyword(Lower(src[pos..r.value.1])) &&
            (r.value.0[0].Ident? ==> forall i :: 0 <= i < |r.value.0[0].name| ==> !IsUpper(r.value.0[0].name[i])) &&
            (r.value.0[0].Ident? ==> Lower(r.value.0[0].name) == r.value.0[0].name)
  {
  }

  /** A run of letters and digits ends where the first other character is. */
  lemma {:induction false} SkipAlnumRun(src: string, i: nat, j: nat)
    requires i <= j <= |src|
    requires forall k :: i <= k < j ==> IsAlnum(src[k])
    requires !IsAlnum(CharAt(src, j))
    ensures SkipAlnum(src, i) == j
    decreases j - i
  {
    if i < j {
      SkipAlnumRun(src, i + 1, j);
    }
  }

  /** `identifier`: the lexeme is the whole run of letters and digits after a letter. */
  lemma IdentifierStep(num: Numerics, src: string, pos: nat, line: nat, n: nat)
    requires pos < pos + n <= |src| && IsAlpha(src[pos])
    requires forall k :: pos <= k < pos + n ==> IsAlnum(src[k])
    requires !IsAlnum(CharAt(src, pos + n))
    ensures Step(num, src, pos, line) == Ok(([Keyword(Lower(src[pos..pos + n]))], pos + n, line))
  {
    SkipAlnumRun(src, pos + 1, pos + n);
  }

  /** At the end of the text the scan appends EOF. */
  lemma ScanDone(num: Numerics, src: string, line: nat, acc: seq<Token>)
    ensures Scan(num, src, |src|, line, acc) == Ok(acc + [EOF])
  {
  }

  /** One lexeme, then the rest: `Scan` unfolded once. */
  lemma ScanStep(num: Numerics, src: string, pos: nat, line: nat, acc: seq<Token>, toks: seq<Token>, next: nat, line2: nat)
    requires pos < |src| && Step(num, src, pos, line) == Ok((toks, next, line2))
    ensures Scan(num, src, pos, line, acc) == Scan(num, src, next, line2, acc + toks)
  {
  }

  /** Keywords in either case: `BEGIN begin END end`. */
  lemma LexBeginEnd(num: Numerics, src: string)
    requires src == "BEGIN begin END end"
    ensures Lexed(num, src) == Ok([Begin, Begin, End, End, EOF])
  {
    BeginEndFirst(num, src);
    BeginEndSecond(num, src);
    BeginEndThird(num, src);
    BeginEndLast(num, src);
  }

  /** `BEGIN` or `begin`, followed by a non-word character, is the Begin keyword. */
  lemma BeginWord(num: Numerics, src: string, pos: nat, line: nat)
    requires pos + 5 <= |src| && src[pos..pos + 5] in {"BEGIN", "begin"}
    requires !IsAlnum(CharAt(src, pos + 5))
    ensures Step(num, src, pos, line) == Ok(([Begin], pos + 5, line))
  {
    var w := src[pos..pos + 5];
    forall k | pos <= k < pos + 5
      ensures IsAlnum(src[k])
    {
      assert src[k] == w[k - pos];
    }
    IdentifierStep(num, src, pos, line, 5);
    assert Lower(w) == "begin";
  }

  /** `BEGIN` and the blank after it. */
  lemma BeginEndFirst(num: Numerics, src: string)
    requires src == "BEGIN begin END end"
    ensures Scan(num, src, 0, 0, []) == Scan(num, src, 6, 0, [Begin])
  {
    assert src[0..5] == "BEGIN";
    BeginWord(num, src, 0, 0);
    ScanStep(num, src, 0, 0, [], [Begin], 5, 0);
    assert [] + [Begin] == [Begin];
    assert Step(num, src, 5, 0) == Ok(([], 6, 0));
    ScanStep(num, src, 5, 0, [Begin], [], 6, 0);
    assert [Begin] + [] == [Begin];
  }

  /** `begin` and the blank after it. */
  lemma BeginEndSecond(num: Numerics, src: string)
    requires src == "BEGIN begin END end"
    ensures Scan(num, src, 6, 0, [Begin]) == Scan(num, src, 12, 0, [Begin, Begin])
  {
    assert src[6..11] == "begin";
    BeginWord(num, src, 6, 0);
    ScanStep(num, src, 6, 0, [Begin], [Begin], 11, 0);
    assert [Begin] + [Begin] == [Begin, Begin];
    assert Step(num, src, 11, 0) == Ok(([], 12, 0));
    ScanStep(num, src, 11, 0, [Begin, Begin], [], 12, 0);
    assert [Begin, Begin] + [] == [Begin, Begin];
  }

  /** `END` and the blank after it. */
  lemma BeginEndThird(num: Numerics, src: string)
    requires src == "BEGIN begin END end"
    ensures Scan(num, src, 12, 0, [Begin, Begin]) == Scan(num, src, 16, 0, [Begin, Begin, End])
  {
    assert Step(num, src, 12, 0) == Ok(([End], 15, 0)) by {
      IdentifierStep(num, src, 12, 0, 3);
      assert src[12..15] == "END" && Lower("END") == "end";
    }
    ScanStep(num, src, 12, 0, [Begin, Begin], [End], 15, 0);
    assert [Begin, Begin] + [End] == [Begin, Begin, End];
    assert Step(num, src, 15, 0) == Ok(([], 16, 0));
    ScanStep(num, src, 15, 0, [Begin, Begin, End], [], 16, 0);
    assert [Begin, Begin, End] + [] == [Begin, Begin, End];
  }

  /** `end` and the end of the input. */
  lemma BeginEndLast(num: Numerics, src: string)
    requires src == "BEGIN begin END end"
    ensures Scan(num, src, 16, 0, [Begin, Begin, End]) == Ok([Begin, Begin, End, End, EOF])
  {
    assert Step(num, src, 16, 0) == Ok(([End], 19, 0)) by {
      IdentifierStep(num, src, 16, 0, 3);
      assert src[16..19] == "end" && Lower("end") == "end";
    }
    ScanStep(num, src, 16, 0, [Begin, Begin, End], [End], 19, 0);
    assert [Begin, Begin, End] + [End] == [Begin, Begin, End, End];
    assert |src| == 19;
    ScanDone(num, src, 0, [Begin, Begin, End, End]);
    assert [Begin, Begin, End, End] + [EOF] == [Begin, Begin, End, End, EOF];
  }


  /** A string between braces: `{ "x" }`. */
  lemma LexString(num: Numerics, src: string)
    requires src == "{ \"x\" }"
    ensures Lexed(num, src) == Ok([LeftBrace, String("x"), RightBrace, EOF])
  {
    assert Step(num, src, 0, 0) == Ok(([LeftBrace], 1, 0));
    ScanStep(num, src, 0, 0, [], [LeftBrace], 1, 0);
    assert [] + [LeftBrace] == [LeftBrace];
    assert Step(num, src, 1, 0) == Ok(([], 2, 0));
    ScanStep(num, src, 1, 0, [LeftBrace], [], 2, 0);
    assert [LeftBrace] + [] == [LeftBrace];
    assert Step(num, src, 2, 0) == Ok(([String("x")], 5, 0)) by {
      assert SkipTo(src, 3, '"') == 4;
      assert src[3..4] == "x" && Newlines(src[3..4]) == 0;
    }
    ScanStep(num, src, 2, 0, [LeftBrace], [String("x")], 5, 0);
    assert [LeftBrace] + [String("x")] == [LeftBrace, String("x")];
    assert Step(num, src, 5, 0) == Ok(([], 6, 0));
    ScanStep(num, src, 5, 0, [LeftBrace, String("x")], [], 6, 0);
    assert [LeftBrace, String("x")] + [] == [LeftBrace, String("x")];
    assert Step(num, src, 6, 0) == Ok(([RightBrace], 7, 0));
    ScanStep(num, src, 6, 0, [LeftBrace, String("x")], [RightBrace], 7, 0);
    assert [LeftBrace, String("x")] + [RightBrace] == [LeftBrace, String("x"), RightBrace];
    assert |src| == 7;
    ScanDone(num, src, 0, [LeftBrace, String("x"), RightBrace]);
    assert [LeftBrace, String("x"), RightBrace] + [EOF] == [LeftBrace, String("x"), RightBrace, EOF];
  }

  /** A column reference: `$1`. */
  lemma LexColumn(num: Numerics, src: string)
    requires src == "$1" && num.parse("1") == Some(1.0)
    ensures Lexed(num, src) == Ok([Column, NumberF64(1.0), EOF])
  {
    assert Step(num, src, 0, 0) == Ok(([Column], 1, 0));
    ScanStep(num, src, 0, 0, [], [Column], 1, 0);
    assert [] + [Column] == [Column];
    assert SkipDigits(src, 2) == 2 && src[1..2] == "1";
    assert Step(num, src, 1, 0) == Ok(([NumberF64(1.0)], 2, 0));
    ScanStep(num, src, 1, 0, [Column], [NumberF64(1.0)], 2, 0);
    assert [Column] + [NumberF64(1.0)] == [Column, NumberF64(1.0)];
    assert |src| == 2;
    ScanDone(num, src, 0, [Column, NumberF64(1.0)]);
    assert [Column, NumberF64(1.0)] + [EOF] == [Column, NumberF64(1.0), EOF];
  }

  /** The number rule: the lexeme is the whole run of digits from its first digit, then a `.`
      and the run of digits after it only when a digit follows the `.`; its token is the
      parse of exactly that text, and text that does not parse is an error naming it. */
  lemma NumberLexeme(num: Numerics, src: string, start: nat, line: nat)
    requires start < |src| && IsDigit(src[start])
    ensures var j1 := SkipDigits(src, start);
      var fraction := CharAt(src, j1) == '.' && IsDigit(CharAt(src, j1 + 1));
      var j := if fraction then SkipDigits(src, j1 + 1) else j1;
      var text := src[start..j];
      var r := NumberAt(num, src, start, line);
      && start < j1 <= j
      && (fraction ==> j1 + 1 < j && src[j1] == '.' && forall k :: j1 < k < j ==> IsDigit(src[k]))
      && !IsDigit(CharAt(src, j))
      && (r.Ok? <==> num.parse(text).Some?)
      && (r.Ok? ==> r.value == ([NumberF64(num.parse(text).value)], j, line))
      && (r.Err? ==> r.error == ("Unable to parse f64 " + text, line))
  {
    assert SkipDigits(src, start) == SkipDigits(src, start + 1);
  }

  /** `4.123-123.123`: two decimals around a minus. */
  lemma LexDecimals(num: Numerics, src: string)
    requires src == "4.123-123.123"
    requires num.parse("4.123") == Some(4.123) && num.parse("123.123") == Some(123.123)
    ensures Lexed(num, src) == Ok([NumberF64(4.123), BinOp(LexerTypes.BinOp.Minus), NumberF64(123.123), EOF])
  {
    assert SkipDigits(src, 5) == 5;
    assert SkipDigits(src, 1) == 1 && SkipDigits(src, 2) == 5 && src[0..5] == "4.123";
    assert Step(num, src, 0, 0) == Ok(([NumberF64(4.123)], 5, 0));
    ScanStep(num, src, 0, 0, [], [NumberF64(4.123)], 5, 0);
    assert Step(num, src, 5, 0) == Ok(([BinOp(LexerTypes.BinOp.Minus)], 6, 0));
    ScanStep(num, src, 5, 0, [NumberF64(4.123)], [BinOp(LexerTypes.BinOp.Minus)], 6, 0);
    assert SkipDigits(src, 13) == 13;
    assert SkipDigits(src, 9) == 9 && SkipDigits(src, 8) == 9 && SkipDigits(src, 7) == 9;
    assert SkipDigits(src, 12) == 13 && SkipDigits(src, 11) == 13 && SkipDigits(src, 10) == 13;
    assert src[6..13] == "123.123";
    assert Step(num, src, 6, 0) == Ok(([NumberF64(123.123)], 13, 0));
    var acc := [NumberF64(4.123), BinOp(LexerTypes.BinOp.Minus)];
    assert [] + [NumberF64(4.123)] + [BinOp(LexerTypes.BinOp.Minus)] == acc;
    ScanStep(num, src, 6, 0, acc, [NumberF64(123.123)], 13, 0);
    assert |src| == 13;
    ScanDone(num, src, 0, acc + [NumberF64(123.123)]);
    assert acc + [NumberF64(123.123)] + [EOF] == [NumberF64(4.123), BinOp(LexerTypes.BinOp.Minus), NumberF64(123.123), EOF];
  }

  // ---------------------------------------------------------------- the scanner object

  /** `Lexer`: the text, where the current lexeme started, the cursor, the line counter and
      the tokens emitted so far. */
  class Lexer {
    const src: string
    const num: Numerics
    var start: nat
    var current: nat
    var line: nat
    var tokens: seq<Token>

    constructor (source: string, numerics: Numerics)
      ensures src == source && num == numerics
      ensures start == 0 && current == 0 && line == 0 && tokens == []
    {
      src := source;
      num := numerics;
      start := 0;
      current := 0;
      line := 0;
      tokens := [];
    }

    method IsAtEnd() returns (b: bool)
      ensures b <==> current >= |src|
    {
      return current >= |src|;
    }

    /** `advance`: the character under the cursor, which moves on by one. */
    method Advance() returns (c: char)
      requires current < |src|
      modifies this`current
      ensures c == src[old(current)] && current == old(current) + 1
    {
      c := src[current];
      current := current + 1;
    }

    method Peek() returns (c: char)
      ensures c == CharAt(src, current)
      ensures current >= |src| ==> c == '\0'
    {
      if current < |src| {
        return src[current];
      }
      return '\0';
    }

    method PeekNext() returns (c: char)
      ensures c == CharAt(src, current + 1)
      ensures current + 1 >= |src| ==> c == '\0'
    {
      if current + 1 < |src| {
        return src[current + 1];
      }
      return '\0';
    }

    /** `matches`: consume `expected` if it is next. */
    method Matches(expected: char) returns (b: bool)
      modifies this`current
      ensures b <==> MatchAt(src, old(current), expected)
      ensures current == if b then old(current) + 1 else old(current)
    {
      if current >= |src| {
        return false;
      }
      if src[current] != expected {
        return false;
      }
      current := current + 1;
      return true;
    }

    /** The scanner's state after a lexeme, compared with the lexeme `l` the specification
        gives: the same verdict, the same tokens appended to `before`, the same cursor and
        line counter. */
    ghost predicate Follows(r: Result<(), string>, before: seq<Token>, l: Lexeme)
      reads this
    {
      match l
      case Ok(v) => r.Ok? && tokens == before + v.0 && current == v.1 && line == v.2
      case Err(e) => r.Err? && r.error == e.0 && line == e.1
    }

    /** The loop of `string`: up to the closing quote or the end, counting newlines. */
    method ToQuote()
      requires current <= |src|
      modifies this`current, this`line
      ensures current == SkipTo(src, old(current), '"')
      ensures line == old(line) + Newlines(src[old(current)..current])
    {
      while CharAt(src, current) != '"' && current < |src|
        invariant old(current) <= current <= |src|
        invariant SkipTo(src, current, '"') == SkipTo(src, old(current), '"')
        invariant line == old(line) + Newlines(src[old(current)..current])
        decreases |src| - current
      {
        NewlinesExtend(src, old(current), current);
        if CharAt(src, current) == '\n' {
          line := line + 1;
        }
        var _ := Advance();
      }
    }

    /** `string`, entered just after the opening quote. */
    method StringLit() returns (r: Result<(), string>)
      requires start < |src| && current == start + 1
      modifies this`current, this`line, this`tokens
      ensures Follows(r, old(tokens), StringAt(src, start, old(line)))
    {
      ToQuote();
      ghost var k := current;
      if current >= |src| {
        assert StringAt(src, start, old(line)) == Err(("Unterminated String: " + src[start..], line));
        return Err("Unterminated String: " + src[start..]);
      }
      assert StringAt(src, start, old(line)) == Ok(([String(src[start + 1..k])], k + 1, line));
      var _ := Advance();
      tokens := tokens + [String(src[start + 1..current - 1])];
      return Ok(());
    }

    /** The digit loops of `number`. */
    method Digits()
      requires current <= |src|
      modifies this`current
      ensures current == SkipDigits(src, old(current))
    {
      while IsDigit(CharAt(src, current))
        invariant old(current) <= current <= |src|
        invariant SkipDigits(src, current) == SkipDigits(src, old(current))
        decreases |src| - current
      {
        var _ := Advance();
      }
    }

    /** `number`, entered just after the first digit. */
    method Number() returns (r: Result<Token, string>)
      requires start < |src| && current == start + 1
      modifies this`current
      ensures var l := NumberAt(num, src, start, line);
              match l
              case Ok(v) => r.Ok? && [r.value] == v.0 && current == v.1
              case Err(e) => r.Err? && r.error == e.0
    {
      Digits();
      ghost var j1 := current;
      if CharAt(src, current) == '.' && IsDigit(CharAt(src, current + 1)) {
        var _ := Advance();
      }
      Digits();
      assert current == if CharAt(src, j1) == '.' && IsDigit(CharAt(src, j1 + 1)) then SkipDigits(src, j1 + 1) else j1;
      var text := src[start..current];
      var parsed := num.parse(text);
      if parsed.None? {
        return Err("Unable to parse f64 " + text);
      }
      return Ok(NumberF64(parsed.value));
    }

    /** `identifier`, entered just after the first letter. */
    method Identifier() returns (r: Result<(), string>)
      requires start < |src| && current == start + 1
      modifies this`current, this`tokens
      ensures r == Ok(()) && current == SkipAlnum(src, start + 1)
      ensures tokens == old(tokens) + [Keyword(Lower(src[start..current]))]
    {
      while IsAlnum(CharAt(src, current))
        invariant start + 1 <= current <= |src|
        invariant SkipAlnum(src, current) == SkipAlnum(src, start + 1)
        invariant tokens == old(tokens)
        decreases |src| - current
      {
        var _ := Advance();
      }
      assert current == SkipAlnum(src, start + 1);
      var word := Lower(src[start..current]);
      tokens := tokens + [Keyword(word)];
      return Ok(());
    }

    /** `scan_token`. */
    method ScanToken() returns (r: Result<(), string>)
      requires start == current < |src|
      modifies this`current, this`line, this`tokens
      ensures Follows(r, old(tokens), Step(num, src, old(current), old(line)))
    {
      ghost var l := Step(num, src, current, line);
      var c := Advance();
      if c in {'$', '-', '+', '*', '{', '}', '(', ')', ';'} {
        tokens := tokens + [Single(c)];
        assert l == Ok(([Single(c)], current, line));
      } else if c in {'!', '=', '<', '>'} {
        var doubled := Matches('=');
        tokens := tokens + [WithEquals(c, doubled)];
        assert l == Ok(([WithEquals(c, doubled)], current, line));
      } else if c == '|' || c == '&' {
        var doubled := Matches(c);
        if !doubled {
          return Err(if c == '|' then "| must be followed by ||" else "| must be followed by &");
        }
        tokens := tokens + [LogicalOp(if c == '|' then LexerTypes.LogicalOp.Or else LexerTypes.LogicalOp.And)];
        assert l.Ok? && l.value.0 == [LogicalOp(if c == '|' then LexerTypes.LogicalOp.Or else LexerTypes.LogicalOp.And)];
      } else if c == '/' {
        var comment := Matches('/');
        if comment {
          SkipComment();
          assert l == Ok(([], current, line));
        } else {
          tokens := tokens + [BinOp(LexerTypes.BinOp.Slash)];
          assert l == Ok(([BinOp(LexerTypes.BinOp.Slash)], current, line));
        }
      } else if c == '"' {
        r := StringLit();
        return;
      } else if c == '\r' || c == '\t' || c == ' ' {
        assert l == Ok(([], current, line));
      } else if c == '\n' {
        line := line + 1;
        assert l == Ok(([], current, line));
      } else if IsDigit(c) {
        var n := Number();
        if n.Err? {
          return Err(n.error);
        }
        assert NumberAt(num, src, start, line).Ok?;
        tokens := tokens + [n.value];
        assert l == Ok(([n.value], current, line));
      } else if IsAlpha(c) {
        r := Identifier();
        return;
      } else {
        return Err("Unexpected token::: `" + [c] + "`");
      }
      return Ok(());
    }

    /** The loop that skips a `//` comment up to the end of its line. */
    method SkipComment()
      requires current <= |src|
      modifies this`current
      ensures current == SkipTo(src, old(current), '\n')
    {
      ghost var from := current;
      while CharAt(src, current) != '\n' && current < |src|
        invariant from <= current <= |src|
        invariant SkipTo(src, current, '\n') == SkipTo(src, from, '\n')
        decreases |src| - current
      {
        var _ := Advance();
      }
    }

    /** `scan_tokens`: lexemes until the end of the text, then EOF. */
    method ScanTokens() returns (r: Result<seq<Token>, (string, nat)>)
      requires start == current <= |src|
      modifies this`start, this`current, this`line, this`tokens
      ensures r == Scan(num, src, old(current), old(line), old(tokens))
    {
      while current < |src|
        invariant start == current <= |src|
        invariant Scan(num, src, current, line, tokens) == Scan(num, src, old(current), old(line), old(tokens))
        decreases |src| - current
      {
        var scanned := ScanToken();
        if scanned.Err? {
          return Err((scanned.error, line));
        }
        start := current;
      }
      tokens := tokens + [EOF];
      return Ok(tokens);
    }
  }

  /** `lex`: a fresh scanner over the whole text. */
  method Lex(num: Numerics, src: string) returns (r: Result<seq<Token>, (string, nat)>)
    ensures r == Lexed(num, src)
  {
    var lexer := new Lexer(src, num);
    r := lexer.ScanTokens();
  }
}
