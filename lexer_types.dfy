// The token kinds of the lexer's type declarations. These declarations are older than the
// scanner: they have no braces, parentheses, `=`, identifiers or keywords. They are kept
// here as written; the tokens the scanner actually emits are declared with the scanner.

module LexerTypes {
  import opened Wrappers

  datatype BinOp = Minus | Plus | Slash | Star | Greater | GreaterEq | Less | LessEq | BangEq | EqEq

  datatype LogicalOp = And | Or

  datatype Token =
    | Column(index: nat)
    | BinOp(binOp: BinOp)
    | LogicalOp(logicalOp: LogicalOp)
    | Bang
    | String(text: string)
    | Number(number: real)
    | False
    | True
    | EOF

  datatype TokenType =
    | Minus | Plus | Slash | Star | Bang | BangEq | EqEq | Greater | GreaterEq | Less | LessEq
    | String | Number | And | Or | False | True | EOF | Column

  /** `Token::ttype`: the kind of a token, whatever its payload. */
  function Ttype(t: Token): (k: TokenType)
    ensures t.String? ==> k == TokenType.String
    ensures t.Number? ==> k == TokenType.Number
    ensures t.Column? ==> k == TokenType.Column
  {
    match t
    case BinOp(op) =>
      (match op
       case Minus => TokenType.Minus
       case Plus => TokenType.Plus
       case Slash => TokenType.Slash
       case Star => TokenType.Star
       case Greater => TokenType.Greater
       case GreaterEq => TokenType.GreaterEq
       case Less => TokenType.Less
       case LessEq => TokenType.LessEq
       case BangEq => TokenType.BangEq
       case EqEq => TokenType.EqEq)
    case LogicalOp(op) => if op == LogicalOp.And then TokenType.And else TokenType.Or
    case Bang => TokenType.Bang
    case String(_) => TokenType.String
    case Number(_) => TokenType.Number
    case False => TokenType.False
    case True => TokenType.True
    case EOF => TokenType.EOF
    case Column(_) => TokenType.Column
  }

  /** `TokenType::name`: the variant's own name. */
  function Name(k: TokenType): string
  {
    match k
    case Minus => "Minus"
    case Plus => "Plus"
    case Slash => "Slash"
    case Star => "Star"
    case Bang => "Bang"
    case EqEq => "EqEq"
    case Greater => "Greater"
    case GreaterEq => "GreaterEq"
    case Less => "Less"
    case LessEq => "LessEq"
    case String => "String"
    case Number => "Number"
    case And => "And"
    case Or => "Or"
    case False => "False"
    case True => "True"
    case EOF => "EOF"
    case BangEq => "BangEq"
    case Column => "Column"
  }

  /** The operator variants' own names, as the enum declares them. */
  function BinOpName(op: BinOp): string
  {
    match op
    case Minus => "Minus"
    case Plus => "Plus"
    case Slash => "Slash"
    case Star => "Star"
    case Greater => "Greater"
    case GreaterEq => "GreaterEq"
    case Less => "Less"
    case LessEq => "LessEq"
    case BangEq => "BangEq"
    case EqEq => "EqEq"
  }

  /** The kind a name spells, if any. */
  function FromName(s: string): Option<TokenType>
  {
    if s == "Minus" then Some(TokenType.Minus)
    else if s == "Plus" then Some(TokenType.Plus)
    else if s == "Slash" then Some(TokenType.Slash)
    else if s == "Star" then Some(TokenType.Star)
    else if s == "Bang" then Some(TokenType.Bang)
    else if s == "EqEq" then Some(TokenType.EqEq)
    else if s == "Greater" then Some(TokenType.Greater)
    else if s == "GreaterEq" then Some(TokenType.GreaterEq)
    else if s == "Less" then Some(TokenType.Less)
    else if s == "LessEq" then Some(TokenType.LessEq)
    else if s == "String" then Some(TokenType.String)
    else if s == "Number" then Some(TokenType.Number)
    else if s == "And" then Some(TokenType.And)
    else if s == "Or" then Some(TokenType.Or)
    else if s == "False" then Some(TokenType.False)
    else if s == "True" then Some(TokenType.True)
    else if s == "EOF" then Some(TokenType.EOF)
    else if s == "BangEq" then Some(TokenType.BangEq)
    else if s == "Column" then Some(TokenType.Column)
    else None
  }

  /** Reading a name back gives the kind it names. */
  lemma NameRoundTrip(k: TokenType)
    ensures FromName(Name(k)) == Some(k)
  {
  }

  /** Distinct kinds have distinct names. */
  lemma NamesDistinct(a: TokenType, b: TokenType)
    ensures Name(a) == Name(b) ==> a == b
  {
    NameRoundTrip(a);
    NameRoundTrip(b);
  }

  /** An operator token's kind is the kind of the same name; `&&` and `||` map to And and Or. */
  lemma OperatorKinds(op: BinOp, l: LogicalOp)
    ensures Name(Ttype(Token.BinOp(op))) == BinOpName(op)
    ensures Ttype(Token.LogicalOp(l)) == if l == LogicalOp.And then TokenType.And else TokenType.Or
  {
  }
}
