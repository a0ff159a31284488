/** The token vocabulary of src/lexer/token.rs together with the operator `from_str`
    functions the lexer relies on. The lexer and both later parsers match a flat
    arithmetic operator (`Arithmetic::Plus`, `Minus`, `Multiply`, `Divide`) that
    src/common/operator.rs, which splits `Arithmetic` into `Unary` and `Binary` kinds, does not
    define; this module carries that flat form. */
module Tokens {
  import opened Wrappers
  import K = Keywords
  import O = Operators

  datatype ArithmeticOp = Plus | Minus | Multiply | Divide

  /** `Resume` and `Yield` are matched by the current parser; the keyword file that
      declares them is not part of this model. */
  datatype CoroutineControl = Resume | Yield

  datatype TokenKind =
    | Identifier(name: string)
    | StringLiteral(text: string)
    | NumberLiteral(digits: string)
    | BoolLiteral(boolean: K.BoolKeyword)
    | ArithmeticOperator(arith: ArithmeticOp)
    | CompareOperator(comparison: O.Comparison)
    | LogicalOperator(logical: O.Logical)
    | LParen | RParen | LBrace | RBrace | Equal | Colon | Semicolon | Comma | Dot | RArrow
    | ControlKeyword(control: K.ControlKeyword)
    | DeclarationKeyword(declaration: K.DeclarationKeyword)
    | TypeName(typeName: K.TypeName)
    | LoopControl(loopControl: K.LoopControl)
    | FunctionControl(functionControl: K.FunctionControl)
    | CoroutineControlKeyword(coroutine: CoroutineControl)
    | EOF
    | DocComment(doc: string)
    | Comment

  /** Rows and columns are `u32` in the source; here they are unbounded. */
  datatype Token = Token(kind: TokenKind, row: nat, col: nat)

  function ArithmeticFromStr(s: string): Option<ArithmeticOp> {
    match s
    case "+" => Some(Plus)
    case "-" => Some(Minus)
    case "*" => Some(Multiply)
    case "/" => Some(Divide)
    case _ => None
  }

  function ArithmeticToString(op: ArithmeticOp): string {
    match op
    case Plus => "+"
    case Minus => "-"
    case Multiply => "*"
    case Divide => "/"
  }

  function ComparisonFromStr(s: string): Option<O.Comparison> {
    match s
    case "==" => Some(O.Equal)
    case "!=" => Some(O.NotEqual)
    case ">" => Some(O.Greater)
    case "<" => Some(O.Less)
    case ">=" => Some(O.GreaterEqual)
    case "<=" => Some(O.LessEqual)
    case _ => None
  }

  function LogicalFromStr(s: string): Option<O.Logical> {
    match s
    case "or" => Some(O.BinaryLogic(O.Or))
    case "and" => Some(O.BinaryLogic(O.And))
    case "xor" => Some(O.BinaryLogic(O.Xor))
    case "not" => Some(O.UnaryLogic(O.Not))
    case _ => None
  }

  function CoroutineControlToString(k: CoroutineControl): string {
    match k
    case Resume => "resume"
    case Yield => "yield"
  }

  function TokenToString(kind: TokenKind): string {
    match kind
    case Identifier(s) => s
    case BoolLiteral(b) => K.BoolToString(b)
    case NumberLiteral(s) => s
    case StringLiteral(s) => s
    case ArithmeticOperator(op) => ArithmeticToString(op)
    case CompareOperator(op) => O.ComparisonToString(op)
    case LogicalOperator(op) => O.LogicalToString(op)
    case Colon => ":"
    case Comma => ","
    case LBrace => "{"
    case LParen => "("
    case Equal => "="
    case RBrace => "}"
    case RParen => ")"
    case Semicolon => ";"
    case Dot => "."
    case RArrow => "->"
    case ControlKeyword(k) => K.ControlToString(k)
    case TypeName(t) => K.TypeNameToString(t)
    case DeclarationKeyword(k) => K.DeclarationToString(k)
    case LoopControl(k) => K.LoopControlToString(k)
    case FunctionControl(k) => K.FunctionControlToString(k)
    case CoroutineControlKeyword(k) => CoroutineControlToString(k)
    case EOF => "EOF"
    case Comment => ""
    case DocComment(_) => ""
  }

  /** The operator spellings and the flat arithmetic printing are mutually inverse. */
  lemma OperatorFromStrRoundTrip(s: string, a: ArithmeticOp, c: O.Comparison, l: O.Logical)
    ensures ArithmeticFromStr(s) == Some(a) <==> ArithmeticToString(a) == s
    ensures ComparisonFromStr(s) == Some(c) <==> O.ComparisonToString(c) == s
    ensures LogicalFromStr(s) == Some(l) <==> O.LogicalToString(l) == s
  {
    match l
    case UnaryLogic(Not) =>
    case BinaryLogic(b) =>
  }

  /** Printing a token: payload-carrying kinds print their payload unchanged, keyword,
      boolean and operator kinds print a spelling that their family's `from_str` maps back
      to the same component, punctuation prints a single character and comments nothing. */
  lemma TokenToStringSpec(kind: TokenKind)
    ensures kind.Identifier? || kind.NumberLiteral? || kind.StringLiteral? ==>
      TokenToString(kind) == (if kind.Identifier? then kind.name
                              else if kind.NumberLiteral? then kind.digits else kind.text)
    ensures kind.BoolLiteral? ==> K.BoolFromStr(TokenToString(kind)) == Some(kind.boolean)
    ensures kind.ControlKeyword? ==> K.ControlFromStr(TokenToString(kind)) == Some(kind.control)
    ensures kind.DeclarationKeyword? ==>
      K.DeclarationFromStr(TokenToString(kind)) == Some(kind.declaration)
    ensures kind.TypeName? ==> K.TypeNameFromStr(TokenToString(kind)) == Some(kind.typeName)
    ensures kind.LoopControl? ==>
      K.LoopControlFromStr(TokenToString(kind)) == Some(kind.loopControl)
    ensures kind.FunctionControl? ==>
      K.FunctionControlFromStr(TokenToString(kind)) == Some(kind.functionControl)
    ensures kind.ArithmeticOperator? ==> ArithmeticFromStr(TokenToString(kind)) == Some(kind.arith)
    ensures kind.CompareOperator? ==>
      ComparisonFromStr(TokenToString(kind)) == Some(kind.comparison)
    ensures kind.LogicalOperator? ==> LogicalFromStr(TokenToString(kind)) == Some(kind.logical)
    ensures kind in {LParen, RParen, LBrace, RBrace, Equal, Colon, Semicolon, Comma, Dot} ==>
      |TokenToString(kind)| == 1
    ensures kind.RArrow? ==> TokenToString(kind) == "->"
    ensures kind.EOF? ==> TokenToString(kind) == "EOF"
    ensures kind.Comment? || kind.DocComment? ==> TokenToString(kind) == ""
  {
    match kind
    case LogicalOperator(l) => OperatorFromStrRoundTrip(TokenToString(kind), Plus, O.Equal, l);
    case FunctionControl(Return) =>
    case _ =>
  }
}
