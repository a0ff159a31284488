/** The fail-fast parser of src/parser/ast.rs as functions on the tokens not yet read.
    Every rule returns a `Step`: its node (or its error) together with the tokens it left,
    because `parse_compare` and `parse_primary` go on reading after a failed sub-rule and
    their result depends on where that sub-rule stopped. The block stack is a parameter:
    a nested block is parsed with its kind pushed, and on success it is popped again; after
    an error nothing is parsed any more. The `FailFastParser` class in `FailFastParsers`
    runs the same rules on a mutable iterator and block stack. */
module FailFastParsing {
  import opened Wrappers
  import opened Tokens
  import K = Keywords
  import O = Operators
  import T = Types
  import opened ErrorCodes
  import opened ErrorContexts
  import opened Decimal

  /** src/parser/node.rs does not declare the `Node` enum this parser builds; its shape is
      read off the constructors ast.rs uses. A float literal keeps the text that
      `str::parse::<f64>` reads; the `f64` itself is not computed. */
  datatype Node =
    | Block(blockType: T.BlockType, statements: seq<Node>)
    | FunctionCall(name: string, arguments: seq<Node>)
    | FunctionCallWithReturn(name: string, arguments: seq<Node>)
    | VariableAssignment(name: string, expression: Node)
    | VariableDeclaration(name: string, variableType: K.TypeName, initializer: Option<Node>)
    | ReturnStatement(assignable: Node)
    | Break
    | Continue
    | IfStatement(condition: Node, thenBlock: Node, elseBlock: Option<Node>)
    | LoopStatement(condition: Node, block: Node)
    | FunctionDefinition(name: string, parameters: seq<Node>, block: Node)
    | Logical(logical: O.Logical, left: Node, right: Option<Node>)
    | Compare(comparison: O.Comparison, left: Node, compared: Node)
    | Arithmetic(arithmetic: ArithmeticOp, left: Node, right: Option<Node>)
    | Variable(name: string)
    | Literal(value: T.LiteralValue)
    | FloatLiteral(numeral: string)

  /** An error before the message templates render it, or the endless recursion of
      `parse_not_expr`, which calls `parse_expression` without consuming `not`. */
  datatype Failure = Reported(context: ErrorContext<ErrorCode>) | Diverges

  /** A located error at token `t`. */
  function At(code: ErrorCode, t: Token, params: seq<(string, string)>): Failure {
    Reported(ErrorContext(code, Some(t.row), Some(t.col), params))
  }

  /** Parse002 naming the token's text, the error of every unexpected token. */
  function Unexpected(t: Token): Failure {
    At(Parse002, t, [("token", TokenToString(t.kind))])
  }

  /** Parse003, reported without a location when the iterator is exhausted. */
  const Exhausted: Failure := Reported(ErrorContext(Parse003, None, None, []))

  /** A rule's result and the tokens it left, whether it succeeded or not; `:-` on a step
      propagates the error together with the tokens left at that point. */
  datatype Step<+R> = Step(result: Result<R, Failure>, rest: seq<Token>) {
    predicate IsFailure() { result.Err? }

    function PropagateFailure<U>(): Step<U>
      requires result.Err?
    {
      Step(Err(result.error), rest)
    }

    function Extract(): (R, seq<Token>)
      requires result.Ok?
    {
      (result.value, rest)
    }
  }

  /** How `parse_mul_and_div` reads its right operand: as written it takes one more token
      after the operator and drops it; the evident intent keeps it. */
  datatype Multiplicative = SkipsNext | KeepsNext

  /** The codes an expression can report: Parse002 to Parse005. */
  predicate ExpressionCode(f: Failure) {
    f.Reported? && f.context.errorCode in {Parse002, Parse003, Parse004, Parse005}
  }

  /** What the iterator yields after one `next`. */
  function Tail(ts: seq<Token>): (r: seq<Token>)
    ensures |r| == if ts == [] then 0 else |ts| - 1
  {
    if ts == [] then [] else ts[1..]
  }

  /** `peek_token`: the next token, or Parse003 when there is none. */
  function PeekToken(ts: seq<Token>): (r: Result<Token, Failure>)
    ensures r.Ok? <==> ts != []
    ensures r.Ok? ==> r.value == ts[0]
    ensures r.Err? ==> r.error == Exhausted
  {
    if ts == [] then Err(Exhausted) else Ok(ts[0])
  }

  /** `next_token`: consumes one token if there is one; Parse003 otherwise. */
  function NextToken(ts: seq<Token>): (s: Step<Token>)
    ensures s.rest == Tail(ts)
    ensures s.result.Ok? <==> ts != []
    ensures s.result.Ok? ==> s.result.value == ts[0]
    ensures s.result.Err? ==> s.result.error == Exhausted
  {
    if ts == [] then Step(Err(Exhausted), ts) else Step(Ok(ts[0]), ts[1..])
  }

  /** `check_next_token`: always consumes the next token, matching or not; a mismatch is
      Parse005 at that token naming its text, no token at all is Parse003. */
  function CheckNextToken(ts: seq<Token>, kind: TokenKind): (s: Step<Token>)
    ensures s.rest == Tail(ts)
    ensures s.result.Ok? <==> ts != [] && ts[0].kind == kind
    ensures s.result.Ok? ==> s.result.value == ts[0]
    ensures ts == [] ==> s.result == Err(Exhausted)
    ensures ts != [] && ts[0].kind != kind ==>
              s.result == Err(At(Parse005, ts[0], [("token", TokenToString(ts[0].kind))]))
  {
    if ts == [] then Step(Err(Exhausted), ts)
    else if ts[0].kind == kind then Step(Ok(ts[0]), ts[1..])
    else Step(Err(At(Parse005, ts[0], [("token", TokenToString(ts[0].kind))])), ts[1..])
  }

  /** `peek_n`: the token `n` places after the next one, without consuming anything. */
  function PeekN(ts: seq<Token>, n: nat): (r: Result<Token, Failure>)
    ensures r.Ok? <==> n < |ts|
    ensures r.Ok? ==> r.value == ts[n]
  {
    if n < |ts| then Ok(ts[n]) else Err(Exhausted)
  }

  // ----- literals and variables -----

  /** `parse_literal`. An integer is i32 or Parse004; one the tokens end right after is
      Parse003, because the source peeks for a `.` behind it. */
  function LiteralExpr(ts: seq<Token>): (s: Step<Node>)
    ensures |s.rest| < |ts| || ts == []
    ensures s.result.Err? ==> ExpressionCode(s.result.error)
    ensures s.result.Ok? ==> ts != [] && (ts[0].kind.StringLiteral? || ts[0].kind.BoolLiteral?
                                         || ts[0].kind.NumberLiteral?)
    ensures ts != [] && ts[0].kind.BoolLiteral? ==>
              s == Step(Ok(Literal(T.BoolValue(ts[0].kind.boolean == K.True))), ts[1..])
    ensures ts != [] && ts[0].kind.StringLiteral? ==>
              s == Step(Ok(Literal(T.StringValue(ts[0].kind.text))), ts[1..])
    ensures ts != [] && ts[0].kind.NumberLiteral? && ParseI32(ts[0].kind.digits).None? ==>
              s == Step(Err(At(Parse004, ts[0], [("number", ts[0].kind.digits)])), ts[1..])
    ensures s.result.Ok? && s.result.value.Literal? && s.result.value.value.IntValue? ==>
              ParseI32(ts[0].kind.digits) == Some(s.result.value.value.i)
  {
    if ts == [] then Step(Err(Exhausted), ts)
    else
      var t := ts[0];
      var rest := ts[1..];
      match t.kind
      case StringLiteral(v) => Step(Ok(Literal(T.StringValue(v))), rest)
      case BoolLiteral(b) => Step(Ok(Literal(T.BoolValue(b == K.True))), rest)
      case NumberLiteral(integer) =>
        (match ParseI32(integer)
         case None => Step(Err(At(Parse004, t, [("number", integer)])), rest)
         case Some(i) =>
           if rest == [] then Step(Err(Exhausted), rest)
           else if rest[0].kind != Dot then Step(Ok(Literal(T.IntValue(i))), rest)
           else FloatTail(integer + ".", rest[1..]))
      case _ => Step(Err(Unexpected(t)), rest)
  }

  /** The float branch of `parse_literal`, after `integer.`: the next token must be a
      numeral that completes a float; otherwise Parse004 at that token. */
  function FloatTail(numberString: string, ts: seq<Token>): (s: Step<Node>)
    ensures s.rest == Tail(ts)
    ensures s.result.Err? ==> ExpressionCode(s.result.error)
    ensures s.result.Ok? ==> s.result.value.FloatLiteral?
  {
    if ts == [] then Step(Err(Exhausted), ts)
    else
      var d := ts[0];
      if d.kind.NumberLiteral? && AllDigits(d.kind.digits) then
        Step(Ok(FloatLiteral(numberString + d.kind.digits)), ts[1..])
      else
        var numeral := if d.kind.NumberLiteral? then numberString + d.kind.digits else numberString;
        Step(Err(At(Parse004, d, [("number", numeral)])), ts[1..])
  }

  /** `parse_variable`. */
  function VariableExpr(ts: seq<Token>): (s: Step<Node>)
    ensures s.rest == Tail(ts)
    ensures s.result.Err? ==> ExpressionCode(s.result.error)
    ensures s.result.Ok? <==> ts != [] && ts[0].kind.Identifier?
    ensures s.result.Ok? ==> s.result.value == Variable(ts[0].kind.name)
  {
    if ts == [] then Step(Err(Exhausted), ts)
    else if ts[0].kind.Identifier? then Step(Ok(Variable(ts[0].kind.name)), ts[1..])
    else Step(Err(Unexpected(ts[0])), ts[1..])
  }

  // ----- arithmetic -----

  predicate AddOperator(ts: seq<Token>) {
    ts != [] && ts[0].kind.ArithmeticOperator? && ts[0].kind.arith in {Plus, Minus}
  }

  predicate MulOperator(ts: seq<Token>) {
    ts != [] && ts[0].kind.ArithmeticOperator? && ts[0].kind.arith in {Multiply, Divide}
  }

  /** `parse_add_and_sub`. */
  function AddSub(m: Multiplicative, ts: seq<Token>): (s: Step<Node>)
    ensures |s.rest| <= |ts|
    ensures s.result.Err? ==> ExpressionCode(s.result.error)
    decreases |ts|, 5
  {
    var left :- MulDiv(m, ts);
    AddSubLoop(m, left.0, left.1)
  }

  /** The `while let` of `parse_add_and_sub`: each `+` or `-` makes the tree so far the
      left operand. */
  function AddSubLoop(m: Multiplicative, left: Node, ts: seq<Token>): (s: Step<Node>)
    ensures |s.rest| <= |ts|
    ensures s.result.Err? ==> ExpressionCode(s.result.error)
    ensures !AddOperator(ts) ==> s == Step(Ok(left), ts)
    decreases |ts|, 4
  {
    if AddOperator(ts) then
      var right :- MulDiv(m, ts[1..]);
      AddSubLoop(m, Arithmetic(ts[0].kind.arith, left, Some(right.0)), right.1)
    else Step(Ok(left), ts)
  }

  /** The tokens the right operand of `*` or `/` is read from. */
  function Operand(m: Multiplicative, ts: seq<Token>): (r: seq<Token>)
    requires ts != []
    ensures |r| < |ts|
  {
    if m == SkipsNext then Tail(ts[1..]) else ts[1..]
  }

  /** `parse_mul_and_div`. */
  function MulDiv(m: Multiplicative, ts: seq<Token>): (s: Step<Node>)
    ensures |s.rest| <= |ts|
    ensures s.result.Err? ==> ExpressionCode(s.result.error)
    decreases |ts|, 3
  {
    var left :- UnaryExpr(m, ts);
    MulDivLoop(m, left.0, left.1)
  }

  /** The `while let` of `parse_mul_and_div`; as written, `self.tokens.next()` after the
      operator drops the token that follows it. */
  function MulDivLoop(m: Multiplicative, left: Node, ts: seq<Token>): (s: Step<Node>)
    ensures |s.rest| <= |ts|
    ensures s.result.Err? ==> ExpressionCode(s.result.error)
    ensures !MulOperator(ts) ==> s == Step(Ok(left), ts)
    decreases |ts|, 2
  {
    if MulOperator(ts) then
      var right :- UnaryExpr(m, Operand(m, ts));
      MulDivLoop(m, Arithmetic(ts[0].kind.arith, left, Some(right.0)), right.1)
    else Step(Ok(left), ts)
  }

  /** `parse_unary`: a `-` wraps its primary with no right operand; a `+` is handed to
      `parse_primary` unconsumed, which rejects it. */
  function UnaryExpr(m: Multiplicative, ts: seq<Token>): (s: Step<Node>)
    ensures |s.rest| <= |ts|
    ensures s.result.Err? ==> ExpressionCode(s.result.error)
    decreases |ts|, 1
  {
    if ts == [] then Step(Err(Exhausted), ts)
    else
      var k := ts[0].kind;
      if k.NumberLiteral? || k == LParen || k.Identifier? || k == ArithmeticOperator(Plus) then
        PrimaryExpr(m, ts)
      else if k == ArithmeticOperator(Minus) then
        var operand :- PrimaryExpr(m, ts[1..]);
        Step(Ok(Arithmetic(Minus, operand.0, None)), operand.1)
      else Step(Err(Unexpected(ts[0])), ts)
  }

  /** `parse_primary`: the closing `)` is checked before the inner expression's own
      result is looked at, so a missing `)` is reported over an inner error. */
  function PrimaryExpr(m: Multiplicative, ts: seq<Token>): (s: Step<Node>)
    ensures |s.rest| <= |ts|
    ensures s.result.Err? ==> ExpressionCode(s.result.error)
    decreases |ts|, 0
  {
    if ts == [] then Step(Err(Exhausted), ts)
    else
      var t := ts[0];
      if t.kind.NumberLiteral? then LiteralExpr(ts)
      else if t.kind == LParen then
        var inner := AddSub(m, ts[1..]);
        var close :- CheckNextToken(inner.rest, RParen);
        Step(inner.result, close.1)
      else if t.kind.Identifier? then VariableExpr(ts)
      else Step(Err(Unexpected(t)), ts)
  }

  // ----- comparison and logic -----

  /** `parse_value`. */
  function ValueExpr(ts: seq<Token>): (s: Step<Node>)
    ensures |s.rest| <= |ts|
    ensures s.result.Err? ==> ExpressionCode(s.result.error)
  {
    if ts == [] then Step(Err(Exhausted), ts)
    else
      var k := ts[0].kind;
      if k.NumberLiteral? || AddOperator(ts) || k == LParen || k.Identifier? then
        AddSub(SkipsNext, ts)
      else if k.StringLiteral? then LiteralExpr(ts)
      else Step(Err(Unexpected(ts[0])), ts)
  }

  /** `parse_compare`: the left value's error is held back until after the operator and
      the right value, so an error on the right wins over one on the left. */
  function CompareExpr(ts: seq<Token>): (s: Step<Node>)
    ensures |s.rest| <= |ts|
    ensures s.result.Err? ==> ExpressionCode(s.result.error)
  {
    var left := ValueExpr(ts);
    var rest := left.rest;
    if rest == [] then Step(Err(Exhausted), rest)
    else if !rest[0].kind.CompareOperator? then left
    else
      var right :- ValueExpr(rest[1..]);
      match left.result
      case Err(e) => Step(Err(e), right.1)
      case Ok(l) => Step(Ok(Compare(rest[0].kind.comparison, l, right.0)), right.1)
  }

  const NotToken: TokenKind := LogicalOperator(O.UnaryLogic(O.Not))
  const OrToken: TokenKind := LogicalOperator(O.BinaryLogic(O.Or))

  /** `parse_not_expr`: `not` never returns, a Bool literal is read alone, anything else
      is a comparison. */
  function NotExpr(ts: seq<Token>): (s: Step<Node>)
    ensures |s.rest| <= |ts|
    ensures s.result.Err? ==> ExpressionCode(s.result.error) || s.result.error.Diverges?
    ensures s.result == Err(Diverges) <==> ts != [] && ts[0].kind == NotToken
  {
    if ts == [] then Step(Err(Exhausted), ts)
    else if ts[0].kind == NotToken then Step(Err(Diverges), ts)
    else if ts[0].kind.BoolLiteral? then LiteralExpr(ts)
    else CompareExpr(ts)
  }

  /** A binary `and` or `xor` next: the operators `parse_and_expr` continues on. */
  predicate AndOperator(ts: seq<Token>) {
    ts != [] && ts[0].kind.LogicalOperator? && ts[0].kind.logical.BinaryLogic?
    && ts[0].kind.logical.b in {O.And, O.Xor}
  }

  /** `parse_and_expr`. */
  function AndExpr(ts: seq<Token>): (s: Step<Node>)
    ensures |s.rest| <= |ts|
    ensures s.result.Err? ==> ExpressionCode(s.result.error) || s.result.error.Diverges?
  {
    var left :- NotExpr(ts);
    AndLoop(left.0, left.1)
  }

  function AndLoop(left: Node, ts: seq<Token>): (s: Step<Node>)
    ensures |s.rest| <= |ts|
    ensures s.result.Err? ==> ExpressionCode(s.result.error) || s.result.error.Diverges?
    ensures !AndOperator(ts) ==> s == Step(Ok(left), ts)
    decreases |ts|
  {
    if AndOperator(ts) then
      var right :- NotExpr(ts[1..]);
      AndLoop(Logical(ts[0].kind.logical, left, Some(right.0)), right.1)
    else Step(Ok(left), ts)
  }

  /** `parse_or_expr`. */
  function OrExpr(ts: seq<Token>): (s: Step<Node>)
    ensures |s.rest| <= |ts|
    ensures s.result.Err? ==> ExpressionCode(s.result.error) || s.result.error.Diverges?
  {
    var left :- AndExpr(ts);
    OrLoop(left.0, left.1)
  }

  function OrLoop(left: Node, ts: seq<Token>): (s: Step<Node>)
    ensures |s.rest| <= |ts|
    ensures s.result.Err? ==> ExpressionCode(s.result.error) || s.result.error.Diverges?
    ensures !(ts != [] && ts[0].kind == OrToken) ==> s == Step(Ok(left), ts)
    decreases |ts|
  {
    if ts != [] && ts[0].kind == OrToken then
      var right :- AndExpr(ts[1..]);
      OrLoop(Logical(O.BinaryLogic(O.Or), left, Some(right.0)), right.1)
    else Step(Ok(left), ts)
  }

  /** `parse_expression` and `parse_logical`. */
  function Expression(ts: seq<Token>): (s: Step<Node>)
    ensures |s.rest| <= |ts|
    ensures s.result.Err? ==> ExpressionCode(s.result.error) || s.result.error.Diverges?
  {
    OrExpr(ts)
  }

  // ----- assignables and argument lists -----

  /** `parse_assignable`: a name directly followed by `(` is a call with a result. */
  function Assignable(ts: seq<Token>): (s: Step<Node>)
    ensures |s.rest| <= |ts|
    ensures s.result.Err? ==> ExpressionCode(s.result.error) || s.result.error.Diverges?
    decreases |ts|, 0
  {
    if ts == [] then Step(Err(Exhausted), ts)
    else
      var k := ts[0].kind;
      if k.StringLiteral? || k.NumberLiteral? || k.BoolLiteral? || AddOperator(ts) || k == LParen then
        Expression(ts)
      else if k.Identifier? then
        if |ts| < 2 then Step(Err(Exhausted), ts)
        else if ts[1].kind == LParen then
          var arguments :- Arguments(ts[2..], []);
          // The argument list stops at `)`, so this check always succeeds.
          var close := CheckNextToken(arguments.1, RParen);
          Step(Ok(FunctionCallWithReturn(k.name, arguments.0)), close.rest)
        else Expression(ts)
      else Step(Err(Unexpected(ts[0])), ts)
  }

  /** `parse_argument`: assignables separated by commas up to an unconsumed `)`; a comma
      before the `)` is accepted. */
  function Arguments(ts: seq<Token>, arguments: seq<Node>): (s: Step<seq<Node>>)
    ensures |s.rest| <= |ts|
    ensures s.result.Err? ==> ExpressionCode(s.result.error) || s.result.error.Diverges?
    ensures s.result.Ok? ==> s.rest != [] && s.rest[0].kind == RParen
    ensures s.result.Ok? ==> arguments <= s.result.value
    decreases |ts|, 1
  {
    if ts == [] then Step(Err(Exhausted), ts)
    else if ts[0].kind == RParen then Step(Ok(arguments), ts)
    else
      var argument :- Assignable(ts);
      var rest := argument.1;
      if rest == [] then Step(Err(Exhausted), rest)
      else if rest[0].kind == Comma then Arguments(rest[1..], arguments + [argument.0])
      else if rest[0].kind == RParen then Step(Ok(arguments + [argument.0]), rest)
      else Step(Err(Unexpected(rest[0])), rest)
  }

  /** The parameter loop of `parse_function_definition`: `name: type` pairs separated by
      commas up to an unconsumed `)`, each a declaration without initializer. */
  function Parameters(ts: seq<Token>, parameters: seq<Node>): (s: Step<seq<Node>>)
    ensures |s.rest| <= |ts|
    ensures s.result.Err? ==> ExpressionCode(s.result.error)
    ensures s.result.Ok? ==> s.rest != [] && s.rest[0].kind == RParen
    ensures s.result.Ok? ==> parameters <= s.result.value
    decreases |ts|
  {
    if ts == [] then Step(Err(Exhausted), ts)
    else if ts[0].kind == RParen then Step(Ok(parameters), ts)
    else if !ts[0].kind.Identifier? then Step(Err(Unexpected(ts[0])), ts[1..])
    else
      var colon :- CheckNextToken(ts[1..], Colon);
      var typeToken :- NextToken(colon.1);
      if !typeToken.0.kind.TypeName? then Step(Err(Unexpected(typeToken.0)), typeToken.1)
      else
        var declared := parameters
                        + [VariableDeclaration(ts[0].kind.name, typeToken.0.kind.typeName, None)];
        var rest := typeToken.1;
        if rest == [] then Step(Err(Exhausted), rest)
        else if rest[0].kind == Comma then Parameters(rest[1..], declared)
        else if rest[0].kind == RParen then Step(Ok(declared), rest)
        else Step(Err(Unexpected(rest[0])), rest)
  }

  // ----- statements and blocks -----

  /** The `let` arm of `parse_statement`, after `let`. A missing type is reported at the
      name token, as written. */
  function Declaration(ts: seq<Token>): (s: Step<Node>)
    ensures |s.rest| < |ts| || ts == []
    ensures s.result.Err? ==> ExpressionCode(s.result.error) || s.result.error.Diverges?
  {
    var nameToken :- NextToken(ts);
    if !nameToken.0.kind.Identifier? then
      Step(Err(At(Parse005, nameToken.0, [("token", "変数名")])), nameToken.1)
    else
      var colon :- CheckNextToken(nameToken.1, Colon);
      var typeToken :- NextToken(colon.1);
      if !typeToken.0.kind.TypeName? then
        Step(Err(At(Parse005, nameToken.0, [("token", "型")])), typeToken.1)
      else
        var name := nameToken.0.kind.name;
        var variableType := typeToken.0.kind.typeName;
        var after :- NextToken(typeToken.1);
        if after.0.kind == Semicolon then
          Step(Ok(VariableDeclaration(name, variableType, None)), after.1)
        else if after.0.kind == Equal then
          var initializer :- Assignable(after.1);
          var semicolon :- CheckNextToken(initializer.1, Semicolon);
          Step(Ok(VariableDeclaration(name, variableType, Some(initializer.0))), semicolon.1)
        else Step(Err(At(Parse005, after.0, [("token", ";")])), after.1)
  }

  /** Where the source lets a statement stand, for a statement parsed with `stack` as the
      block stack: `return` inside a function, `break` and `continue` inside a loop, a
      function definition only directly in the global block; nested blocks are placed
      with their own kind pushed. */
  predicate Placed(n: Node, stack: seq<T.BlockType>)
    decreases n, 1
  {
    match n
    case ReturnStatement(_) => T.Function in stack
    case Break => T.Loop in stack
    case Continue => T.Loop in stack
    case FunctionDefinition(_, _, block) =>
      AtGlobalLevel(stack) && BlockPlaced(block, stack + [T.Function])
    case IfStatement(_, thenBlock, elseBlock) =>
      BlockPlaced(thenBlock, stack + [T.Conditional])
      && (elseBlock.Some? ==> BlockPlaced(elseBlock.value, stack + [T.Conditional]))
    case LoopStatement(_, block) => BlockPlaced(block, stack + [T.Loop])
    case _ => true
  }

  /** A block whose statements are all placed, `stack` already holding the block's kind. */
  predicate BlockPlaced(b: Node, stack: seq<T.BlockType>)
    decreases b, 0
  {
    b.Block? && forall s <- b.statements :: Placed(s, stack)
  }

  /** `parse_statements`: a global block ends at EOF, which it consumes; any other block
      ends before `}`, which it leaves, or at a consumed EOF. */
  function Statements(ts: seq<Token>, stack: seq<T.BlockType>, blockType: T.BlockType): (s: Step<Node>)
    ensures |s.rest| <= |ts|
    ensures s.result.Ok? ==> s.result.value.Block? && s.result.value.blockType == blockType
    ensures s.result.Ok? ==> BlockPlaced(s.result.value, stack)
    decreases |ts|, 3
  {
    StatementsLoop(ts, stack, blockType, [])
  }

  /** A token that ends a block of this kind without being consumed. */
  predicate BlockEnd(ts: seq<Token>, blockType: T.BlockType) {
    ts != [] && blockType != T.Global && ts[0].kind == RBrace
  }

  function StatementsLoop(ts: seq<Token>, stack: seq<T.BlockType>, blockType: T.BlockType,
                          children: seq<Node>): (s: Step<Node>)
    ensures |s.rest| <= |ts|
    ensures s.result.Ok? ==> s.result.value.Block? && s.result.value.blockType == blockType
    ensures s.result.Ok? ==> children <= s.result.value.statements
    ensures s.result.Ok? && (forall c <- children :: Placed(c, stack)) ==>
              BlockPlaced(s.result.value, stack)
    decreases |ts|, 2
  {
    if ts == [] || BlockEnd(ts, blockType) then Step(Ok(Block(blockType, children)), ts)
    else if ts[0].kind == EOF then Step(Ok(Block(blockType, children)), ts[1..])
    else
      var statement :- Statement(ts, stack);
      StatementsLoop(statement.1, stack, blockType, children + [statement.0])
  }

  /** The identifier arm of `parse_statement`, after the name: a call statement when `(`
      follows, an assignment when `=` follows. */
  function CallOrAssignment(name: string, ts: seq<Token>): (s: Step<Node>)
    ensures |s.rest| < |ts| || ts == []
    ensures s.result.Ok? ==> s.result.value.FunctionCall? || s.result.value.VariableAssignment?
  {
    var after :- NextToken(ts);
    if after.0.kind == LParen then
      var arguments :- Arguments(after.1, []);
      // The argument list stops at `)`, so this check always succeeds.
      var close := CheckNextToken(arguments.1, RParen);
      var semicolon :- CheckNextToken(close.rest, Semicolon);
      Step(Ok(FunctionCall(name, arguments.0)), semicolon.1)
    else if after.0.kind == Equal then
      var expression :- Expression(after.1);
      var semicolon :- CheckNextToken(expression.1, Semicolon);
      Step(Ok(VariableAssignment(name, expression.0)), semicolon.1)
    else Step(Err(Unexpected(after.0)), after.1)
  }

  /** `parse_statement` on the peeked token `ts[0]`. */
  function Statement(ts: seq<Token>, stack: seq<T.BlockType>): (s: Step<Node>)
    requires ts != []
    ensures |s.rest| <= |ts|
    ensures s.result.Ok? ==> |s.rest| < |ts|
    ensures s.result.Ok? ==> Placed(s.result.value, stack)
    decreases |ts|, 1
  {
    var t := ts[0];
    match t.kind
    case Identifier(name) => CallOrAssignment(name, ts[1..])
    case ControlKeyword(keyword) =>
      if keyword == K.If then IfElse(ts, stack)
      else if keyword == K.While then While(ts, stack)
      else Step(Err(At(Parse002, t, [("token", K.ControlToString(keyword))])), ts)
    case DeclarationKeyword(keyword) =>
      if keyword == K.Let then Declaration(ts[1..]) else Definition(ts, stack)
    case FunctionControl(keyword) => Return(ts, keyword, stack)
    case LoopControl(keyword) => Jump(ts, keyword, stack)
    case _ => Step(Err(Unexpected(t)), ts)
  }

  /** The `return` arm of `parse_statement`: only inside a function. */
  function Return(ts: seq<Token>, keyword: K.FunctionControl, stack: seq<T.BlockType>): (s: Step<Node>)
    requires ts != []
    ensures |s.rest| <= |ts|
    ensures s.result.Ok? ==> |s.rest| < |ts| && s.result.value.ReturnStatement? && T.Function in stack
  {
    if T.Function !in stack then
      Step(Err(At(Parse006, ts[0], [("statement", K.FunctionControlToString(keyword)),
                                    ("block", "function")])), ts)
    else
      var value :- Assignable(ts[1..]);
      var semicolon :- CheckNextToken(value.1, Semicolon);
      Step(Ok(ReturnStatement(value.0)), semicolon.1)
  }

  /** The `break`/`continue` arm of `parse_statement`: only inside a loop. */
  function Jump(ts: seq<Token>, keyword: K.LoopControl, stack: seq<T.BlockType>): (s: Step<Node>)
    requires ts != []
    ensures |s.rest| <= |ts|
    ensures s.result.Ok? ==> |s.rest| < |ts| && (s.result.value.Break? || s.result.value.Continue?)
    ensures s.result.Ok? ==> T.Loop in stack
  {
    if T.Loop !in stack then
      Step(Err(At(Parse006, ts[0], [("statement", K.LoopControlToString(keyword)),
                                    ("block", "loop")])), ts)
    else
      var semicolon :- CheckNextToken(ts[1..], Semicolon);
      Step(Ok(if keyword == K.Break then Break else Continue), semicolon.1)
  }

  /** The `(`, condition and `)` that `parse_if_statement` and `parse_loop_statement` read
      after their keyword. */
  function Condition(ts: seq<Token>): (s: Step<Node>)
    ensures |s.rest| <= |ts|
    ensures s.result.Ok? ==> |s.rest| < |ts|
  {
    var open :- CheckNextToken(ts, LParen);
    var condition :- Expression(open.1);
    var close :- CheckNextToken(condition.1, RParen);
    Step(Ok(condition.0), close.1)
  }

  /** The `{`, statements and `}` of a conditional or loop block: the statements are read
      with the block's kind pushed on the stack. */
  function Body(ts: seq<Token>, stack: seq<T.BlockType>, blockType: T.BlockType): (s: Step<Node>)
    ensures |s.rest| <= |ts|
    ensures s.result.Ok? ==> |s.rest| < |ts|
    ensures s.result.Ok? ==> s.result.value.Block? && s.result.value.blockType == blockType
    ensures s.result.Ok? ==> BlockPlaced(s.result.value, stack + [blockType])
    decreases |ts|, 0
  {
    var brace :- CheckNextToken(ts, LBrace);
    var block :- Statements(brace.1, stack + [blockType], blockType);
    var blockEnd :- CheckNextToken(block.1, RBrace);
    Step(Ok(block.0), blockEnd.1)
  }

  /** `parse_if_statement`, from the `if` token: the else branch is read exactly when
      `else` follows the then-block's `}`. */
  function IfElse(ts: seq<Token>, stack: seq<T.BlockType>): (s: Step<Node>)
    requires ts != []
    ensures |s.rest| < |ts|
    ensures s.result.Ok? ==> s.result.value.IfStatement?
    ensures s.result.Ok? ==> Placed(s.result.value, stack)
    decreases |ts|, 0
  {
    var condition :- Condition(ts[1..]);
    var thenBlock :- Body(condition.1, stack, T.Conditional);
    var elseBlock :- ElseBranch(thenBlock.1, stack);
    Step(Ok(IfStatement(condition.0, thenBlock.0, elseBlock.0)), elseBlock.1)
  }

  predicate ElseFollows(ts: seq<Token>) {
    ts != [] && ts[0].kind == ControlKeyword(K.Else)
  }

  /** The `match self.tokens.peek()` after the then-block: an else branch exactly when
      `else` comes next, nothing read otherwise. */
  function ElseBranch(ts: seq<Token>, stack: seq<T.BlockType>): (s: Step<Option<Node>>)
    ensures |s.rest| <= |ts|
    ensures s.result.Ok? ==> (s.result.value.Some? <==> ElseFollows(ts))
    ensures !ElseFollows(ts) ==> s == Step(Ok(None), ts)
    ensures s.result.Ok? && s.result.value.Some? ==>
              BlockPlaced(s.result.value.value, stack + [T.Conditional])
    decreases |ts|, 0
  {
    if ElseFollows(ts) then
      var elseBlock :- Body(ts[1..], stack, T.Conditional);
      Step(Ok(Some(elseBlock.0)), elseBlock.1)
    else
      Step(Ok(None), ts)
  }

  /** `parse_loop_statement`, from the `while` token. */
  function While(ts: seq<Token>, stack: seq<T.BlockType>): (s: Step<Node>)
    requires ts != []
    ensures |s.rest| < |ts|
    ensures s.result.Ok? ==> Placed(s.result.value, stack)
    decreases |ts|, 0
  {
    var condition :- Condition(ts[1..]);
    var block :- Body(condition.1, stack, T.Loop);
    Step(Ok(LoopStatement(condition.0, block.0)), block.1)
  }

  /** The innermost block is the global one. */
  predicate AtGlobalLevel(stack: seq<T.BlockType>) {
    stack != [] && stack[|stack| - 1] == T.Global
  }

  /** `parse_function_definition`, from the `function` token. */
  function Definition(ts: seq<Token>, stack: seq<T.BlockType>): (s: Step<Node>)
    requires ts != []
    ensures |s.rest| < |ts|
    ensures s.result.Ok? ==> Placed(s.result.value, stack)
    decreases |ts|, 0
  {
    if !AtGlobalLevel(stack) then
      Step(Err(At(Parse006, ts[0], [("statement", "function"), ("block", "global_block")])), ts[1..])
    else
      var nameToken :- NextToken(ts[1..]);
      if !nameToken.0.kind.Identifier? then
        Step(Err(At(Parse005, nameToken.0, [("token", "関数名")])), nameToken.1)
      else
        var open :- CheckNextToken(nameToken.1, LParen);
        DefinitionBlock(nameToken.0.kind.name, Parameters(open.1, []), stack)
  }

  /** The rest of `parse_function_definition` once the parameter loop has ended: the
      closing `)` (which the loop stopped at), then the function's block. */
  function DefinitionBlock(name: string, parameters: Step<seq<Node>>, stack: seq<T.BlockType>): (s: Step<Node>)
    ensures |s.rest| <= |parameters.rest|
    ensures s.result.Ok? ==> s.result.value.FunctionDefinition? && s.result.value.name == name
    ensures s.result.Ok? ==> BlockPlaced(s.result.value.block, stack + [T.Function])
    decreases |parameters.rest|, 0
  {
    var list :- parameters;
    var close :- CheckNextToken(list.1, RParen);
    var brace :- CheckNextToken(close.1, LBrace);
    var block :- Statements(brace.1, stack + [T.Function], T.Function);
    var blockEnd :- CheckNextToken(block.1, RBrace);
    Step(Ok(FunctionDefinition(name, list.0, block.0)), blockEnd.1)
  }

  /** `parse_program`: the statements of the global block. */
  function Program(ts: seq<Token>): (s: Step<Node>)
    ensures s.result.Ok? ==> s.result.value.Block? && s.result.value.blockType == T.Global
    ensures s.result.Ok? ==> BlockPlaced(s.result.value, [T.Global])
  {
    Statements(ts, [T.Global], T.Global)
  }

  /** `parse`: the program or the first error. */
  function Parse(ts: seq<Token>): (r: Result<Node, Failure>)
    ensures r.Ok? ==> r.value.Block? && r.value.blockType == T.Global
    ensures r.Ok? ==> BlockPlaced(r.value, [T.Global])
  {
    Program(ts).result
  }
}
