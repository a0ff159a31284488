/** The error-collecting parser of src/parser/parser.rs as functions on the parser's whole
    state: the tokens not yet read, the block stack, the errors recorded so far and the
    pending doc comment. Unlike the fail-fast parser it records most errors and goes on:
    a bad name becomes `"None"`, a bad type `bool`, a missing delimiter is recorded without
    being consumed, and a failed condition, argument or return value becomes an `Error`
    node. Only `?` on a token that is not there ends a rule early. Every rule returns a
    `Step`: its result and the state it left. The `Parser` class in `LateParsers` runs the
    same rules on mutable fields.

    The parameters of the recorded errors are not modelled: most of them are texts of
    tokens and keywords that this revision prints with `to_string` implementations which
    are not part of this model. Each recorded error keeps its code and its location. */
module LateParsing {
  import opened Wrappers
  import opened LateSyntax
  import K = Keywords
  import O = Operators
  import T = Types
  import Tokens
  import opened ErrorCodes
  import opened ErrorContexts
  import opened Decimal
  import Text

  type Error = ErrorContext<ErrorCode>

  /** An error that ends a rule, or the endless recursion of `parse_not_expr`, which calls
      `parse_expression` again without consuming `not`. */
  datatype Failure = Reported(context: Error) | Diverges

  /** The fields of `Parser`. */
  datatype PState = PState(tokens: seq<Token>, stack: seq<BlockKind>, errors: seq<Error>,
                           doc: string)

  /** A rule's result and the state it left; `:-` propagates the error with the state. */
  datatype Step<+R> = Step(result: Result<R, Failure>, state: PState) {
    predicate IsFailure() { result.Err? }

    function PropagateFailure<U>(): Step<U>
      requires result.Err?
    {
      Step(Err(result.error), state)
    }

    function Extract(): (R, PState)
      requires result.Ok?
    {
      (result.value, state)
    }
  }

  /** An error at token `t`. */
  function At(code: ErrorCode, t: Token): Error {
    ErrorContext(code, Some(t.row), Some(t.col), [])
  }

  /** Parse003 without a location: the iterator has nothing left. */
  const Exhausted: Error := ErrorContext(Parse003, None, None, [])

  /** `self.errors.push(e)`. */
  function Record(s: PState, e: Error): (r: PState)
    ensures r.errors == s.errors + [e] && r.tokens == s.tokens
    ensures r.stack == s.stack && r.doc == s.doc && Keeps(s, r)
  {
    s.(errors := s.errors + [e])
  }

  /** `later` is reachable from `s`: no token is given back. */
  predicate Advances(s: PState, later: PState) {
    |later.tokens| <= |s.tokens|
  }

  /** `later` is reachable from `s` without dropping or changing a recorded error and
      without touching the block stack or the doc comment, as every rule inside a
      statement leaves them. */
  predicate Keeps(s: PState, later: PState) {
    Advances(s, later) && s.errors <= later.errors && later.stack == s.stack && later.doc == s.doc
  }

  /** No token is `not`, the one token the rules diverge on. */
  predicate NoNot(ts: seq<Token>) {
    forall i :: 0 <= i < |ts| ==> ts[i].kind != NotToken
  }

  /** Without a `not` ahead, a rule does not diverge and leaves no `not` ahead. */
  predicate Total<R>(s: PState, r: Step<R>) {
    NoNot(s.tokens) ==> NoNot(r.state.tokens) && !(r.result.Err? && r.result.error.Diverges?)
  }

  /** The codes an expression ends with: an unexpected token, no token, or a bad number. */
  predicate ExpressionFailure(f: Failure) {
    f.Diverges? || f.context.errorCode in {Parse002, Parse003, Parse004}
  }

  function Tail(ts: seq<Token>): (r: seq<Token>)
    ensures |r| == if ts == [] then 0 else |ts| - 1
  {
    if ts == [] then [] else ts[1..]
  }

  // ----- token helpers -----

  /** `peek_token`: the next token without moving, or Parse003 without a location. */
  function PeekToken(s: PState): (r: Step<Token>)
    ensures r.state == s
    ensures r.result.Ok? <==> s.tokens != []
    ensures r.result.Ok? ==> r.result.value == s.tokens[0]
    ensures r.result.Err? ==> r.result.error == Reported(Exhausted)
  {
    if s.tokens == [] then Step(Err(Reported(Exhausted)), s) else Step(Ok(s.tokens[0]), s)
  }

  /** `next_token`: consumes the next token. An `EOF` is consumed too but reported as
      Parse003 at its own location; an empty iterator is Parse003 without one. */
  function NextToken(s: PState): (r: Step<Token>)
    ensures r.state == s.(tokens := Tail(s.tokens)) && Total(s, r)
    ensures r.result.Ok? <==> s.tokens != [] && s.tokens[0].kind != EOF
    ensures r.result.Ok? ==> r.result.value == s.tokens[0]
    ensures s.tokens == [] ==> r.result == Err(Reported(Exhausted))
    ensures s.tokens != [] && s.tokens[0].kind == EOF ==>
              r.result == Err(Reported(At(Parse003, s.tokens[0])))
  {
    if s.tokens == [] then Step(Err(Reported(Exhausted)), s)
    else
      var t := s.tokens[0];
      var rest := s.(tokens := s.tokens[1..]);
      if t.kind == EOF then Step(Err(Reported(At(Parse003, t))), rest) else Step(Ok(t), rest)
  }

  /** `check_next_token`: a matching token is consumed; any other token stays where it is
      and Parse005 is recorded at it; with no token left nothing happens. */
  function CheckNextToken(s: PState, kind: TokenKind): (r: PState)
    ensures s.tokens == [] ==> r == s
    ensures s.tokens != [] && s.tokens[0].kind == kind ==> r == s.(tokens := s.tokens[1..])
    ensures s.tokens != [] && s.tokens[0].kind != kind ==>
              r == Record(s, At(Parse005, s.tokens[0]))
    ensures Keeps(s, r) && (NoNot(s.tokens) ==> NoNot(r.tokens))
  {
    if s.tokens == [] then s
    else if s.tokens[0].kind == kind then s.(tokens := s.tokens[1..])
    else Record(s, At(Parse005, s.tokens[0]))
  }

  /** `peek_n`: the token `n` places after the next one; Parse003 at the next token when
      there are not that many. */
  function PeekN(s: PState, n: nat): (r: Step<Token>)
    ensures r.state == s
    ensures r.result.Ok? <==> n < |s.tokens|
    ensures r.result.Ok? ==> r.result.value == s.tokens[n]
    ensures s.tokens == [] ==> r.result == Err(Reported(Exhausted))
    ensures 0 < |s.tokens| <= n ==> r.result == Err(Reported(At(Parse003, s.tokens[0])))
  {
    if s.tokens == [] then Step(Err(Reported(Exhausted)), s)
    else if n < |s.tokens| then Step(Ok(s.tokens[n]), s)
    else Step(Err(Reported(At(Parse003, s.tokens[0]))), s)
  }

  /** `push_block`: the kind goes on the stack and the doc comment is cleared. */
  function PushBlock(s: PState, kind: BlockKind): (r: PState)
    ensures r.stack == s.stack + [kind] && r.doc == ""
    ensures r.tokens == s.tokens && r.errors == s.errors
  {
    s.(stack := s.stack + [kind], doc := "")
  }

  /** `pop_block`: the innermost kind, if any, leaves the stack; the doc comment is cleared. */
  function PopBlock(s: PState): (r: PState)
    ensures r.stack == if s.stack == [] then [] else s.stack[..|s.stack| - 1]
    ensures r.doc == "" && r.tokens == s.tokens && r.errors == s.errors
  {
    s.(stack := if s.stack == [] then [] else s.stack[..|s.stack| - 1], doc := "")
  }

  /** `get_doc_comment`: the pending doc comment, or none when it is empty. */
  function GetDocComment(s: PState): (r: Option<string>)
    ensures r.None? <==> s.doc == ""
    ensures r.Some? ==> r.value == s.doc
  {
    if s.doc == "" then None else Some(s.doc)
  }

  /** A failing sub-rule whose error the caller records, putting an `Error` node in its
      place; divergence stays divergence. */
  function Recovered(r: Step<PrivateNode>): (q: Step<PrivateNode>)
    ensures r.result.Ok? ==> q == r
    ensures r.result.Err? && r.result.error.Reported? ==>
              q == Step(Ok(Error), Record(r.state, r.result.error.context))
    ensures q.result.Err? <==> r.result == Err(Diverges)
  {
    match r.result
    case Ok(_) => r
    case Err(Reported(e)) => Step(Ok(Error), Record(r.state, e))
    case Err(Diverges) => r
  }

  /** A name token: its identifier, or `"None"` with `code` recorded at the token. */
  function Named(t: Token, s: PState, code: ErrorCode): (r: (string, PState))
    ensures t.kind.Identifier? ==> r == (t.kind.name, s)
    ensures !t.kind.Identifier? ==> r == ("None", Record(s, At(code, t)))
  {
    if t.kind.Identifier? then (t.kind.name, s) else ("None", Record(s, At(code, t)))
  }

  // ----- literals and variables -----

  /** `parse_literal`. A numeral is an `i32`, or Parse004 at it; one followed by `.` and a
      numeral is a float; one that the tokens end right after is Parse003, because the
      source peeks for a `.` behind it. The float keeps the numeral it was read from. */
  function LiteralExpr(s: PState): (r: Step<PrivateNode>)
    ensures Total(s, r)
    ensures r.result.Ok? ==> ArithmeticTree(r.result.value)
    ensures Keeps(s, r.state)
    ensures r.result.Ok? ==> |r.state.tokens| < |s.tokens| && r.result.value.Literal?
    ensures r.result.Err? ==> ExpressionFailure(r.result.error) && r.result.error.Reported?
  {
    var t :- NextToken(s);
    match t.0.kind
    case StringLiteral(v) => Step(Ok(Literal(T.StringValue(v))), t.1)
    case BoolLiteral(b) => Step(Ok(Literal(T.BoolValue(b == K.True))), t.1)
    case NumberLiteral(integer) =>
      (match ParseI32(integer)
       case None => Step(Err(Reported(At(Parse004, t.0))), t.1)
       case Some(i) =>
         var next :- PeekToken(t.1);
         if next.0.kind == Dot then FloatTail(integer + ".", t.1)
         else Step(Ok(Literal(T.IntValue(i))), t.1))
    case _ => Step(Err(Reported(At(Parse002, t.0))), t.1)
  }

  /** The float branch of `parse_literal`, at the `.`: the token after it must be a
      numeral whose digits complete the float; otherwise Parse004 at that token. */
  function FloatTail(numberString: string, s: PState): (r: Step<PrivateNode>)
    requires s.tokens != [] && s.tokens[0].kind == Dot
    ensures Total(s, r)
    ensures Keeps(s, r.state) && |r.state.tokens| < |s.tokens|
    ensures r.result.Ok? ==> r.result.value.Literal? && r.result.value.value.FloatValue?
    ensures r.result.Err? ==> ExpressionFailure(r.result.error) && r.result.error.Reported?
  {
    var dot := NextToken(s);
    var d :- NextToken(dot.state);
    if d.0.kind.NumberLiteral? && AllDigits(d.0.kind.digits) then
      Step(Ok(Literal(T.FloatValue(T.F64(numberString + d.0.kind.digits)))), d.1)
    else Step(Err(Reported(At(Parse004, d.0))), d.1)
  }

  /** `parse_variable`. */
  function VariableExpr(s: PState): (r: Step<PrivateNode>)
    ensures Total(s, r)
    ensures Keeps(s, r.state)
    ensures r.result.Ok? <==> s.tokens != [] && s.tokens[0].kind.Identifier?
    ensures r.result.Ok? ==> r == Step(Ok(Variable(s.tokens[0].kind.name)),
                                     s.(tokens := s.tokens[1..]))
    ensures r.result.Err? ==> ExpressionFailure(r.result.error) && r.result.error.Reported?
  {
    var t :- NextToken(s);
    if t.0.kind.Identifier? then Step(Ok(Variable(t.0.kind.name)), t.1)
    else Step(Err(Reported(At(Parse002, t.0))), t.1)
  }

  // ----- arithmetic -----

  /** What `parse_value` builds: literals and variables under `+`, `-`, `*` and `/`, with
      no comparison or logical operator anywhere in it. */
  predicate ArithmeticTree(n: PrivateNode) {
    match n
    case Literal(_) => true
    case Variable(_) => true
    case Arithmetic(_, left, right) =>
      ArithmeticTree(left) && (right.None? || ArithmeticTree(right.value))
    case _ => false
  }

  predicate AddOperator(ts: seq<Token>) {
    ts != [] && ts[0].kind.ArithmeticOperator? && ts[0].kind.arith in {Tokens.Plus, Tokens.Minus}
  }

  predicate MulOperator(ts: seq<Token>) {
    ts != [] && ts[0].kind.ArithmeticOperator?
    && ts[0].kind.arith in {Tokens.Multiply, Tokens.Divide}
  }

  /** `parse_add_and_sub`. */
  function AddSub(s: PState): (r: Step<PrivateNode>)
    ensures Total(s, r)
    ensures r.result.Ok? ==> ArithmeticTree(r.result.value)
    ensures Keeps(s, r.state)
    ensures r.result.Err? ==> ExpressionFailure(r.result.error) && r.result.error.Reported?
    decreases |s.tokens|, 5
  {
    var left :- MulDiv(s);
    AddSubLoop(left.0, left.1)
  }

  /** The `while let` of `parse_add_and_sub`: each `+` or `-` makes the tree so far its
      left operand. */
  function AddSubLoop(left: PrivateNode, s: PState): (r: Step<PrivateNode>)
    ensures Total(s, r)
    ensures r.result.Ok? && ArithmeticTree(left) ==> ArithmeticTree(r.result.value)
    ensures Keeps(s, r.state)
    ensures r.result.Err? ==> ExpressionFailure(r.result.error) && r.result.error.Reported?
    ensures !AddOperator(s.tokens) ==> r == Step(Ok(left), s)
    decreases |s.tokens|, 4
  {
    if AddOperator(s.tokens) then
      var right :- MulDiv(s.(tokens := s.tokens[1..]));
      AddSubLoop(Arithmetic(s.tokens[0].kind.arith, left, Some(right.0)), right.1)
    else Step(Ok(left), s)
  }

  /** `parse_mul_and_div`. */
  function MulDiv(s: PState): (r: Step<PrivateNode>)
    ensures Total(s, r)
    ensures r.result.Ok? ==> ArithmeticTree(r.result.value)
    ensures Keeps(s, r.state)
    ensures r.result.Err? ==> ExpressionFailure(r.result.error) && r.result.error.Reported?
    decreases |s.tokens|, 3
  {
    var left :- UnaryExpr(s);
    MulDivLoop(left.0, left.1)
  }

  /** The `while let` of `parse_mul_and_div`. As written, a second `next_token()?` after
      the operator drops the token that follows it, and fails when that token is an `EOF`
      or missing. */
  function MulDivLoop(left: PrivateNode, s: PState): (r: Step<PrivateNode>)
    ensures Total(s, r)
    ensures r.result.Ok? && ArithmeticTree(left) ==> ArithmeticTree(r.result.value)
    ensures Keeps(s, r.state)
    ensures r.result.Err? ==> ExpressionFailure(r.result.error) && r.result.error.Reported?
    ensures !MulOperator(s.tokens) ==> r == Step(Ok(left), s)
    decreases |s.tokens|, 2
  {
    if MulOperator(s.tokens) then
      var skipped :- NextToken(s.(tokens := s.tokens[1..]));
      var right :- UnaryExpr(skipped.1);
      MulDivLoop(Arithmetic(s.tokens[0].kind.arith, left, Some(right.0)), right.1)
    else Step(Ok(left), s)
  }

  /** `parse_unary`: `-` wraps its primary with no right operand; a `+` is handed to
      `parse_primary` unconsumed, which rejects it. */
  function UnaryExpr(s: PState): (r: Step<PrivateNode>)
    ensures Total(s, r)
    ensures r.result.Ok? ==> ArithmeticTree(r.result.value)
    ensures Keeps(s, r.state)
    ensures r.result.Err? ==> ExpressionFailure(r.result.error) && r.result.error.Reported?
    decreases |s.tokens|, 1
  {
    var t :- PeekToken(s);
    var k := t.0.kind;
    if k.NumberLiteral? || k == LParen || k.Identifier? || k == ArithmeticOperator(Tokens.Plus) then
      PrimaryExpr(s)
    else if k == ArithmeticOperator(Tokens.Minus) then
      var operand :- PrimaryExpr(s.(tokens := s.tokens[1..]));
      Step(Ok(Arithmetic(Tokens.Minus, operand.0, None)), operand.1)
    else Step(Err(Reported(At(Parse002, t.0))), s)
  }

  /** `parse_primary`: the closing `)` is checked, and a mismatch recorded, before the
      inner expression's own result is returned. */
  function PrimaryExpr(s: PState): (r: Step<PrivateNode>)
    ensures Total(s, r)
    ensures r.result.Ok? ==> ArithmeticTree(r.result.value)
    ensures Keeps(s, r.state)
    ensures r.result.Err? ==> ExpressionFailure(r.result.error) && r.result.error.Reported?
    decreases |s.tokens|, 0
  {
    var t :- PeekToken(s);
    if t.0.kind.NumberLiteral? then LiteralExpr(s)
    else if t.0.kind == LParen then
      var inner := AddSub(s.(tokens := s.tokens[1..]));
      Step(inner.result, CheckNextToken(inner.state, RParen))
    else if t.0.kind.Identifier? then VariableExpr(s)
    else Step(Err(Reported(At(Parse002, t.0))), s)
  }

  // ----- comparison and logic -----

  /** `parse_value`. */
  function ValueExpr(s: PState): (r: Step<PrivateNode>)
    ensures Total(s, r)
    ensures r.result.Ok? ==> ArithmeticTree(r.result.value)
    ensures Keeps(s, r.state)
    ensures r.result.Err? ==> ExpressionFailure(r.result.error) && r.result.error.Reported?
  {
    var t :- PeekToken(s);
    var k := t.0.kind;
    if k.NumberLiteral? || AddOperator(s.tokens) || k == LParen || k.Identifier? then AddSub(s)
    else if k.StringLiteral? then LiteralExpr(s)
    else Step(Err(Reported(At(Parse002, t.0))), s)
  }

  /** `parse_compare`: the left value's error is held back until the operator and the
      right value are read, so an error on the right wins; a second operator is left for
      the caller. */
  function CompareExpr(s: PState): (r: Step<PrivateNode>)
    ensures Total(s, r)
    ensures r.result.Ok? ==> ArithmeticTree(r.result.value)
                             || (r.result.value.Compare? && ArithmeticTree(r.result.value.left)
                                 && ArithmeticTree(r.result.value.right))
    ensures Keeps(s, r.state)
    ensures r.result.Err? ==> ExpressionFailure(r.result.error) && r.result.error.Reported?
  {
    var left := ValueExpr(s);
    var t :- PeekToken(left.state);
    if !t.0.kind.CompareOperator? then left
    else
      var right :- ValueExpr(left.state.(tokens := left.state.tokens[1..]));
      match left.result
      case Err(e) => Step(Err(e), right.1)
      case Ok(l) => Step(Ok(Compare(t.0.kind.comparison, l, right.0)), right.1)
  }

  const NotToken: TokenKind := LogicalOperator(O.UnaryLogic(O.Not))
  const OrToken: TokenKind := LogicalOperator(O.BinaryLogic(O.Or))

  /** `parse_not_expr`: `not` never returns, a Bool literal is read alone, anything else
      is a comparison. */
  function NotExpr(s: PState): (r: Step<PrivateNode>)
    ensures Total(s, r)
    ensures Keeps(s, r.state)
    ensures r.result.Err? ==> ExpressionFailure(r.result.error)
    ensures r.result == Err(Diverges) <==> s.tokens != [] && s.tokens[0].kind == NotToken
  {
    var t :- PeekToken(s);
    if t.0.kind == NotToken then Step(Err(Diverges), s)
    else if t.0.kind.BoolLiteral? then LiteralExpr(s)
    else CompareExpr(s)
  }

  /** A binary `and` or `xor`: the operators `parse_and_expr` continues on. */
  predicate AndOperator(t: Token) {
    t.kind.LogicalOperator? && t.kind.logical.BinaryLogic? && t.kind.logical.b in {O.And, O.Xor}
  }

  /** `parse_and_expr`. */
  function AndExpr(s: PState): (r: Step<PrivateNode>)
    ensures Total(s, r)
    ensures Keeps(s, r.state)
    ensures r.result.Err? ==> ExpressionFailure(r.result.error)
  {
    var left :- NotExpr(s);
    AndLoop(left.0, left.1)
  }

  /** The loop of `parse_and_expr`; its `peek_token()?` makes running out of tokens after
      an operand an error. */
  function AndLoop(left: PrivateNode, s: PState): (r: Step<PrivateNode>)
    ensures Total(s, r)
    ensures Keeps(s, r.state)
    ensures r.result.Err? ==> ExpressionFailure(r.result.error)
    ensures s.tokens != [] && !AndOperator(s.tokens[0]) ==> r == Step(Ok(left), s)
    decreases |s.tokens|
  {
    var t :- PeekToken(s);
    if AndOperator(t.0) then
      var right :- NotExpr(s.(tokens := s.tokens[1..]));
      AndLoop(Logical(t.0.kind.logical, left, Some(right.0)), right.1)
    else Step(Ok(left), s)
  }

  /** `parse_or_expr`. */
  function OrExpr(s: PState): (r: Step<PrivateNode>)
    ensures Total(s, r)
    ensures Keeps(s, r.state)
    ensures r.result.Err? ==> ExpressionFailure(r.result.error)
  {
    var left :- AndExpr(s);
    OrLoop(left.0, left.1)
  }

  /** The loop of `parse_or_expr`, with the same `peek_token()?`. */
  function OrLoop(left: PrivateNode, s: PState): (r: Step<PrivateNode>)
    ensures Total(s, r)
    ensures Keeps(s, r.state)
    ensures r.result.Err? ==> ExpressionFailure(r.result.error)
    ensures s.tokens != [] && s.tokens[0].kind != OrToken ==> r == Step(Ok(left), s)
    decreases |s.tokens|
  {
    var t :- PeekToken(s);
    if t.0.kind == OrToken then
      var right :- AndExpr(s.(tokens := s.tokens[1..]));
      OrLoop(Logical(O.BinaryLogic(O.Or), left, Some(right.0)), right.1)
    else Step(Ok(left), s)
  }

  /** `parse_expression` and `parse_logical`. */
  function Expression(s: PState): (r: Step<PrivateNode>)
    ensures Total(s, r)
    ensures Keeps(s, r.state)
    ensures r.result.Err? ==> ExpressionFailure(r.result.error)
  {
    OrExpr(s)
  }

  // ----- assignables and argument lists -----

  /** `parse_assignable`: a name directly followed by `(` is a call whose result is used. */
  function Assignable(s: PState): (r: Step<PrivateNode>)
    ensures Total(s, r)
    ensures Keeps(s, r.state)
    ensures r.result.Err? ==> ExpressionFailure(r.result.error)
    decreases |s.tokens|, 0
  {
    var t :- PeekToken(s);
    var k := t.0.kind;
    if k.StringLiteral? || k.NumberLiteral? || k.BoolLiteral? || AddOperator(s.tokens)
       || k == LParen then
      Expression(s)
    else if k.Identifier? then
      var next :- PeekN(s, 1);
      if next.0.kind == LParen then
        var arguments :- Arguments(s.(tokens := s.tokens[2..]));
        Step(Ok(FunctionCall(k.name, arguments.0, true)), CheckNextToken(arguments.1, RParen))
      else Expression(s)
    else Step(Err(Reported(At(Parse002, t.0))), s)
  }

  /** `parse_argument`: never fails; every error is recorded and the list so far kept. */
  function Arguments(s: PState): (r: Step<seq<PrivateNode>>)
    ensures Total(s, r)
    ensures Keeps(s, r.state)
    ensures r.result.Err? ==> r.result.error.Diverges?
    decreases |s.tokens|, 2
  {
    ArgumentsLoop(s, [])
  }

  /** The loop of `parse_argument` with the arguments read so far. */
  function ArgumentsLoop(s: PState, arguments: seq<PrivateNode>): (r: Step<seq<PrivateNode>>)
    ensures Total(s, r)
    ensures Keeps(s, r.state)
    ensures r.result.Err? ==> r.result.error.Diverges?
    ensures r.result.Ok? ==> arguments <= r.result.value
    decreases |s.tokens|, 1
  {
    if s.tokens == [] then Step(Ok(arguments + [Error]), Record(s, Exhausted))
    else if s.tokens[0].kind == RParen then Step(Ok(arguments), s)
    else
      var a :- Recovered(Assignable(s));
      var more := arguments + [a.0];
      var after := a.1;
      if after.tokens == [] then Step(Ok(more), Record(after, Exhausted))
      else
        var t := after.tokens[0];
        if t.kind == Comma then ArgumentsLoop(after.(tokens := after.tokens[1..]), more)
        else if t.kind == RParen then Step(Ok(more), after)
        else Step(Ok(more), Record(after, At(Parse002, t)))
  }

  // ----- doc comments -----

  /** The capture of `@process(.*)`: what follows the first `@process` up to the end of
      its line. */
  function ProcessCapture(text: string): (r: Option<string>)
    ensures r.None? <==> forall j :: 0 <= j <= |text| ==> !Text.OccursAt(text, "@process", j)
  {
    match Text.FindFrom(text, "@process", 0)
    case None => None
    case Some(i) =>
      var rest := text[i + 8..];
      match Text.FindFrom(rest, "\n", 0)
      case Some(j) => Some(rest[..j])
      case None => Some(rest)
  }

  /** The `while let` of `parse_doc_comment`: each following doc comment is consumed and
      joined on with a newline. */
  function DocLoop(s: PState, text: string): (r: Step<string>)
    ensures Total(s, r)
    ensures r.state == s.(tokens := r.state.tokens) && |r.state.tokens| <= |s.tokens|
    ensures r.result.Err? ==> r.result.error == Reported(Exhausted) && r.state.tokens == []
    ensures r.result.Ok? ==> Text.StartsWith(r.result.value, text)
    ensures r.result.Ok? ==> r.state.tokens != [] && !r.state.tokens[0].kind.DocComment?
    decreases |s.tokens|
  {
    var t :- PeekToken(s);
    if t.0.kind.DocComment? then DocLoop(s.(tokens := s.tokens[1..]), text + "\n" + t.0.kind.doc)
    else Step(Ok(text), s)
  }

  /** `parse_doc_comment` on the doc comment just peeked. A run whose first comment holds
      `@process` becomes a `ProcessComment` node; any other run becomes the pending doc
      comment. Only running out of tokens fails, and no error is recorded. */
  function DocComment(s: PState): (r: Step<Option<PrivateNode>>)
    requires s.tokens != [] && s.tokens[0].kind.DocComment?
    ensures Total(s, r)
    ensures |r.state.tokens| < |s.tokens| && r.state.stack == s.stack
    ensures r.state.errors == s.errors
    ensures r.result.Err? ==> r.result.error == Reported(Exhausted) && r.state.doc == s.doc
    ensures r.result.Ok? && r.result.value.Some? ==>
              r.result.value.value.ProcessComment? && r.state.doc == s.doc
    ensures r.result.Ok? && r.result.value.None? ==>
              ProcessCapture(s.tokens[0].kind.doc).None?
              && Text.StartsWith(r.state.doc, s.tokens[0].kind.doc)
  {
    var text := s.tokens[0].kind.doc;
    var after := s.(tokens := s.tokens[1..]);
    match ProcessCapture(text)
    case Some(capture) =>
      var joined :- DocLoop(after, Text.Trim(capture));
      Step(Ok(Some(ProcessComment(joined.0))), joined.1)
    case None =>
      var joined :- DocLoop(after, text);
      Step(Ok(None), joined.1.(doc := joined.0))
  }

  // ----- statements -----

  /** Parse006 at `t` when no enclosing block has the kind `kind`. */
  function OutOfContext(s: PState, kind: BlockKind, t: Token): (r: PState)
    ensures kind in s.stack ==> r == s
    ensures kind !in s.stack ==> r == Record(s, At(Parse006, t))
  {
    if kind in s.stack then s else Record(s, At(Parse006, t))
  }

  /** `push_block`, `parse_statements`, `pop_block` and the closing `}`. */
  function Block(s: PState, blockType: BlockKind): (r: Step<BlockNode>)
    ensures Total(s, r)
    ensures Advances(s, r.state)
    ensures r.result.Err? ==> r.result.error.Diverges?
    ensures r.result.Ok? ==> r.result.value.blockType == blockType && r.state.stack == s.stack
                              && r.state.doc == ""
    decreases |s.tokens|, 4
  {
    var block :- StatementsLoop(PushBlock(s, blockType), blockType, []);
    Step(Ok(block.0), CheckNextToken(PopBlock(block.1), RBrace))
  }

  /** `parse_statements`: never fails. It stops at the closing `}` of its block or at an
      `EOF`, both left unread, or after recording the error of a statement. The doc
      comment is cleared after each statement but not after a doc comment. */
  function StatementsLoop(s: PState, blockType: BlockKind, statements: seq<PrivateNode>)
    : (r: Step<BlockNode>)
    ensures Total(s, r)
    ensures Advances(s, r.state)
    ensures r.result.Err? ==> r.result.error.Diverges?
    ensures r.result.Ok? ==> r.result.value.blockType == blockType && r.state.stack == s.stack
                              && statements <= r.result.value.statements
    decreases |s.tokens|, 3
  {
    var done := Step(Ok(BlockNode(blockType, statements)), s);
    if s.tokens == [] then Step(done.result, Record(s, Exhausted))
    else
      var t := s.tokens[0];
      if (blockType != Global && t.kind == RBrace) || t.kind == EOF then done
      else if t.kind.DocComment? then
        var d := DocComment(s);
        match d.result
        case Ok(comment) =>
          var more := if comment.Some? then statements + [comment.value] else statements;
          StatementsLoop(d.state, blockType, more)
        case Err(_) => Step(done.result, Record(d.state, Exhausted))
      else
        var statement := Statement(s);
        match statement.result
        case Ok(node) => StatementsLoop(statement.state.(doc := ""), blockType, statements + [node])
        case Err(Reported(e)) => Step(done.result, Record(statement.state, e))
        case Err(Diverges) => Step(Err(Diverges), statement.state)
  }

  /** `parse_statement` on the token just peeked. Only an `Ok` consumes it for sure. */
  function Statement(s: PState): (r: Step<PrivateNode>)
    requires s.tokens != []
    ensures Total(s, r)
    ensures Advances(s, r.state)
    ensures r.result.Ok? ==> |r.state.tokens| < |s.tokens|
    ensures r.result != Err(Diverges) ==> r.state.stack == s.stack
    decreases |s.tokens|, 2
  {
    var t := s.tokens[0];
    var k := t.kind;
    if k.Identifier? then CallOrAssignment(s, k.name)
    else if k == ControlKeyword(K.If) then IfElse(s)
    else if k == ControlKeyword(K.While) then While(s)
    else if k.DeclarationKeyword? then Declaration(s, k.declaration)
    else if k.FunctionControl? then Return(s)
    else if k.LoopControl? then Jump(s, k.loopControl)
    else if k.CoroutineControl? then CoroutineStatement(s, k.coroutine)
    else Step(Err(Reported(At(Parse002, t))), s)
  }

  /** `parse_identifier`: a call statement, whose result is not used, or an assignment. */
  function CallOrAssignment(s: PState, name: string): (r: Step<PrivateNode>)
    requires s.tokens != []
    ensures Total(s, r)
    ensures Keeps(s, r.state)
    ensures r.result.Ok? ==> |r.state.tokens| < |s.tokens|
  {
    var nameToken :- NextToken(s);
    var after :- NextToken(nameToken.1);
    if after.0.kind == LParen then
      var arguments :- Arguments(after.1);
      Step(Ok(FunctionCall(name, arguments.0, false)),
           CheckNextToken(CheckNextToken(arguments.1, RParen), Semicolon))
    else if after.0.kind == Equal then
      var expression :- Expression(after.1);
      Step(Ok(VariableAssignment(name, expression.0)), CheckNextToken(expression.1, Semicolon))
    else Step(Err(Reported(At(Parse002, after.0))), after.1)
  }

  /** The `return` arm: Parse006 is recorded outside a function, and the statement is
      still read; a failed value is recorded and becomes `Error`. */
  function Return(s: PState): (r: Step<PrivateNode>)
    requires s.tokens != []
    ensures Total(s, r)
    ensures Keeps(s, r.state)
    ensures r.result.Ok? ==> |r.state.tokens| < |s.tokens|
    ensures r.result.Ok? ==> r.result.value.ReturnStatement?
    ensures r.result.Err? ==> r.result.error.Diverges? || r.result.error.context.errorCode == Parse003
  {
    var checked := OutOfContext(s, Function, s.tokens[0]);
    var keyword :- NextToken(checked);
    var value :- Recovered(Assignable(keyword.1));
    Step(Ok(ReturnStatement(value.0)), CheckNextToken(value.1, Semicolon))
  }

  /** The `break`/`continue` arm: Parse006 is recorded outside a loop, and the statement is
      still read. */
  function Jump(s: PState, keyword: K.LoopControl): (r: Step<PrivateNode>)
    requires s.tokens != []
    ensures Total(s, r)
    ensures Keeps(s, r.state)
    ensures r.result.Ok? ==> |r.state.tokens| < |s.tokens|
    ensures r.result.Ok? ==> r.result.value == if keyword == K.Break then Break else Continue
    ensures r.result.Err? ==> r.result.error.Reported? && r.result.error.context.errorCode == Parse003
  {
    var checked := OutOfContext(s, Loop, s.tokens[0]);
    var word :- NextToken(checked);
    Step(Ok(if keyword == K.Break then Break else Continue), CheckNextToken(word.1, Semicolon))
  }

  /** The `resume`/`yield` arm: `resume` needs a task name (Parse005 ends the statement
      otherwise); `yield` outside a coroutine records Parse006 and is still read. */
  function CoroutineStatement(s: PState, keyword: Tokens.CoroutineControl): (r: Step<PrivateNode>)
    requires s.tokens != []
    ensures Total(s, r)
    ensures Keeps(s, r.state)
    ensures r.result.Ok? ==> |r.state.tokens| < |s.tokens|
    ensures r.result.Ok? ==> if keyword == Tokens.Yield then r.result.value == Yield
                             else r.result.value.CoroutineResume?
  {
    var word :- NextToken(s);
    match keyword
    case Resume =>
      var nameToken :- NextToken(word.1);
      if nameToken.0.kind.Identifier? then
        Step(Ok(CoroutineResume(nameToken.0.kind.name)), CheckNextToken(nameToken.1, Semicolon))
      else Step(Err(Reported(At(Parse005, nameToken.0))), nameToken.1)
    case Yield =>
      Step(Ok(Yield), CheckNextToken(OutOfContext(word.1, Coroutine, s.tokens[0]), Semicolon))
  }

  /** What `if` and `while` share: the keyword, `(`, the condition (recorded and replaced
      by `Error` when it fails), `)` and `{`. */
  function Condition(s: PState): (r: Step<PrivateNode>)
    ensures Total(s, r)
    ensures Keeps(s, r.state)
    ensures r.result.Ok? ==> |r.state.tokens| < |s.tokens|
    ensures r.result.Err? ==> r.result.error.Diverges? || r.result.error.context.errorCode == Parse003
  {
    var keyword :- NextToken(s);
    var condition :- Recovered(Expression(CheckNextToken(keyword.1, LParen)));
    Step(Ok(condition.0), CheckNextToken(CheckNextToken(condition.1, RParen), LBrace))
  }

  /** `parse_if_statement`. */
  function IfElse(s: PState): (r: Step<PrivateNode>)
    requires s.tokens != []
    ensures Total(s, r)
    ensures Advances(s, r.state)
    ensures r.result.Ok? ==> |r.state.tokens| < |s.tokens| && r.result.value.IfStatement?
    ensures r.result != Err(Diverges) ==> r.state.stack == s.stack
    decreases |s.tokens|, 1
  {
    var condition :- Condition(s);
    var thenBlock :- Block(condition.1, Conditional);
    var elseBlock :- ElseBranch(thenBlock.1);
    Step(Ok(IfStatement(condition.0, thenBlock.0, elseBlock.0)), elseBlock.1)
  }

  /** The `else` of `parse_if_statement`, looked for with a raw `peek`. */
  function ElseBranch(s: PState): (r: Step<Option<BlockNode>>)
    ensures Total(s, r)
    ensures Advances(s, r.state)
    ensures r.result != Err(Diverges) ==> r.state.stack == s.stack
    ensures !(s.tokens != [] && s.tokens[0].kind == ControlKeyword(K.Else)) ==>
              r == Step(Ok(None), s)
    decreases |s.tokens|, 0
  {
    if s.tokens != [] && s.tokens[0].kind == ControlKeyword(K.Else) then
      var braced := CheckNextToken(s.(tokens := s.tokens[1..]), LBrace);
      var block :- Block(braced, Conditional);
      Step(Ok(Some(block.0)), block.1)
    else Step(Ok(None), s)
  }

  /** `parse_loop_statement`. */
  function While(s: PState): (r: Step<PrivateNode>)
    requires s.tokens != []
    ensures Total(s, r)
    ensures Advances(s, r.state)
    ensures r.result.Ok? ==> |r.state.tokens| < |s.tokens| && r.result.value.LoopStatement?
    ensures r.result != Err(Diverges) ==> r.state.stack == s.stack
    decreases |s.tokens|, 1
  {
    var condition :- Condition(s);
    var block :- Block(condition.1, Loop);
    Step(Ok(LoopStatement(condition.0, block.0)), block.1)
  }

  /** `parse_declaration_keyword`: `let` and `coro` are statements; `function` and
      `coroutine` inside a block end the statement with Parse006 at the keyword. */
  function Declaration(s: PState, keyword: DeclarationKeyword): (r: Step<PrivateNode>)
    requires s.tokens != []
    ensures Total(s, r)
    ensures Keeps(s, r.state)
    ensures r.result.Ok? ==> |r.state.tokens| < |s.tokens|
    ensures keyword in {FunctionDecl, CoroutineDecl} ==>
              r == Step(Err(Reported(At(Parse006, s.tokens[0]))), s)
  {
    match keyword
    case Let => LetDeclaration(s)
    case Coro => CoroDeclaration(s)
    case _ => Step(Err(Reported(At(Parse006, s.tokens[0]))), s)
  }

  /** The `let` arm. A bad name is `"None"` and a bad type `bool`, each with Parse005 at
      the name; anything but `;` or `=` after the type records Parse005 and leaves no
      initializer. The pending doc comment is attached. */
  function LetDeclaration(s: PState): (r: Step<PrivateNode>)
    ensures Total(s, r)
    ensures Keeps(s, r.state)
    ensures r.result.Ok? ==> |r.state.tokens| < |s.tokens|
    ensures r.result.Ok? ==> r.result.value.VariableDeclaration?
                              && r.result.value.doc == GetDocComment(s)
  {
    var head :- LetHead(s);
    var initializer :- Initializer(head.1);
    Step(Ok(VariableDeclaration(head.0.0, head.0.1, initializer.0, GetDocComment(initializer.1))),
         initializer.1)
  }

  /** `let name: type` of a `let`. */
  function LetHead(s: PState): (r: Step<(string, T.Type)>)
    ensures Total(s, r)
    ensures Keeps(s, r.state)
    ensures r.result.Ok? ==> |r.state.tokens| < |s.tokens|
  {
    var keyword :- NextToken(s);
    var nameToken :- NextToken(keyword.1);
    var (name, named) := Named(nameToken.0, nameToken.1, Parse005);
    var typeToken :- NextToken(CheckNextToken(named, Colon));
    if typeToken.0.kind.TypeName? then
      Step(Ok((name, TypeFromKeyword(typeToken.0.kind.typeName))), typeToken.1)
    else Step(Ok((name, T.Bool)), Record(typeToken.1, At(Parse005, nameToken.0)))
  }

  /** The end of a `let`: `;` for none, `=` and an assignable then `;`, anything else
      Parse005 at that token and none. */
  function Initializer(s: PState): (r: Step<Option<PrivateNode>>)
    ensures Total(s, r)
    ensures Keeps(s, r.state)
    ensures r.result.Ok? ==> |r.state.tokens| < |s.tokens|
  {
    var next :- NextToken(s);
    if next.0.kind == Semicolon then Step(Ok(None), next.1)
    else if next.0.kind == Equal then
      var expression :- Assignable(next.1);
      Step(Ok(Some(expression.0)), CheckNextToken(expression.1, Semicolon))
    else Step(Ok(None), Record(next.1, At(Parse005, next.0)))
  }

  /** The `coro` arm: `coro task = name();` instantiates coroutine `name` as `task`; a
      bad task name is `"None"` with Parse005, and no coroutine name ends the statement
      with Parse005. */
  function CoroDeclaration(s: PState): (r: Step<PrivateNode>)
    ensures Total(s, r)
    ensures Keeps(s, r.state)
    ensures r.result.Ok? ==> |r.state.tokens| < |s.tokens| && r.result.value.CoroutineInstantiation?
  {
    var keyword :- NextToken(s);
    var nameToken :- NextToken(keyword.1);
    var (taskName, named) := Named(nameToken.0, nameToken.1, Parse005);
    Instantiation(CheckNextToken(named, Equal), taskName)
  }

  /** The right of `coro task =`: a coroutine name, then `(`, `)` and `;`. */
  function Instantiation(s: PState, taskName: string): (r: Step<PrivateNode>)
    ensures Total(s, r)
    ensures Keeps(s, r.state)
    ensures r.result.Ok? ==> |r.state.tokens| < |s.tokens|
    ensures r.result.Ok? ==> s.tokens[0].kind.Identifier? && r.result.value == CoroutineInstantiation(taskName, s.tokens[0].kind.name)
  {
    var coroutine :- PeekToken(s);
    if coroutine.0.kind.Identifier? then
      var called := s.(tokens := s.tokens[1..]);
      Step(Ok(CoroutineInstantiation(taskName, coroutine.0.kind.name)),
           CheckNextToken(CheckNextToken(CheckNextToken(called, LParen), RParen), Semicolon))
    else Step(Err(Reported(At(Parse005, coroutine.0))), s)
  }

  // ----- definitions and the program -----

  /** The stack's innermost kind is `Global`. */
  predicate AtGlobal(stack: seq<BlockKind>) {
    stack != [] && stack[|stack| - 1] == Global
  }

  /** What a function and a coroutine definition start with: the keyword, Parse006 at it
      when not directly in the global block, the pending doc comment, and the name
      (`"None"` with Parse005 when it is not an identifier). */
  function DefinitionHead(s: PState): (r: Step<(Option<string>, string)>)
    requires s.tokens != []
    ensures Total(s, r)
    ensures Keeps(s, r.state)
    ensures r.result.Ok? ==> |r.state.tokens| < |s.tokens| && r.result.value.0 == GetDocComment(s)
    ensures r.result.Ok? && !AtGlobal(s.stack) ==> At(Parse006, s.tokens[0]) in r.state.errors
  {
    var keyword :- NextToken(s);
    var placed := if AtGlobal(keyword.1.stack) then keyword.1
                  else Record(keyword.1, At(Parse006, keyword.0));
    var doc := GetDocComment(placed);
    var nameToken :- NextToken(placed);
    var (name, named) := Named(nameToken.0, nameToken.1, Parse005);
    Step(Ok((doc, name)), named)
  }

  /** One parameter `name: type`: a bad name is `"None"` and a bad type `bool`, each with
      Parse002 at the token. */
  function Parameter(s: PState): (r: Step<ParameterNode>)
    ensures Total(s, r)
    ensures Keeps(s, r.state)
    ensures r.result.Ok? ==> |r.state.tokens| < |s.tokens|
    ensures r.result.Err? ==> r.result.error.Reported? && r.result.error.context.errorCode == Parse003
  {
    var nameToken :- NextToken(s);
    var (name, named) := Named(nameToken.0, nameToken.1, Parse002);
    var typeToken :- NextToken(CheckNextToken(named, Colon));
    if typeToken.0.kind.TypeName? then
      Step(Ok(ParameterNode(name, TypeFromKeyword(typeToken.0.kind.typeName))), typeToken.1)
    else Step(Ok(ParameterNode(name, T.Bool)), Record(typeToken.1, At(Parse002, typeToken.0)))
  }

  /** The parameter loop of `parse_function_definition`, up to the `)` it leaves unread. */
  function Parameters(s: PState, parameters: seq<ParameterNode>): (r: Step<seq<ParameterNode>>)
    ensures Total(s, r)
    ensures Keeps(s, r.state)
    ensures r.result.Err? ==> r.result.error.Reported? && r.result.error.context.errorCode == Parse003
    ensures r.result.Ok? ==> parameters <= r.result.value
                              && r.state.tokens != [] && r.state.tokens[0].kind == RParen
    decreases |s.tokens|
  {
    var t :- PeekToken(s);
    if t.0.kind == RParen then Step(Ok(parameters), s)
    else
      var parameter :- Parameter(s);
      var separator :- Separator(parameter.1);
      if separator.0 then Parameters(separator.1, parameters + [parameter.0])
      else Step(Ok(parameters + [parameter.0]), separator.1)
  }

  /** What follows a parameter: `,` is consumed and the list goes on; `)` ends it, unread;
      anything else records Parse002 and is skipped, and the list goes on. */
  function Separator(s: PState): (r: Step<bool>)
    ensures Total(s, r)
    ensures Keeps(s, r.state)
    ensures r.result.Err? ==> r.result.error.Reported? && r.result.error.context.errorCode == Parse003
    ensures r.result == Ok(true) ==> |r.state.tokens| < |s.tokens|
    ensures r.result == Ok(false) <==> s.tokens != [] && s.tokens[0].kind == RParen
    ensures r.result == Ok(false) ==> r.state == s
  {
    var next :- PeekToken(s);
    if next.0.kind == Comma then
      // `next_token()?` on the peeked `,` consumes it and cannot fail.
      Step(Ok(true), s.(tokens := s.tokens[1..]))
    else if next.0.kind == RParen then Step(Ok(false), s)
    else
      var skipped :- NextToken(Record(s, At(Parse002, next.0)));
      Step(Ok(true), skipped.1)
  }

  /** The parameters in parentheses; the `)` is checked, not required. */
  function Signature(s: PState): (r: Step<(seq<ParameterNode>, Option<T.Type>)>)
    ensures Total(s, r)
    ensures Keeps(s, r.state)
    ensures r.result.Ok? ==> |r.state.tokens| < |s.tokens|
    ensures r.result.Err? ==> r.result.error.Reported?
                              && r.result.error.context.errorCode in {Parse002, Parse003}
  {
    var parameters :- Parameters(CheckNextToken(s, LParen), []);
    var returnType :- ReturnType(CheckNextToken(parameters.1, RParen));
    Step(Ok((parameters.0, returnType.0)), returnType.1)
  }

  /** After the parameter list: `{`, or `->`, a type name and `{`. Any other token ends the
      definition with Parse002 at it. */
  function ReturnType(s: PState): (r: Step<Option<T.Type>>)
    ensures Total(s, r)
    ensures Keeps(s, r.state)
    ensures r.result.Ok? ==> |r.state.tokens| < |s.tokens|
    ensures r.result.Err? ==> r.result.error.Reported?
                              && r.result.error.context.errorCode in {Parse002, Parse003}
    ensures s.tokens != [] && s.tokens[0].kind == LBrace ==>
              r == Step(Ok(None), s.(tokens := s.tokens[1..]))
    ensures |s.tokens| >= 2 && s.tokens[0].kind == RArrow && s.tokens[1].kind.TypeName? ==>
              r == Step(Ok(Some(TypeFromKeyword(s.tokens[1].kind.typeName))),
                        CheckNextToken(s.(tokens := s.tokens[2..]), LBrace))
    ensures |s.tokens| >= 2 && s.tokens[0].kind == RArrow
            && !s.tokens[1].kind.TypeName? && s.tokens[1].kind != EOF ==>
              r == Step(Err(Reported(At(Parse002, s.tokens[1]))), s.(tokens := s.tokens[2..]))
    ensures s.tokens != [] && s.tokens[0].kind !in {LBrace, RArrow, EOF} ==>
              r == Step(Err(Reported(At(Parse002, s.tokens[0]))), s.(tokens := s.tokens[1..]))
  {
    var next :- NextToken(s);
    if next.0.kind == LBrace then Step(Ok(None), next.1)
    else if next.0.kind == RArrow then
      var typeToken :- NextToken(next.1);
      if typeToken.0.kind.TypeName? then
        Step(Ok(Some(TypeFromKeyword(typeToken.0.kind.typeName))), CheckNextToken(typeToken.1, LBrace))
      else Step(Err(Reported(At(Parse002, typeToken.0))), typeToken.1)
    else Step(Err(Reported(At(Parse002, next.0))), next.1)
  }

  /** `parse_function_definition`. */
  function FunctionDefinition(s: PState): (r: Step<FunctionDefinitionNode>)
    requires s.tokens != []
    ensures Total(s, r)
    ensures Advances(s, r.state)
    ensures r.result.Ok? ==> |r.state.tokens| < |s.tokens| && r.state.stack == s.stack
                              && r.result.value.doc == GetDocComment(s)
                              && r.result.value.block.blockType == Function
    ensures r.result.Err? && r.result.error.Reported? ==> r.state.stack == s.stack
  {
    var head :- DefinitionHead(s);
    var signature :- Signature(head.1);
    var block :- Block(signature.1, Function);
    Step(Ok(FunctionDefinitionNode(head.0.1, signature.0.0, signature.0.1, block.0, head.0.0)),
         block.1)
  }

  /** `parse_coroutine_definition`: like a function without parameters or return type. */
  function CoroutineDefinition(s: PState): (r: Step<CoroutineDefinitionNode>)
    requires s.tokens != []
    ensures Total(s, r)
    ensures Advances(s, r.state)
    ensures r.result.Ok? ==> |r.state.tokens| < |s.tokens| && r.state.stack == s.stack
                              && r.result.value.doc == GetDocComment(s)
                              && r.result.value.block.blockType == Coroutine
    ensures r.result.Err? && r.result.error.Reported? ==> r.state.stack == s.stack
  {
    var head :- DefinitionHead(s);
    var opening := CheckNextToken(CheckNextToken(CheckNextToken(head.1, LParen), RParen), LBrace);
    var block :- Block(opening, Coroutine);
    Step(Ok(CoroutineDefinitionNode(head.0.1, block.0, head.0.0)), block.1)
  }

  /** What one turn of the loop of `parse_global` leads to: another turn with the
      definitions so far, or the end of the loop with its result. */
  datatype Turn =
    | More(functions: seq<FunctionDefinitionNode>, coroutines: seq<CoroutineDefinitionNode>)
    | Ended(result: Result<RootNode, Failure>)

  /** One turn of `parse_global`: a doc comment, or a function or coroutine definition
      added to its own list, goes on; a `@process` comment here records Parse006. A failed
      definition has its error recorded and ends the program, as does any other token,
      with Parse006 (another declaration) or Parse002. The doc comment is cleared after
      each definition. */
  function GlobalItem(s: PState, functions: seq<FunctionDefinitionNode>,
                      coroutines: seq<CoroutineDefinitionNode>): (r: (Turn, PState))
    ensures NoNot(s.tokens) ==> NoNot(r.1.tokens) && r.0 != Ended(Err(Diverges))
    ensures Advances(s, r.1)
    ensures r.0.More? ==> |r.1.tokens| < |s.tokens| && r.1.stack == s.stack
                          && functions <= r.0.functions && coroutines <= r.0.coroutines
    ensures r.0.Ended? && r.0.result.Err? ==> r.0.result.error.Diverges?
    ensures r.0.Ended? && r.0.result.Ok? ==>
              r.1.stack == s.stack && r.0.result.value == RootNode(functions, coroutines)
  {
    var done := Ended(Ok(RootNode(functions, coroutines)));
    if s.tokens == [] then (done, Record(s, Exhausted))
    else
      var t := s.tokens[0];
      if t.kind == EOF then (done, s)
      else if t.kind.DocComment? then
        var d := DocComment(s);
        match d.result
        case Ok(Some(_)) => (More(functions, coroutines), Record(d.state, At(Parse006, t)))
        case Ok(None) => (More(functions, coroutines), d.state)
        case Err(_) => (done, Record(d.state, Exhausted))
      else if t.kind in {DeclarationKeyword(FunctionDecl), DeclarationKeyword(CoroutineDecl)} then
        DefinitionTurn(s, functions, coroutines)
      else if t.kind.DeclarationKeyword? then (done, Record(s, At(Parse006, t)))
      else (done, Record(s, At(Parse002, t)))
  }

  /** The turn of `parse_global` on a `function` or `coroutine` keyword. */
  function DefinitionTurn(s: PState, functions: seq<FunctionDefinitionNode>,
                          coroutines: seq<CoroutineDefinitionNode>): (r: (Turn, PState))
    requires s.tokens != [] && s.tokens[0].kind in {DeclarationKeyword(FunctionDecl),
                                                    DeclarationKeyword(CoroutineDecl)}
    ensures NoNot(s.tokens) ==> NoNot(r.1.tokens) && r.0 != Ended(Err(Diverges))
    ensures Advances(s, r.1)
    ensures r.0.More? ==> |r.1.tokens| < |s.tokens| && r.1.stack == s.stack
                          && functions <= r.0.functions && coroutines <= r.0.coroutines
    ensures r.0.Ended? && r.0.result.Err? ==> r.0.result.error.Diverges?
    ensures r.0.Ended? && r.0.result.Ok? ==>
              r.1.stack == s.stack && r.0.result.value == RootNode(functions, coroutines)
  {
    var done := Ended(Ok(RootNode(functions, coroutines)));
    if s.tokens[0].kind == DeclarationKeyword(FunctionDecl) then
      var f := FunctionDefinition(s);
      if f.result.Ok? then (More(functions + [f.result.value], coroutines), f.state.(doc := ""))
      else if f.result.error.Reported? then (done, Record(f.state, f.result.error.context))
      else (Ended(Err(Diverges)), f.state)
    else
      var c := CoroutineDefinition(s);
      if c.result.Ok? then (More(functions, coroutines + [c.result.value]), c.state.(doc := ""))
      else if c.result.error.Reported? then (done, Record(c.state, c.result.error.context))
      else (Ended(Err(Diverges)), c.state)
  }

  /** The loop of `parse_global`: turns until one ends it. Definitions go into their own
      list in source order. */
  function GlobalLoop(s: PState, functions: seq<FunctionDefinitionNode>,
                      coroutines: seq<CoroutineDefinitionNode>): (r: Step<RootNode>)
    ensures Total(s, r)
    ensures Advances(s, r.state)
    ensures r.result.Err? ==> r.result.error.Diverges?
    ensures r.result.Ok? ==> r.state.stack == s.stack && functions <= r.result.value.functions
                              && coroutines <= r.result.value.coroutines
    decreases |s.tokens|
  {
    var (turn, next) := GlobalItem(s, functions, coroutines);
    match turn
    case More(fs, cs) => GlobalLoop(next, fs, cs)
    case Ended(result) => Step(result, next)
  }

  /** `parse_program`: the global block is pushed around `parse_global`. */
  function Program(s: PState): (r: Step<RootNode>)
    ensures Total(s, r)
    ensures Advances(s, r.state)
    ensures r.result.Err? ==> r.result.error.Diverges?
    ensures r.result.Ok? ==> r.state.stack == s.stack && r.state.doc == ""
  {
    var root := GlobalLoop(PushBlock(s, Global), [], []);
    Step(root.result, PopBlock(root.state))
  }

  /** What `parse` gives back, or the endless recursion on `not`. */
  datatype Outcome = Parsed(root: RootNode, errors: seq<Error>) | Diverged

  /** `parse`: the tree and every error recorded on the way. */
  function Parse(tokens: seq<Token>): (o: Outcome)
    ensures NoNot(tokens) ==> o.Parsed?
    ensures o.Parsed? ==> Program(PState(tokens, [], [], "")).state.errors == o.errors
  {
    var r := Program(PState(tokens, [], [], ""));
    if r.result.Ok? then Parsed(r.result.value, r.state.errors) else Diverged
  }
}
