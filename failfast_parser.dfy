/** The `Parser` struct of src/parser/ast.rs: a peekable iterator over the tokens and the
    stack of the blocks being parsed, both changed in place. `tokens` is what the iterator
    has not yet produced. Every method is proved to end with the node, or the error, and
    the remaining tokens that the rule of the same name in `FailFastParsing` describes for
    the tokens and the block stack it started from. Expression methods may only move the
    iterator; statement methods restore the block stack when they succeed. */
module FailFastParsers {
  import opened Wrappers
  import opened Tokens
  import K = Keywords
  import T = Types
  import O = Operators
  import opened ErrorCodes
  import opened Decimal
  import opened FailFastParsing

  class FailFastParser {
    var tokens: seq<Token>
    var blockStack: seq<T.BlockType>

    /** `Parser::new`. */
    constructor (tokens: seq<Token>)
      ensures this.tokens == tokens && blockStack == []
    {
      this.tokens := tokens;
      blockStack := [];
    }

    /** `peek` on the iterator. */
    function Peek(): (t: Option<Token>)
      reads this
      ensures t.Some? <==> tokens != []
      ensures t.Some? ==> t.value == tokens[0]
    {
      if tokens == [] then None else Some(tokens[0])
    }

    /** `next` on the iterator. */
    method Next() returns (t: Option<Token>)
      modifies this`tokens
      ensures t == old(Peek())
      ensures tokens == Tail(old(tokens))
    {
      if tokens == [] {
        return None;
      }
      t := Some(tokens[0]);
      tokens := tokens[1..];
    }

    /** `parse_program`: the global block is pushed around the statements. */
    method ParseProgram() returns (r: Result<Node, Failure>)
      modifies this
      ensures Step(r, tokens) == Statements(old(tokens), old(blockStack) + [T.Global], T.Global)
      ensures r.Ok? ==> blockStack == old(blockStack)
    {
      blockStack := blockStack + [T.Global];
      var statements := ParseStatements(T.Global);
      if blockStack != [] {
        blockStack := blockStack[..|blockStack| - 1];
      }
      r := statements;
    }

    /** `parse_statements`: statements up to the end of the block. */
    method ParseStatements(blockType: T.BlockType) returns (r: Result<Node, Failure>)
      modifies this
      ensures Step(r, tokens) == Statements(old(tokens), old(blockStack), blockType)
      ensures r.Ok? ==> blockStack == old(blockStack)
      decreases |tokens|, 3
    {
      var children: seq<Node> := [];
      while Peek().Some?
        invariant |tokens| <= |old(tokens)| && blockStack == old(blockStack)
        invariant StatementsLoop(tokens, blockStack, blockType, children)
                  == Statements(old(tokens), old(blockStack), blockType)
        decreases |tokens|
      {
        var token := Peek().value;
        if blockType != T.Global && token.kind == RBrace {
          break;
        }
        if token.kind == EOF {
          var _ := Next();
          return Ok(Block(blockType, children));
        }
        var statement :- ParseStatement(token);
        children := children + [statement];
      }
      return Ok(Block(blockType, children));
    }

    /** `parse_statement` on the peeked token. */
    method ParseStatement(token: Token) returns (r: Result<Node, Failure>)
      requires tokens != [] && token == tokens[0]
      modifies this
      ensures Step(r, tokens) == Statement(old(tokens), old(blockStack))
      ensures r.Ok? ==> blockStack == old(blockStack)
      decreases |tokens|, 1
    {
      ghost var ts, stack := tokens, blockStack;
      match token.kind
      case Identifier(name) =>
        assert Statement(ts, stack) == CallOrAssignment(name, ts[1..]);
        var _ := Next();
        r := ParseCallOrAssignment(name);
      case ControlKeyword(keyword) =>
        if keyword == K.If {
          r := ParseIfStatement();
        } else if keyword == K.While {
          r := ParseLoopStatement();
        } else {
          r := Err(At(Parse002, token, [("token", K.ControlToString(keyword))]));
        }
      case DeclarationKeyword(keyword) =>
        if keyword == K.Let {
          assert Statement(ts, stack) == Declaration(ts[1..]);
          var _ := Next();
          r := ParseDeclaration();
        } else {
          r := ParseFunctionDefinition();
        }
      case FunctionControl(keyword) =>
        r := ParseReturn(keyword);
      case LoopControl(keyword) =>
        r := ParseJump(keyword);
      case _ =>
        return Err(Unexpected(token));
    }

    /** The `return` arm of `parse_statement`, on the peeked `return`. */
    method ParseReturn(keyword: K.FunctionControl) returns (r: Result<Node, Failure>)
      requires tokens != []
      modifies this`tokens
      ensures Step(r, tokens) == Return(old(tokens), keyword, blockStack)
    {
      if T.Function !in blockStack {
        return Err(At(Parse006, tokens[0], [("statement", K.FunctionControlToString(keyword)),
                                            ("block", "function")]));
      }
      var _ := Next();
      var returnValue :- ParseAssignable();
      var _ :- CheckNextToken(Semicolon);
      return Ok(ReturnStatement(returnValue));
    }

    /** The `break`/`continue` arm of `parse_statement`, on the peeked keyword. */
    method ParseJump(keyword: K.LoopControl) returns (r: Result<Node, Failure>)
      requires tokens != []
      modifies this`tokens
      ensures Step(r, tokens) == Jump(old(tokens), keyword, blockStack)
    {
      if T.Loop !in blockStack {
        return Err(At(Parse006, tokens[0], [("statement", K.LoopControlToString(keyword)),
                                            ("block", "loop")]));
      }
      var node := if keyword == K.Break then Break else Continue;
      var _ := Next();
      var _ :- CheckNextToken(Semicolon);
      return Ok(node);
    }

    /** The identifier arm of `parse_statement`, after the name. */
    method ParseCallOrAssignment(name: string) returns (r: Result<Node, Failure>)
      modifies this`tokens
      ensures Step(r, tokens) == CallOrAssignment(name, old(tokens))
    {
      var after :- NextToken();
      if after.kind == LParen {
        var arguments :- ParseArgument();
        // The argument list stops at `)`, so this check always succeeds.
        var _ := CheckNextToken(RParen);
        var _ :- CheckNextToken(Semicolon);
        return Ok(FunctionCall(name, arguments));
      } else if after.kind == Equal {
        var expression :- ParseExpression();
        var _ :- CheckNextToken(Semicolon);
        return Ok(VariableAssignment(name, expression));
      }
      return Err(Unexpected(after));
    }

    /** The `let` arm of `parse_statement`, after `let`. */
    method ParseDeclaration() returns (r: Result<Node, Failure>)
      modifies this`tokens
      ensures Step(r, tokens) == Declaration(old(tokens))
    {
      var nameToken :- NextToken();
      if !nameToken.kind.Identifier? {
        return Err(At(Parse005, nameToken, [("token", "変数名")]));
      }
      var _ :- CheckNextToken(Colon);
      var typeToken :- NextToken();
      if !typeToken.kind.TypeName? {
        return Err(At(Parse005, nameToken, [("token", "型")]));
      }
      var nextToken :- NextToken();
      var initializer: Option<Node>;
      if nextToken.kind == Semicolon {
        initializer := None;
      } else if nextToken.kind == Equal {
        var expression :- ParseAssignable();
        var _ :- CheckNextToken(Semicolon);
        initializer := Some(expression);
      } else {
        return Err(At(Parse005, nextToken, [("token", ";")]));
      }
      return Ok(VariableDeclaration(nameToken.kind.name, typeToken.kind.typeName, initializer));
    }

    /** The `(`, condition and `)` after `if` or `while`. */
    method ParseCondition() returns (r: Result<Node, Failure>)
      modifies this`tokens
      ensures Step(r, tokens) == Condition(old(tokens))
    {
      var _ :- CheckNextToken(LParen);
      var condition :- ParseExpression();
      var _ :- CheckNextToken(RParen);
      return Ok(condition);
    }

    /** The `{`, statements and `}` of a conditional or loop block, with the block's kind
        pushed while the statements are read and popped after them. */
    method ParseBody(blockType: T.BlockType) returns (r: Result<Node, Failure>)
      modifies this
      ensures Step(r, tokens) == Body(old(tokens), old(blockStack), blockType)
      ensures r.Ok? ==> blockStack == old(blockStack)
      decreases |tokens|, 0
    {
      var _ :- CheckNextToken(LBrace);
      blockStack := blockStack + [blockType];
      var block :- ParseStatements(blockType);
      blockStack := blockStack[..|blockStack| - 1];
      var _ :- CheckNextToken(RBrace);
      return Ok(block);
    }

    /** `parse_if_statement`, from the `if` token. */
    method ParseIfStatement() returns (r: Result<Node, Failure>)
      requires tokens != []
      modifies this
      ensures Step(r, tokens) == IfElse(old(tokens), old(blockStack))
      ensures r.Ok? ==> blockStack == old(blockStack)
      decreases |tokens|, 0
    {
      var _ := Next();
      var condition :- ParseCondition();
      var thenBlock :- ParseBody(T.Conditional);
      var elseBlock :- ParseElseBranch();
      return Ok(IfStatement(condition, thenBlock, elseBlock));
    }

    /** The `match self.tokens.peek()` of `parse_if_statement` after the then-block: an
        else block exactly when `else` comes next, nothing read otherwise. */
    method ParseElseBranch() returns (r: Result<Option<Node>, Failure>)
      modifies this
      ensures Step(r, tokens) == ElseBranch(old(tokens), old(blockStack))
      ensures r.Ok? ==> blockStack == old(blockStack)
      decreases |tokens|, 0
    {
      if Peek().Some? && Peek().value.kind == ControlKeyword(K.Else) {
        var _ := Next();
        var elseBlock :- ParseBody(T.Conditional);
        return Ok(Some(elseBlock));
      }
      return Ok(None);
    }

    /** `parse_loop_statement`, from the `while` token. */
    method ParseLoopStatement() returns (r: Result<Node, Failure>)
      requires tokens != []
      modifies this
      ensures Step(r, tokens) == While(old(tokens), old(blockStack))
      ensures r.Ok? ==> blockStack == old(blockStack)
      decreases |tokens|, 0
    {
      var _ := Next();
      var condition :- ParseCondition();
      var block :- ParseBody(T.Loop);
      return Ok(LoopStatement(condition, block));
    }

    /** `parse_function_definition`, from the `function` token; its parameter loop is
        `ParseParameters`. */
    method ParseFunctionDefinition() returns (r: Result<Node, Failure>)
      requires tokens != []
      modifies this
      ensures Step(r, tokens) == Definition(old(tokens), old(blockStack))
      ensures r.Ok? ==> blockStack == old(blockStack)
      decreases |tokens|, 0
    {
      // The caller peeked this token, so `next_token` finds it.
      var keyword := NextToken();
      if !AtGlobalLevel(blockStack) {
        return Err(At(Parse006, keyword.value, [("statement", "function"), ("block", "global_block")]));
      }
      var nameToken :- NextToken();
      if !nameToken.kind.Identifier? {
        return Err(At(Parse005, nameToken, [("token", "関数名")]));
      }
      var _ :- CheckNextToken(LParen);
      assert Definition(old(tokens), old(blockStack))
             == DefinitionBlock(nameToken.kind.name, Parameters(tokens, []), old(blockStack));
      var parameters :- ParseParameters();
      // The parameter list stops at `)`, so this check always succeeds.
      var _ := CheckNextToken(RParen);
      var _ :- CheckNextToken(LBrace);
      blockStack := blockStack + [T.Function];
      var block :- ParseStatements(T.Function);
      blockStack := blockStack[..|blockStack| - 1];
      var _ :- CheckNextToken(RBrace);
      return Ok(FunctionDefinition(nameToken.kind.name, parameters, block));
    }

    /** The parameter loop of `parse_function_definition`: `name: type` pairs separated by
        commas, up to an unconsumed `)`. */
    method ParseParameters() returns (r: Result<seq<Node>, Failure>)
      modifies this`tokens
      ensures Step(r, tokens) == Parameters(old(tokens), [])
    {
      var parameters: seq<Node> := [];
      while true
        invariant |tokens| <= |old(tokens)|
        invariant Parameters(tokens, parameters) == Parameters(old(tokens), [])
        decreases |tokens|
      {
        var token :- PeekToken();
        if token.kind == RParen {
          break;
        }
        // Peeked above, so `next_token` finds it.
        var next0 := NextToken();
        var parameterToken := next0.value;
        if !parameterToken.kind.Identifier? {
          return Err(Unexpected(parameterToken));
        }
        var _ :- CheckNextToken(Colon);
        var typeToken :- NextToken();
        if !typeToken.kind.TypeName? {
          return Err(Unexpected(typeToken));
        }
        parameters := parameters + [VariableDeclaration(parameterToken.kind.name, typeToken.kind.typeName, None)];
        var next :- PeekToken();
        if next.kind == Comma {
          var _ := Next();
        } else if next.kind == RParen {
          break;
        } else {
          return Err(Unexpected(next));
        }
      }
      return Ok(parameters);
    }

    /** `parse_argument`: assignables separated by commas, up to an unconsumed `)`. */
    method ParseArgument() returns (r: Result<seq<Node>, Failure>)
      modifies this`tokens
      ensures Step(r, tokens) == Arguments(old(tokens), [])
      decreases |tokens|, 1
    {
      var arguments: seq<Node> := [];
      while true
        invariant |tokens| <= |old(tokens)|
        invariant Arguments(tokens, arguments) == Arguments(old(tokens), [])
        decreases |tokens|
      {
        var token :- PeekToken();
        if token.kind == RParen {
          break;
        }
        var argument :- ParseAssignable();
        arguments := arguments + [argument];
        var next :- PeekToken();
        if next.kind == Comma {
          var _ := Next();
        } else if next.kind == RParen {
          break;
        } else {
          return Err(Unexpected(next));
        }
      }
      return Ok(arguments);
    }

    /** `parse_assignable`: a name followed by `(` is a call with a result. */
    method ParseAssignable() returns (r: Result<Node, Failure>)
      modifies this`tokens
      ensures Step(r, tokens) == Assignable(old(tokens))
      decreases |tokens|, 0
    {
      var token :- PeekToken();
      var kind := token.kind;
      if kind.StringLiteral? || kind.NumberLiteral? || kind.BoolLiteral? || kind == LParen
         || kind == ArithmeticOperator(Plus) || kind == ArithmeticOperator(Minus) {
        r := ParseExpression();
        return;
      } else if kind.Identifier? {
        var next :- PeekN(1);
        if next.kind == LParen {
          var _ := Next();
          var _ := Next();
          var arguments :- ParseArgument();
          // The argument list stops at `)`, so this check always succeeds.
          var _ := CheckNextToken(RParen);
          return Ok(FunctionCallWithReturn(kind.name, arguments));
        }
        r := ParseExpression();
        return;
      }
      return Err(Unexpected(token));
    }

    /** `parse_expression` and `parse_logical`. */
    method ParseExpression() returns (r: Result<Node, Failure>)
      modifies this`tokens
      ensures Step(r, tokens) == Expression(old(tokens))
    {
      r := ParseOrExpr();
    }

    /** `parse_or_expr`. */
    method ParseOrExpr() returns (r: Result<Node, Failure>)
      modifies this`tokens
      ensures Step(r, tokens) == OrExpr(old(tokens))
    {
      var left :- ParseAndExpr();
      while Peek().Some? && Peek().value.kind == OrToken
        invariant |tokens| <= |old(tokens)|
        invariant OrLoop(left, tokens) == OrExpr(old(tokens))
        decreases |tokens|
      {
        var _ := Next();
        var right :- ParseAndExpr();
        left := Logical(O.BinaryLogic(O.Or), left, Some(right));
      }
      return Ok(left);
    }

    /** `parse_and_expr`: continues on `and` and `xor`, stops at any other logical
        operator. */
    method ParseAndExpr() returns (r: Result<Node, Failure>)
      modifies this`tokens
      ensures Step(r, tokens) == AndExpr(old(tokens))
    {
      var left :- ParseNotExpr();
      while Peek().Some? && Peek().value.kind.LogicalOperator?
        invariant |tokens| <= |old(tokens)|
        invariant AndLoop(left, tokens) == AndExpr(old(tokens))
        decreases |tokens|
      {
        var operator := Peek().value.kind.logical;
        if operator.BinaryLogic? && operator.b in {O.And, O.Xor} {
          var _ := Next();
          var right :- ParseNotExpr();
          left := Logical(operator, left, Some(right));
        } else {
          break;
        }
      }
      return Ok(left);
    }

    /** `parse_not_expr`. On `not` the source calls `parse_expression` without consuming
        the token, which recurses without end; the model returns `Diverges` there. */
    method ParseNotExpr() returns (r: Result<Node, Failure>)
      modifies this`tokens
      ensures Step(r, tokens) == NotExpr(old(tokens))
    {
      var token :- PeekToken();
      if token.kind == NotToken {
        r := Err(Diverges);
      } else if token.kind.BoolLiteral? {
        r := ParseLiteral();
      } else {
        r := ParseCompare();
      }
    }

    /** `parse_compare`: the left value's result is looked at only after the right one. */
    method ParseCompare() returns (r: Result<Node, Failure>)
      modifies this`tokens
      ensures Step(r, tokens) == CompareExpr(old(tokens))
    {
      var left := ParseValue();
      var token :- PeekToken();
      if !token.kind.CompareOperator? {
        return left;
      }
      var _ := Next();
      var right :- ParseValue();
      var l :- left;
      return Ok(Compare(token.kind.comparison, l, right));
    }

    /** `parse_value`. */
    method ParseValue() returns (r: Result<Node, Failure>)
      modifies this`tokens
      ensures Step(r, tokens) == ValueExpr(old(tokens))
    {
      var token :- PeekToken();
      var kind := token.kind;
      if kind.NumberLiteral? || kind == ArithmeticOperator(Plus) || kind == ArithmeticOperator(Minus)
         || kind == LParen || kind.Identifier? {
        r := ParseAddAndSub();
      } else if kind.StringLiteral? {
        r := ParseLiteral();
      } else {
        r := Err(Unexpected(token));
      }
    }

    /** `parse_add_and_sub`: each `+` or `-` makes the tree so far its left operand. */
    method ParseAddAndSub() returns (r: Result<Node, Failure>)
      modifies this`tokens
      ensures Step(r, tokens) == AddSub(SkipsNext, old(tokens))
      decreases |tokens|, 3
    {
      var left :- ParseMulAndDiv();
      while AddOperator(tokens)
        invariant |tokens| <= |old(tokens)|
        invariant AddSubLoop(SkipsNext, left, tokens) == AddSub(SkipsNext, old(tokens))
        decreases |tokens|
      {
        // The operator was peeked, so `next_token` finds it.
        var operatorToken := NextToken();
        var operator := operatorToken.value.kind.arith;
        var right :- ParseMulAndDiv();
        left := Arithmetic(operator, left, Some(right));
      }
      return Ok(left);
    }

    /** `parse_mul_and_div`, as written: the `self.tokens.next()` after the operator drops
        the token that follows it. */
    method ParseMulAndDiv() returns (r: Result<Node, Failure>)
      modifies this`tokens
      ensures Step(r, tokens) == MulDiv(SkipsNext, old(tokens))
      decreases |tokens|, 2
    {
      var left :- ParseUnary();
      while MulOperator(tokens)
        invariant |tokens| <= |old(tokens)|
        invariant MulDivLoop(SkipsNext, left, tokens) == MulDiv(SkipsNext, old(tokens))
        decreases |tokens|
      {
        // The operator was peeked, so `next_token` finds it.
        var operatorToken := NextToken();
        var operator := operatorToken.value.kind.arith;
        var _ := Next();
        var right :- ParseUnary();
        left := Arithmetic(operator, left, Some(right));
      }
      return Ok(left);
    }

    /** `parse_unary`. */
    method ParseUnary() returns (r: Result<Node, Failure>)
      modifies this`tokens
      ensures Step(r, tokens) == UnaryExpr(SkipsNext, old(tokens))
      decreases |tokens|, 1
    {
      var token :- PeekToken();
      var kind := token.kind;
      if kind.NumberLiteral? || kind == LParen || kind.Identifier? || kind == ArithmeticOperator(Plus) {
        r := ParsePrimary();
      } else if kind == ArithmeticOperator(Minus) {
        var _ := Next();
        var number :- ParsePrimary();
        r := Ok(Arithmetic(Minus, number, None));
      } else {
        r := Err(Unexpected(token));
      }
    }

    /** `parse_primary`: the closing `)` is checked before the inner result is returned. */
    method ParsePrimary() returns (r: Result<Node, Failure>)
      modifies this`tokens
      ensures Step(r, tokens) == PrimaryExpr(SkipsNext, old(tokens))
      decreases |tokens|, 0
    {
      var token :- PeekToken();
      if token.kind.NumberLiteral? {
        r := ParseLiteral();
      } else if token.kind == LParen {
        var _ := Next();
        var expr := ParseAddAndSub();
        var _ :- CheckNextToken(RParen);
        r := expr;
      } else if token.kind.Identifier? {
        r := ParseVariable();
      } else {
        r := Err(Unexpected(token));
      }
    }

    /** `parse_variable`. */
    method ParseVariable() returns (r: Result<Node, Failure>)
      modifies this`tokens
      ensures Step(r, tokens) == VariableExpr(old(tokens))
    {
      var token :- NextToken();
      if token.kind.Identifier? {
        return Ok(Variable(token.kind.name));
      }
      return Err(Unexpected(token));
    }

    /** `parse_literal`: an `i32` numeral followed by `.` and a numeral is a float; the
        success of `str::parse::<f64>` on the joined text is `AllDigits` of the fraction. */
    method ParseLiteral() returns (r: Result<Node, Failure>)
      modifies this`tokens
      ensures Step(r, tokens) == LiteralExpr(old(tokens))
    {
      var token :- NextToken();
      match token.kind
      case StringLiteral(value) =>
        return Ok(Literal(T.StringValue(value)));
      case NumberLiteral(integer) =>
        var intValue := ParseI32(integer);
        if intValue.None? {
          return Err(At(Parse004, token, [("number", integer)]));
        }
        var next :- PeekToken();
        if next.kind != Dot {
          return Ok(Literal(T.IntValue(intValue.value)));
        }
        var _ := Next();
        var numberString := integer + ".";
        var fraction :- NextToken();
        if fraction.kind.NumberLiteral? {
          numberString := numberString + fraction.kind.digits;
          if AllDigits(fraction.kind.digits) {
            return Ok(FloatLiteral(numberString));
          }
        }
        return Err(At(Parse004, fraction, [("number", numberString)]));
      case BoolLiteral(value) =>
        return Ok(Literal(T.BoolValue(value == K.True)));
      case _ =>
        return Err(Unexpected(token));
    }

    /** `peek_token`. */
    method PeekToken() returns (r: Result<Token, Failure>)
      ensures r == FailFastParsing.PeekToken(tokens)
    {
      var token := Peek();
      if token.None? {
        return Err(Exhausted);
      }
      return Ok(token.value);
    }

    /** `next_token`. */
    method NextToken() returns (r: Result<Token, Failure>)
      modifies this`tokens
      ensures Step(r, tokens) == FailFastParsing.NextToken(old(tokens))
    {
      var token := Next();
      if token.None? {
        return Err(Exhausted);
      }
      return Ok(token.value);
    }

    /** `check_next_token`: the token is consumed whether it matches or not. */
    method CheckNextToken(kind: TokenKind) returns (r: Result<Token, Failure>)
      modifies this`tokens
      ensures Step(r, tokens) == FailFastParsing.CheckNextToken(old(tokens), kind)
    {
      var token :- NextToken();
      if token.kind == kind {
        return Ok(token);
      }
      return Err(At(Parse005, token, [("token", TokenToString(token.kind))]));
    }

    /** `peek_n`: a clone of the iterator is advanced, so nothing is consumed. */
    method PeekN(n: nat) returns (r: Result<Token, Failure>)
      ensures r == FailFastParsing.PeekN(tokens, n)
    {
      if n < |tokens| {
        return Ok(tokens[n]);
      }
      return Err(Exhausted);
    }
  }

  /** `parse`. */
  method Parse(tokens: seq<Token>) returns (r: Result<Node, Failure>)
    ensures r == FailFastParsing.Parse(tokens)
  {
    var parser := new FailFastParser(tokens);
    assert [] + [T.Global] == [T.Global];
    r := parser.ParseProgram();
  }
}
