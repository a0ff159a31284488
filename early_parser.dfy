/** The `Parser` struct of src/parser.rs: a peekable iterator over the tokens, consumed in
    place by every method. `tokens` is what the iterator has not yet produced. Each method
    is proved to end with the node and the remaining tokens, or with the error, that the
    function of the same rule in `EarlyParsing` describes. */
module EarlyParsers {
  import opened Wrappers
  import opened EarlyParsing

  /** A method's result and the tokens it left, as the rule functions return them. */
  function Settled(r: Result<Node, ParseError>, rest: seq<Token>): Parsed {
    match r
    case Ok(n) => Ok((n, rest))
    case Err(e) => Err(e)
  }

  class Parser {
    var tokens: seq<Token>

    /** `Parser::new`. */
    constructor (tokens: seq<Token>)
      ensures this.tokens == tokens
    {
      this.tokens := tokens;
    }

    /** `peek` on the iterator. */
    function Peek(): (t: Option<Token>)
      reads this
      ensures t.Some? <==> tokens != []
      ensures t.Some? ==> t.value == tokens[0]
    {
      if tokens == [] then None else Some(tokens[0])
    }

    /** `next` on the iterator. */
    method Next() returns (t: Option<Token>)
      modifies this
      ensures t == old(Peek())
      ensures tokens == if old(tokens) == [] then [] else old(tokens)[1..]
    {
      if tokens == [] {
        return None;
      }
      t := Some(tokens[0]);
      tokens := tokens[1..];
    }

    /** `parse_program`. */
    method ParseProgram() returns (r: Result<Node, ParseError>)
      modifies this
      ensures Settled(r, tokens) == ProgramNode(old(tokens))
    {
      var children: seq<Node> := [];
      while Peek().Some?
        invariant ProgramLoop(tokens, children) == ProgramNode(old(tokens))
        decreases |tokens|
      {
        var token := Peek().value;
        if token.kind.FunctionName? {
          var call :- ParseFunctionCall();
          children := children + [call];
        } else if token.kind == EOF {
          var _ := Next();
          assert ProgramNode(old(tokens)) == Ok((Node(Program, children), tokens));
          return Ok(Node(Program, children));
        } else {
          return Err(UnexpectedToken("program", token));
        }
      }
      return Ok(Node(Program, children));
    }

    /** `parse_function_call`. */
    method ParseFunctionCall() returns (r: Result<Node, ParseError>)
      modifies this
      ensures Settled(r, tokens) == Call(old(tokens))
    {
      var token := Next();
      if token.None? {
        return Err(Message("トークンが不足"));
      }
      if !token.value.kind.FunctionName? {
        return Err(Message("想定外の関数呼び出し"));
      }
      var name := token.value.kind.name;
      token := Next();
      if token.None? {
        return Err(Message("'('が不足"));
      }
      if token.value.kind != LParen {
        return Err(Message("関数名の後には'('が必要"));
      }
      var argument :- ParseArgument();
      token := Next();
      if token.None? {
        return Err(Message("')'が不足"));
      }
      if token.value.kind != RParen {
        return Err(Message("引数の後には')'が必要"));
      }
      token := Next();
      if token.None? {
        return Err(Message("';'が不足"));
      }
      if token.value.kind != Semicolon {
        return Err(Message("関数呼び出しの後には';'が必要"));
      }
      return Ok(Node(FunctionCall(name), [argument]));
    }

    /** `parse_argument`. */
    method ParseArgument() returns (r: Result<Node, ParseError>)
      modifies this
      ensures Settled(r, tokens) == ArgumentNode(old(tokens))
    {
      if Peek().None? {
        return Err(Message("トークンが空"));
      }
      var kind := Peek().value.kind;
      if kind.Str? || kind.Number? || kind.AddAndSubOperator? || kind == LParen {
        var expression :- ParseExpression();
        return Ok(Node(Argument, [expression]));
      } else if kind.Bool? {
        // `parse_bool` cannot fail on the boolean just peeked.
        var value := ParseBool();
        return Ok(Node(Argument, [value.value]));
      }
      return Err(Message("引数は(string, number, bool)のみ"));
    }

    /** `parse_expression`. */
    method ParseExpression() returns (r: Result<Node, ParseError>)
      modifies this
      ensures Settled(r, tokens) == ExpressionNode(old(tokens))
    {
      var compare :- ParseCompare();
      return Ok(Node(Expression, [compare]));
    }

    /** `parse_compare`. */
    method ParseCompare() returns (r: Result<Node, ParseError>)
      modifies this
      ensures Settled(r, tokens) == CompareExpr(old(tokens))
    {
      var left :- ParseValue();
      if Peek().None? {
        return Err(Message("トークンが空"));
      }
      var kind := Peek().value.kind;
      if !kind.CompareOperator? {
        return Ok(Node(Compare(""), [left]));
      }
      var _ := Next();
      var right :- ParseValue();
      return Ok(Node(Compare(kind.op), [left, right]));
    }

    /** `parse_value`. */
    method ParseValue() returns (r: Result<Node, ParseError>)
      modifies this
      ensures Settled(r, tokens) == Value(old(tokens))
    {
      if Peek().None? {
        return Err(Message("トークンが空"));
      }
      var token := Peek().value;
      if token.kind.Number? || token.kind.AddAndSubOperator? || token.kind == LParen {
        r := ParseAddAndSub();
      } else if token.kind.Str? {
        r := ParseString();
      } else {
        r := Err(UnexpectedToken("value", token));
      }
    }

    /** `parse_add_and_sub`: the loop rebinds `left` to a new node over the old one. */
    method ParseAddAndSub() returns (r: Result<Node, ParseError>)
      modifies this
      ensures Settled(r, tokens) == AddSub(old(tokens))
      decreases |tokens|, 3
    {
      var left :- ParseMulAndDiv();
      while Peek().Some? && Peek().value.kind.AddAndSubOperator?
        invariant SumForm(left) && |tokens| < |old(tokens)|
        invariant AddSubLoop(left, tokens) == AddSub(old(tokens))
        decreases |tokens|
      {
        var operator := Peek().value.kind.op;
        var _ := Next();
        var right :- ParseMulAndDiv();
        left := Node(AddAndSub(operator), [left, right]);
      }
      return Ok(left);
    }

    /** `parse_mul_and_div`. */
    method ParseMulAndDiv() returns (r: Result<Node, ParseError>)
      modifies this
      ensures Settled(r, tokens) == MulDiv(old(tokens))
      decreases |tokens|, 2
    {
      var left :- ParseUnary();
      while Peek().Some? && Peek().value.kind.MulAndDivOperator?
        invariant ProductForm(left) && |tokens| < |old(tokens)|
        invariant MulDivLoop(left, tokens) == MulDiv(old(tokens))
        decreases |tokens|
      {
        var operator := Peek().value.kind.op;
        var _ := Next();
        var right :- ParseUnary();
        left := Node(MulAndDiv(operator), [left, right]);
      }
      return Ok(left);
    }

    /** `parse_unary`. */
    method ParseUnary() returns (r: Result<Node, ParseError>)
      modifies this
      ensures Settled(r, tokens) == UnaryExpr(old(tokens))
      decreases |tokens|, 1
    {
      if Peek().None? {
        return Err(Message("空のノード"));
      }
      var token := Peek().value;
      if token.kind.Number? || token.kind == LParen {
        var number :- ParsePrimary();
        return Ok(Node(Unary("+"), [number]));
      } else if token.kind.AddAndSubOperator? {
        var _ := Next();
        var number :- ParsePrimary();
        return Ok(Node(Unary(token.kind.op), [number]));
      }
      return Err(UnexpectedToken("unary", token));
    }

    /** `parse_primary`. */
    method ParsePrimary() returns (r: Result<Node, ParseError>)
      modifies this
      ensures Settled(r, tokens) == PrimaryExpr(old(tokens))
      decreases |tokens|, 0
    {
      if Peek().None? {
        return Err(Message("トークンが空"));
      }
      var token := Peek().value;
      if token.kind.Number? {
        // `parse_number` cannot fail on the number just peeked.
        var number := ParseNumber();
        return Ok(Node(Primary, [number.value]));
      } else if token.kind == LParen {
        var _ := Next();
        var expr :- ParseAddAndSub();
        var close := Next();
        if close.None? {
          return Err(Message("トークンが空"));
        }
        if close.value.kind == RParen {
          return Ok(Node(Primary, [expr]));
        }
        return Err(Message("計算式の')'が必要"));
      }
      return Err(UnexpectedToken("primary", token));
    }

    /** `parse_string`. */
    method ParseString() returns (r: Result<Node, ParseError>)
      modifies this
      ensures Settled(r, tokens) == StringLit(old(tokens))
    {
      var token := Next();
      if token.None? {
        return Err(Message("トークンが空"));
      }
      if token.value.kind.Str? {
        return Ok(Node(StringNode(token.value.kind.text), []));
      }
      return Err(Message("想定外のString型"));
    }

    /** `parse_number`. */
    method ParseNumber() returns (r: Result<Node, ParseError>)
      modifies this
      ensures Settled(r, tokens) == NumberLit(old(tokens))
    {
      var token := Next();
      if token.None? {
        return Err(Message("空のトークン"));
      }
      if token.value.kind.Number? {
        return Ok(Node(NumberNode(token.value.kind.number), []));
      }
      return Err(Message("想定外のNumber型"));
    }

    /** `parse_bool`. */
    method ParseBool() returns (r: Result<Node, ParseError>)
      modifies this
      ensures Settled(r, tokens) == BoolLit(old(tokens))
    {
      var token := Next();
      if token.None? {
        return Err(Message("空のトークン"));
      }
      if token.value.kind.Bool? {
        return Ok(Node(BoolNode(token.value.kind.b), []));
      }
      return Err(Message("想定外のbool型"));
    }
  }

  /** `parse`. */
  method Parse(tokens: seq<Token>) returns (r: Result<Node, ParseError>)
    ensures r == EarlyParsing.Parse(tokens)
  {
    var parser := new Parser(tokens);
    var node :- parser.ParseProgram();
    return Ok(node);
  }
}
