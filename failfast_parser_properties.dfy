/** What the rules of `FailFastParsing` promise: how blocks end, that the first error ends
    the parse, where `return`, `break`, `continue` and function definitions may stand, the
    order of parameters, left-associative operator chains (and the token that
    `parse_mul_and_div` drops), literals and the optional else branch. */
module FailFastParsingProperties {
  import opened Wrappers
  import opened Tokens
  import K = Keywords
  import O = Operators
  import T = Types
  import opened ErrorCodes
  import opened ErrorContexts
  import opened Decimal
  import opened FailFastParsing

  // ----- blocks and the first error -----

  /** A block ends, keeping the children read so far, when the tokens run out, before a
      `}` unless it is the global block, and at an EOF, which it consumes; a `}` in the
      global block is an unexpected token. */
  lemma BlockEnds(ts: seq<Token>, stack: seq<T.BlockType>, blockType: T.BlockType, children: seq<Node>)
    ensures ts == [] ==> StatementsLoop(ts, stack, blockType, children) == Step(Ok(Block(blockType, children)), [])
    ensures ts != [] && ts[0].kind == RBrace && blockType != T.Global ==>
              StatementsLoop(ts, stack, blockType, children) == Step(Ok(Block(blockType, children)), ts)
    ensures ts != [] && ts[0].kind == EOF ==>
              StatementsLoop(ts, stack, blockType, children) == Step(Ok(Block(blockType, children)), ts[1..])
    ensures ts != [] && ts[0].kind == RBrace && blockType == T.Global ==>
              StatementsLoop(ts, stack, blockType, children) == Step(Err(Unexpected(ts[0])), ts)
  {
  }

  /** The first statement that fails ends its block, and with it the parse, with that
      statement's error and the tokens it stopped at. */
  lemma FirstFailureAborts(ts: seq<Token>, stack: seq<T.BlockType>, blockType: T.BlockType,
                           children: seq<Node>)
    requires ts != [] && !BlockEnd(ts, blockType) && ts[0].kind != EOF
    requires Statement(ts, stack).result.Err?
    ensures StatementsLoop(ts, stack, blockType, children) == Statement(ts, stack).PropagateFailure()
  {
  }

  /** A statement that succeeds is appended and the block goes on after it. */
  lemma StatementAppended(ts: seq<Token>, stack: seq<T.BlockType>, blockType: T.BlockType,
                          children: seq<Node>)
    requires ts != [] && !BlockEnd(ts, blockType) && ts[0].kind != EOF
    requires Statement(ts, stack).result.Ok?
    ensures StatementsLoop(ts, stack, blockType, children)
            == StatementsLoop(Statement(ts, stack).rest, stack, blockType,
                              children + [Statement(ts, stack).result.value])
  {
  }

  /** `parse` fails exactly when the global block fails, with its error. */
  lemma ParseFailsFast(ts: seq<Token>)
    ensures Parse(ts).Err? <==> Statements(ts, [T.Global], T.Global).result.Err?
    ensures Parse(ts).Err? ==> Parse(ts).error == Statements(ts, [T.Global], T.Global).result.error
  {
  }

  // ----- where statements may stand -----

  /** A Parse006 report. */
  predicate Misplaced(r: Result<Node, Failure>) {
    r.Err? && r.error.Reported? && r.error.context.errorCode == Parse006
  }

  /** `return` is rejected with Parse006, at the keyword and without consuming it, exactly
      when no enclosing block is a function body. */
  lemma ReturnNeedsFunction(ts: seq<Token>, stack: seq<T.BlockType>)
    requires ts != [] && ts[0].kind.FunctionControl?
    ensures T.Function !in stack ==>
              Statement(ts, stack) == Step(Err(At(Parse006, ts[0], [("statement", "return"),
                                                                   ("block", "function")])), ts)
    ensures Misplaced(Statement(ts, stack).result) <==> T.Function !in stack
  {
  }

  /** `break` and `continue` are rejected with Parse006 exactly when no enclosing block is
      a loop body. */
  lemma LoopControlNeedsLoop(ts: seq<Token>, stack: seq<T.BlockType>)
    requires ts != [] && ts[0].kind.LoopControl?
    ensures T.Loop !in stack ==>
              Statement(ts, stack)
              == Step(Err(At(Parse006, ts[0], [("statement", K.LoopControlToString(ts[0].kind.loopControl)),
                                               ("block", "loop")])), ts)
    ensures Misplaced(Statement(ts, stack).result) <==> T.Loop !in stack
  {
  }

  /** A function definition inside any non-global block, whatever encloses it, is
      rejected with Parse006 at the `function` keyword, which is consumed. */
  lemma NestedDefinitionRejected(ts: seq<Token>, stack: seq<T.BlockType>, blockType: T.BlockType)
    requires ts != [] && ts[0].kind == DeclarationKeyword(K.Function)
    requires blockType != T.Global
    ensures Statement(ts, stack + [blockType])
            == Step(Err(At(Parse006, ts[0], [("statement", "function"), ("block", "global_block")])), ts[1..])
  {
  }

  /** `return` is accepted at any depth below a function body. */
  lemma ReturnInNestedBlock(ts: seq<Token>, stack: seq<T.BlockType>, blockType: T.BlockType)
    requires ts != [] && ts[0].kind.FunctionControl? && T.Function in stack
    ensures !Misplaced(Statement(ts, stack + [blockType]).result)
  {
    ReturnNeedsFunction(ts, stack + [blockType]);
  }

  // ----- parameters -----

  /** `xs` begins with the parameters `ps` spelled as `name: type` pairs separated by
      commas, with a comma after the last one when `trailing` holds, and then `)`. */
  predicate Spelled(xs: seq<Token>, ps: seq<(string, K.TypeName)>, trailing: bool)
    decreases |ps|
  {
    if ps == [] then xs != [] && xs[0].kind == RParen
    else
      |xs| >= 4 && xs[0].kind == Identifier(ps[0].0) && xs[1].kind == Colon && xs[2].kind == TypeName(ps[0].1) &&
      if |ps| == 1 && !trailing then xs[3].kind == RParen
      else xs[3].kind == Comma && Spelled(xs[4..], ps[1..], trailing)
  }

  /** The number of tokens that spell the parameters, up to the `)`. */
  function Width(ps: seq<(string, K.TypeName)>, trailing: bool): nat {
    if ps == [] then 0 else 4 * |ps| - (if trailing then 0 else 1)
  }

  /** The declarations the parameters become: no initializer, in source order. */
  function Declarations(ps: seq<(string, K.TypeName)>): (d: seq<Node>)
    ensures |d| == |ps|
  {
    seq(|ps|, i requires 0 <= i < |ps| => VariableDeclaration(ps[i].0, ps[i].1, None))
  }

  /** The accumulator of the parameter loop grows by one declaration per round. */
  lemma DeclarationsStep(declared: seq<Node>, ps: seq<(string, K.TypeName)>)
    requires ps != []
    ensures declared + [VariableDeclaration(ps[0].0, ps[0].1, None)] + Declarations(ps[1..])
            == declared + Declarations(ps)
  {
    assert Declarations(ps) == [VariableDeclaration(ps[0].0, ps[0].1, None)] + Declarations(ps[1..]) by {
      assert forall i :: 0 <= i < |ps| - 1 ==> Declarations(ps[1..])[i] == Declarations(ps)[i + 1];
    }
  }

  /** The first parameter's tokens, and what spells the others. */
  lemma SpelledHead(xs: seq<Token>, ps: seq<(string, K.TypeName)>, trailing: bool)
    requires ps != [] && Spelled(xs, ps, trailing)
    ensures |xs| >= 4 && xs[0].kind == Identifier(ps[0].0) && xs[1].kind == Colon && xs[2].kind == TypeName(ps[0].1)
    ensures |ps| == 1 && !trailing ==> xs[3].kind == RParen && Width(ps, trailing) == 3
    ensures |ps| > 1 || trailing ==>
              xs[3].kind == Comma && Spelled(xs[4..], ps[1..], trailing)
              && Width(ps, trailing) == 4 + Width(ps[1..], trailing)
  {
  }

  /** One round of the parameter loop over `name : type` and the token after it. */
  lemma ParameterRound(xs: seq<Token>, declared: seq<Node>)
    requires |xs| >= 4 && xs[0].kind.Identifier? && xs[1].kind == Colon && xs[2].kind.TypeName?
    ensures xs[3].kind == Comma ==>
              Parameters(xs, declared)
              == Parameters(xs[4..], declared + [VariableDeclaration(xs[0].kind.name, xs[2].kind.typeName, None)])
    ensures xs[3].kind == RParen ==>
              Parameters(xs, declared)
              == Step(Ok(declared + [VariableDeclaration(xs[0].kind.name, xs[2].kind.typeName, None)]), xs[3..])
  {
    assert CheckNextToken(xs[1..], Colon) == Step(Ok(xs[1]), xs[2..]);
    assert NextToken(xs[2..]) == Step(Ok(xs[2]), xs[3..]);
    assert xs[3..][1..] == xs[4..];
  }

  /** A parameter list, with or without a comma before the `)`, becomes one declaration
      per parameter, in order, each without initializer; exactly the tokens that spell
      the parameters are read and the `)` is left. */
  lemma {:induction false} ParametersInOrder(xs: seq<Token>, ps: seq<(string, K.TypeName)>, trailing: bool,
                                             declared: seq<Node>)
    requires Spelled(xs, ps, trailing)
    ensures Width(ps, trailing) < |xs| && xs[Width(ps, trailing)].kind == RParen
    ensures Parameters(xs, declared) == Step(Ok(declared + Declarations(ps)), xs[Width(ps, trailing)..])
    decreases |ps|
  {
    if ps == [] {
      assert declared + Declarations(ps) == declared;
    } else {
      var d := VariableDeclaration(ps[0].0, ps[0].1, None);
      SpelledHead(xs, ps, trailing);
      ParameterRound(xs, declared);
      DeclarationsStep(declared, ps);
      assert xs[0].kind.name == ps[0].0 && xs[2].kind.typeName == ps[0].1;
      if |ps| > 1 || trailing {
        ParametersInOrder(xs[4..], ps[1..], trailing, declared + [d]);
        assert xs[4..][Width(ps[1..], trailing)..] == xs[Width(ps, trailing)..];
      } else {
        assert declared + [d] + Declarations(ps[1..]) == declared + [d];
      }
    }
  }

  // ----- operator chains -----

  /** One step of an operator chain: the operator and a name as its right operand. */
  datatype Link = Link(operator: Token, operand: Token)

  /** The tokens of a chain without anything between operator and operand. */
  function ChainTokens(links: seq<Link>): seq<Token>
    decreases |links|
  {
    if links == [] then [] else [links[0].operator, links[0].operand] + ChainTokens(links[1..])
  }

  /** The tokens of a chain with one extra token after every operator. */
  function PaddedTokens(links: seq<Link>, padding: seq<Token>): seq<Token>
    requires |padding| == |links|
    decreases |links|
  {
    if links == [] then []
    else [links[0].operator, padding[0], links[0].operand] + PaddedTokens(links[1..], padding[1..])
  }

  /** The left-associative tree: every operator takes the tree so far as its left operand. */
  function LeftFold(left: Node, links: seq<Link>): Node
    requires forall i :: 0 <= i < |links| ==> links[i].operator.kind.ArithmeticOperator?
    requires forall i :: 0 <= i < |links| ==> links[i].operand.kind.Identifier?
    decreases |links|
  {
    if links == [] then left
    else LeftFold(Arithmetic(links[0].operator.kind.arith, left,
                             Some(Variable(links[0].operand.kind.name))), links[1..])
  }

  predicate ProductChain(links: seq<Link>) {
    forall i :: 0 <= i < |links| ==> MulOperator([links[i].operator]) && links[i].operand.kind.Identifier?
  }

  predicate SumChain(links: seq<Link>) {
    forall i :: 0 <= i < |links| ==> AddOperator([links[i].operator]) && links[i].operand.kind.Identifier?
  }

  /** A name is read as a variable by `parse_unary`, which leaves what follows. */
  lemma NameOperand(m: Multiplicative, x: Token, rest: seq<Token>)
    requires x.kind.Identifier?
    ensures UnaryExpr(m, [x] + rest) == Step(Ok(Variable(x.kind.name)), rest)
  {
    assert ([x] + rest)[1..] == rest;
  }

  /** One round of the `*`/`/` loop: the operand read after the operator becomes the
      right operand of a node over the tree so far. */
  lemma MulDivRound(m: Multiplicative, left: Node, ts: seq<Token>)
    requires MulOperator(ts) && UnaryExpr(m, Operand(m, ts)).result.Ok?
    ensures MulDivLoop(m, left, ts)
            == MulDivLoop(m, Arithmetic(ts[0].kind.arith, left, Some(UnaryExpr(m, Operand(m, ts)).result.value)),
                          UnaryExpr(m, Operand(m, ts)).rest)
  {
  }

  /** One round of the `+`/`-` loop. */
  lemma AddSubRound(m: Multiplicative, left: Node, ts: seq<Token>)
    requires AddOperator(ts) && MulDiv(m, ts[1..]).result.Ok?
    ensures AddSubLoop(m, left, ts)
            == AddSubLoop(m, Arithmetic(ts[0].kind.arith, left, Some(MulDiv(m, ts[1..]).result.value)),
                          MulDiv(m, ts[1..]).rest)
  {
  }

  /** One link of a `*`/`/` chain with the operand kept. */
  lemma ProductLink(left: Node, l: Link, rest: seq<Token>)
    requires MulOperator([l.operator]) && l.operand.kind.Identifier?
    ensures MulDivLoop(KeepsNext, left, [l.operator, l.operand] + rest)
            == MulDivLoop(KeepsNext, Arithmetic(l.operator.kind.arith, left, Some(Variable(l.operand.kind.name))), rest)
  {
    var ts := [l.operator, l.operand] + rest;
    assert MulOperator(ts) by { assert ts[0] == l.operator; }
    assert Operand(KeepsNext, ts) == [l.operand] + rest;
    NameOperand(KeepsNext, l.operand, rest);
    MulDivRound(KeepsNext, left, ts);
  }

  /** With the operand kept, `*` and `/` chains are left-associative. */
  lemma {:induction false} ProductLeftAssociative(left: Node, links: seq<Link>, w: seq<Token>)
    requires ProductChain(links) && !MulOperator(w)
    ensures MulDivLoop(KeepsNext, left, ChainTokens(links) + w) == Step(Ok(LeftFold(left, links)), w)
    decreases |links|
  {
    if links != [] {
      var l := links[0];
      assert ChainTokens(links) + w == [l.operator, l.operand] + (ChainTokens(links[1..]) + w);
      ProductLink(left, l, ChainTokens(links[1..]) + w);
      ProductLeftAssociative(Arithmetic(l.operator.kind.arith, left, Some(Variable(l.operand.kind.name))),
                             links[1..], w);
    }
  }

  /** As written, whatever token follows each `*` or `/` is dropped: a chain padded with
      one arbitrary token after every operator gives the tree of the unpadded chain. */
  lemma {:induction false} ProductDropsToken(left: Node, links: seq<Link>, padding: seq<Token>, w: seq<Token>)
    requires ProductChain(links) && !MulOperator(w) && |padding| == |links|
    ensures MulDivLoop(SkipsNext, left, PaddedTokens(links, padding) + w) == Step(Ok(LeftFold(left, links)), w)
    decreases |links|
  {
    if links != [] {
      var l := links[0];
      var rest := PaddedTokens(links[1..], padding[1..]) + w;
      var ts := PaddedTokens(links, padding) + w;
      assert ts == [l.operator, padding[0], l.operand] + rest;
      assert MulOperator(ts) by { assert ts[0] == l.operator; }
      assert Operand(SkipsNext, ts) == [l.operand] + rest;
      NameOperand(SkipsNext, l.operand, rest);
      MulDivRound(SkipsNext, left, ts);
      ProductDropsToken(Arithmetic(l.operator.kind.arith, left, Some(Variable(l.operand.kind.name))),
                        links[1..], padding[1..], w);
    }
  }

  /** `+` and `-` chains are left-associative, however `*` and `/` are read. */
  lemma {:induction false} SumLeftAssociative(m: Multiplicative, left: Node, links: seq<Link>, w: seq<Token>)
    requires SumChain(links) && !AddOperator(w) && !MulOperator(w)
    ensures AddSubLoop(m, left, ChainTokens(links) + w) == Step(Ok(LeftFold(left, links)), w)
    decreases |links|
  {
    if links != [] {
      var l := links[0];
      var rest := ChainTokens(links[1..]) + w;
      var ts := ChainTokens(links) + w;
      assert ts == [l.operator, l.operand] + rest;
      assert AddOperator(ts) by { assert ts[0] == l.operator; }
      assert ts[1..] == [l.operand] + rest;
      NameOperand(m, l.operand, rest);
      assert !MulOperator(rest) by {
        if links[1..] != [] {
          assert rest[0] == links[1].operator;
          assert AddOperator([links[1].operator]);
        } else {
          assert rest == w;
        }
      }
      assert MulDiv(m, ts[1..]) == Step(Ok(Variable(l.operand.kind.name)), rest);
      AddSubRound(m, left, ts);
      SumLeftAssociative(m, Arithmetic(l.operator.kind.arith, left, Some(Variable(l.operand.kind.name))),
                         links[1..], w);
    }
  }

  /** `a * b;` as written: `b` is dropped and the `;` is read as the right operand, which
      `parse_unary` rejects; with the operand kept it is the product of `a` and `b`. */
  lemma ProductOfTwoNames(a: Token, times: Token, b: Token, semicolon: Token)
    requires a.kind.Identifier? && b.kind.Identifier?
    requires times.kind == ArithmeticOperator(Multiply) && semicolon.kind == Semicolon
    ensures MulDiv(SkipsNext, [a, times, b, semicolon]) == Step(Err(Unexpected(semicolon)), [semicolon])
    ensures MulDiv(KeepsNext, [a, times, b, semicolon])
            == Step(Ok(Arithmetic(Multiply, Variable(a.kind.name), Some(Variable(b.kind.name)))), [semicolon])
  {
    var ts := [a, times, b, semicolon];
    assert ts == [a] + [times, b, semicolon];
    NameOperand(SkipsNext, a, [times, b, semicolon]);
    NameOperand(KeepsNext, a, [times, b, semicolon]);
    assert Operand(SkipsNext, [times, b, semicolon]) == [semicolon];
    assert UnaryExpr(SkipsNext, [semicolon]) == Step(Err(Unexpected(semicolon)), [semicolon]);
    assert MulDivLoop(SkipsNext, Variable(a.kind.name), [times, b, semicolon])
           == Step(Err(Unexpected(semicolon)), [semicolon]);
    assert Operand(KeepsNext, [times, b, semicolon]) == [b] + [semicolon];
    NameOperand(KeepsNext, b, [semicolon]);
    MulDivRound(KeepsNext, Variable(a.kind.name), [times, b, semicolon]);
  }

  /** A unary `+` is handed on unconsumed to `parse_primary`, which rejects it. */
  lemma UnaryPlusRejected(m: Multiplicative, ts: seq<Token>)
    requires ts != [] && ts[0].kind == ArithmeticOperator(Plus)
    ensures UnaryExpr(m, ts) == Step(Err(Unexpected(ts[0])), ts)
  {
  }

  /** A unary `-` has its primary as left operand and no right operand. */
  lemma UnaryMinus(m: Multiplicative, minus: Token, x: Token, rest: seq<Token>)
    requires minus.kind == ArithmeticOperator(Minus) && x.kind.Identifier?
    ensures UnaryExpr(m, [minus, x] + rest) == Step(Ok(Arithmetic(Minus, Variable(x.kind.name), None)), rest)
  {
    assert ([minus, x] + rest)[1..] == [x] + rest;
    assert ([x] + rest)[1..] == rest;
  }

  // ----- expressions -----

  /** An expression that starts with `not` never returns. */
  lemma NotDiverges(ts: seq<Token>)
    requires ts != [] && ts[0].kind == NotToken
    ensures Expression(ts) == Step(Err(Diverges), ts)
  {
  }

  /** When both values of a comparison fail, the right one's error is reported. */
  lemma ComparisonRightErrorWins(ts: seq<Token>)
    requires ValueExpr(ts).result.Err?
    requires ValueExpr(ts).rest != [] && ValueExpr(ts).rest[0].kind.CompareOperator?
    requires ValueExpr(ValueExpr(ts).rest[1..]).result.Err?
    ensures CompareExpr(ts) == ValueExpr(ValueExpr(ts).rest[1..])
  {
  }

  /** Without a comparison operator behind it, a value's own result, error included, is
      the comparison's. */
  lemma ComparisonOfOneValue(ts: seq<Token>)
    requires ValueExpr(ts).rest != [] && !ValueExpr(ts).rest[0].kind.CompareOperator?
    ensures CompareExpr(ts) == ValueExpr(ts)
  {
  }

  /** A missing `)` is reported even over an error inside the parentheses. */
  lemma MissingParenthesisWins(m: Multiplicative, ts: seq<Token>)
    requires ts != [] && ts[0].kind == LParen
    requires AddSub(m, ts[1..]).rest != [] && AddSub(m, ts[1..]).rest[0].kind != RParen
    ensures PrimaryExpr(m, ts).result
            == Err(At(Parse005, AddSub(m, ts[1..]).rest[0], [("token", TokenToString(AddSub(m, ts[1..]).rest[0].kind))]))
  {
  }

  // ----- literals -----

  /** An i32 numeral followed by anything but `.` is an Int literal. */
  lemma IntegerLiteral(t: Token, w: seq<Token>)
    requires t.kind.NumberLiteral? && ParseI32(t.kind.digits).Some?
    requires w != [] && w[0].kind != Dot
    ensures LiteralExpr([t] + w) == Step(Ok(Literal(T.IntValue(ParseI32(t.kind.digits).value))), w)
  {
    assert ([t] + w)[1..] == w;
  }

  /** An i32 numeral that is the very last token is Parse003: the source peeks for `.`. */
  lemma IntegerAtEnd(t: Token)
    requires t.kind.NumberLiteral? && ParseI32(t.kind.digits).Some?
    ensures LiteralExpr([t]) == Step(Err(Exhausted), [])
  {
  }

  /** Numeral, `.`, numeral of digits is a float literal of the joined text. */
  lemma FloatNumeral(i: Token, dot: Token, d: Token, w: seq<Token>)
    requires i.kind.NumberLiteral? && ParseI32(i.kind.digits).Some?
    requires dot.kind == Dot && d.kind.NumberLiteral? && AllDigits(d.kind.digits)
    ensures LiteralExpr([i, dot, d] + w) == Step(Ok(FloatLiteral(i.kind.digits + "." + d.kind.digits)), w)
  {
    assert ([i, dot, d] + w)[1..] == [dot, d] + w;
    assert ([dot, d] + w)[1..] == [d] + w;
    assert ([d] + w)[1..] == w;
  }

  // ----- the else branch -----

  /** `(`, an expression and `)` are read as that condition. */
  lemma ConditionRead(ts: seq<Token>, condition: Node, mid: seq<Token>)
    requires ts != [] && ts[0].kind == LParen
    requires Expression(ts[1..]) == Step(Ok(condition), mid)
    requires mid != [] && mid[0].kind == RParen
    ensures Condition(ts) == Step(Ok(condition), mid[1..])
  {
    assert CheckNextToken(ts, LParen) == Step(Ok(ts[0]), ts[1..]);
    assert CheckNextToken(mid, RParen) == Step(Ok(mid[0]), mid[1..]);
  }

  /** `{`, statements and `}` are read as that block. */
  lemma BodyRead(ts: seq<Token>, stack: seq<T.BlockType>, blockType: T.BlockType, block: Node,
                 after: seq<Token>)
    requires ts != [] && ts[0].kind == LBrace
    requires Statements(ts[1..], stack + [blockType], blockType) == Step(Ok(block), after)
    requires after != [] && after[0].kind == RBrace
    ensures Body(ts, stack, blockType) == Step(Ok(block), after[1..])
  {
    assert CheckNextToken(ts, LBrace) == Step(Ok(ts[0]), ts[1..]);
    assert CheckNextToken(after, RBrace) == Step(Ok(after[0]), after[1..]);
  }

  /** An `if` whose condition and then-block are read goes on with the else branch that
      follows the then-block's `}`. */
  lemma IfThenRead(ts: seq<Token>, stack: seq<T.BlockType>, condition: Node, mid: seq<Token>,
                   thenBlock: Node, after: seq<Token>)
    requires |ts| >= 2 && ts[1].kind == LParen
    requires Expression(ts[2..]) == Step(Ok(condition), mid)
    requires |mid| >= 2 && mid[0].kind == RParen && mid[1].kind == LBrace
    requires Statements(mid[2..], stack + [T.Conditional], T.Conditional) == Step(Ok(thenBlock), after)
    requires after != [] && after[0].kind == RBrace
    ensures IfElse(ts, stack)
            == match ElseBranch(after[1..], stack).result
               case Ok(e) => Step(Ok(IfStatement(condition, thenBlock, e)), ElseBranch(after[1..], stack).rest)
               case Err(f) => Step(Err(f), ElseBranch(after[1..], stack).rest)
  {
    assert ts[1..][1..] == ts[2..];
    ConditionRead(ts[1..], condition, mid);
    assert mid[1..][1..] == mid[2..];
    BodyRead(mid[1..], stack, T.Conditional, thenBlock, after);
  }

  /** Such an `if` ends with the else branch: present exactly when `else` comes next, and
      with nothing after the `}` read when it does not. */
  lemma ElseOptional(ts: seq<Token>, stack: seq<T.BlockType>, condition: Node, mid: seq<Token>,
                     thenBlock: Node, after: seq<Token>)
    requires |ts| >= 2 && ts[1].kind == LParen
    requires Expression(ts[2..]) == Step(Ok(condition), mid)
    requires |mid| >= 2 && mid[0].kind == RParen && mid[1].kind == LBrace
    requires Statements(mid[2..], stack + [T.Conditional], T.Conditional) == Step(Ok(thenBlock), after)
    requires after != [] && after[0].kind == RBrace
    ensures IfElse(ts, stack).result.Ok? ==>
              (IfElse(ts, stack).result.value.elseBlock.Some? <==> ElseFollows(after[1..]))
    ensures !ElseFollows(after[1..]) ==>
              IfElse(ts, stack) == Step(Ok(IfStatement(condition, thenBlock, None)), after[1..])
  {
    IfThenRead(ts, stack, condition, mid, thenBlock, after);
  }

  /** With `else {`, a block and `}`, the else branch is that block. */
  lemma ElseRead(ts: seq<Token>, stack: seq<T.BlockType>, elseBlock: Node, last: seq<Token>)
    requires |ts| >= 2 && ElseFollows(ts) && ts[1].kind == LBrace
    requires Statements(ts[2..], stack + [T.Conditional], T.Conditional) == Step(Ok(elseBlock), last)
    requires last != [] && last[0].kind == RBrace
    ensures ElseBranch(ts, stack) == Step(Ok(Some(elseBlock)), last[1..])
  {
    assert ts[1..][1..] == ts[2..];
    BodyRead(ts[1..], stack, T.Conditional, elseBlock, last);
  }
}
