/** What the rules of `LateParsing` promise: that parsing collects errors and goes on, how
    the top level and statements out of place are treated, how operator chains nest, how
    literals are read, and how doc comments are joined and attached. */
module LateParsingProperties {
  import opened Wrappers
  import opened LateSyntax
  import K = Keywords
  import T = Types
  import Tokens
  import opened ErrorCodes
  import opened Decimal
  import opened LateParsing
  import Text

  // ----- the parse goes on -----

  /** A statement that fails with a reported error has that error recorded, and the block
      ends there with the statements read before it. */
  lemma FailingStatementRecorded(s: PState, blockType: BlockKind, statements: seq<PrivateNode>)
    requires s.tokens != [] && !s.tokens[0].kind.DocComment? && s.tokens[0].kind != EOF
    requires !(blockType != Global && s.tokens[0].kind == RBrace)
    requires Statement(s).result.Err? && Statement(s).result.error.Reported?
    ensures StatementsLoop(s, blockType, statements)
            == Step(Ok(BlockNode(blockType, statements)),
                    Record(Statement(s).state, Statement(s).result.error.context))
  {
  }

  /** A statement that is read is appended, and the doc comment is cleared before the next
      one. */
  lemma StatementAppended(s: PState, blockType: BlockKind, statements: seq<PrivateNode>)
    requires s.tokens != [] && !s.tokens[0].kind.DocComment? && s.tokens[0].kind != EOF
    requires !(blockType != Global && s.tokens[0].kind == RBrace)
    requires Statement(s).result.Ok?
    ensures StatementsLoop(s, blockType, statements)
            == StatementsLoop(Statement(s).state.(doc := ""), blockType,
                              statements + [Statement(s).result.value])
  {
  }

  /** Unless some token is `not`, `parse` returns a tree, and its errors are the ones the
      rules recorded. */
  lemma ParseReturnsTree(tokens: seq<Token>)
    requires NoNot(tokens)
    ensures Parse(tokens).Parsed?
    ensures Parse(tokens).errors == Program(PState(tokens, [], [], "")).state.errors
  {
  }

  // ----- the top level -----

  /** At the top level anything but a doc comment, a definition or the `EOF` records
      Parse006 (another declaration keyword) or Parse002 at it, and ends the program with
      the definitions read so far. */
  lemma TopLevelRejects(s: PState, functions: seq<FunctionDefinitionNode>,
                        coroutines: seq<CoroutineDefinitionNode>)
    requires s.tokens != [] && s.tokens[0].kind != EOF && !s.tokens[0].kind.DocComment?
    requires s.tokens[0].kind !in {DeclarationKeyword(FunctionDecl), DeclarationKeyword(CoroutineDecl)}
    ensures GlobalLoop(s, functions, coroutines)
            == Step(Ok(RootNode(functions, coroutines)),
                    Record(s, At(if s.tokens[0].kind.DeclarationKeyword? then Parse006 else Parse002,
                                 s.tokens[0])))
  {
  }

  /** A function definition that is read goes to the end of the function list, and the
      program goes on after it with the doc comment cleared. */
  lemma FunctionAppended(s: PState, functions: seq<FunctionDefinitionNode>,
                         coroutines: seq<CoroutineDefinitionNode>)
    requires s.tokens != [] && s.tokens[0].kind == DeclarationKeyword(FunctionDecl)
    requires FunctionDefinition(s).result.Ok?
    ensures GlobalLoop(s, functions, coroutines)
            == GlobalLoop(FunctionDefinition(s).state.(doc := ""),
                          functions + [FunctionDefinition(s).result.value], coroutines)
  {
  }

  /** A coroutine definition that is read goes to the end of the coroutine list. */
  lemma CoroutineAppended(s: PState, functions: seq<FunctionDefinitionNode>,
                          coroutines: seq<CoroutineDefinitionNode>)
    requires s.tokens != [] && s.tokens[0].kind == DeclarationKeyword(CoroutineDecl)
    requires CoroutineDefinition(s).result.Ok?
    ensures GlobalLoop(s, functions, coroutines)
            == GlobalLoop(CoroutineDefinition(s).state.(doc := ""),
                          functions, coroutines + [CoroutineDefinition(s).result.value])
  {
  }

  /** A definition that fails has its error recorded and ends the program. */
  lemma FailingDefinitionRecorded(s: PState, functions: seq<FunctionDefinitionNode>,
                                  coroutines: seq<CoroutineDefinitionNode>)
    requires s.tokens != [] && s.tokens[0].kind == DeclarationKeyword(FunctionDecl)
    requires FunctionDefinition(s).result.Err? && FunctionDefinition(s).result.error.Reported?
    ensures GlobalLoop(s, functions, coroutines)
            == Step(Ok(RootNode(functions, coroutines)),
                    Record(FunctionDefinition(s).state, FunctionDefinition(s).result.error.context))
  {
  }

  /** A `@process` comment at the top level records Parse006 at it and is dropped. */
  lemma ProcessCommentAtTopLevel(s: PState, functions: seq<FunctionDefinitionNode>,
                                 coroutines: seq<CoroutineDefinitionNode>)
    requires s.tokens != [] && s.tokens[0].kind.DocComment?
    requires ProcessCapture(s.tokens[0].kind.doc).Some? && LateParsing.DocComment(s).result.Ok?
    ensures LateParsing.DocComment(s).result.value.Some?
    ensures GlobalLoop(s, functions, coroutines)
            == GlobalLoop(Record(LateParsing.DocComment(s).state, At(Parse006, s.tokens[0])), functions, coroutines)
  {
    DocCommentKinds(s);
  }

  /** Which of the two results a doc comment run has is decided by its first comment. */
  lemma DocCommentKinds(s: PState)
    requires s.tokens != [] && s.tokens[0].kind.DocComment?
    ensures LateParsing.DocComment(s).result.Ok? ==>
              (LateParsing.DocComment(s).result.value.Some? <==> ProcessCapture(s.tokens[0].kind.doc).Some?)
  {
  }

  // ----- statements out of place -----

  /** `parse_statement` hands `return` to its own arm. */
  lemma ReturnArm(s: PState)
    requires s.tokens != [] && s.tokens[0].kind.FunctionControl?
    ensures Statement(s) == Return(s)
  {
    var k := s.tokens[0].kind;
    assert !k.Identifier? && k != ControlKeyword(K.If) && k != ControlKeyword(K.While);
    assert !k.DeclarationKeyword?;
  }

  /** `parse_statement` hands `break` and `continue` to their own arm. */
  lemma JumpArm(s: PState)
    requires s.tokens != [] && s.tokens[0].kind.LoopControl?
    ensures Statement(s) == Jump(s, s.tokens[0].kind.loopControl)
  {
    var k := s.tokens[0].kind;
    assert !k.Identifier? && k != ControlKeyword(K.If) && k != ControlKeyword(K.While);
    assert !k.DeclarationKeyword? && !k.FunctionControl?;
  }

  /** `parse_statement` hands `resume` and `yield` to their own arm. */
  lemma CoroutineArm(s: PState)
    requires s.tokens != [] && s.tokens[0].kind.CoroutineControl?
    ensures Statement(s) == CoroutineStatement(s, s.tokens[0].kind.coroutine)
  {
    var k := s.tokens[0].kind;
    assert !k.Identifier? && k != ControlKeyword(K.If) && k != ControlKeyword(K.While);
    assert !k.DeclarationKeyword? && !k.FunctionControl?;
    assert !k.LoopControl?;
  }

  /** `return` outside a function records Parse006 at the keyword and is still read as a
      return statement. */
  lemma ReturnOutsideFunction(s: PState)
    requires s.tokens != [] && s.tokens[0].kind.FunctionControl? && Function !in s.stack
    requires NoNot(s.tokens)
    ensures Return(s).result.Ok? && Return(s).result.value.ReturnStatement?
    ensures s.errors + [At(Parse006, s.tokens[0])] <= Return(s).state.errors
  {
    var checked := OutOfContext(s, Function, s.tokens[0]);
    var keyword := NextToken(checked);
    assert keyword.result.Ok?;
    var value := Recovered(Assignable(keyword.state));
    assert Keeps(keyword.state, Assignable(keyword.state).state);
    PrefixOfPrefix(checked.errors, value.state.errors, Return(s).state.errors);
  }

  /** `break` and `continue` outside a loop record Parse006 at the keyword and are still
      read as that statement. */
  lemma JumpOutsideLoop(s: PState, keyword: K.LoopControl)
    requires s.tokens != [] && s.tokens[0].kind == LoopControl(keyword) && Loop !in s.stack
    ensures Jump(s, keyword).result == Ok(if keyword == K.Break then Break else Continue)
    ensures s.errors + [At(Parse006, s.tokens[0])] <= Jump(s, keyword).state.errors
  {
    var checked := OutOfContext(s, Loop, s.tokens[0]);
    var word := NextToken(checked);
    assert word.result.Ok?;
    assert Keeps(word.state, CheckNextToken(word.state, Semicolon));
  }

  /** `yield` outside a coroutine records Parse006 at the keyword and is still read. */
  lemma YieldOutsideCoroutine(s: PState)
    requires s.tokens != [] && s.tokens[0].kind == CoroutineControl(Tokens.Yield)
    requires Coroutine !in s.stack
    ensures CoroutineStatement(s, Tokens.Yield).result == Ok(Yield)
    ensures s.errors + [At(Parse006, s.tokens[0])] <= CoroutineStatement(s, Tokens.Yield).state.errors
  {
  }

  /** A function or coroutine definition inside a block is not a statement: Parse006 at
      its keyword ends the statement. */
  lemma DefinitionInBlock(s: PState)
    requires s.tokens != []
    requires s.tokens[0].kind in {DeclarationKeyword(FunctionDecl), DeclarationKeyword(CoroutineDecl)}
    ensures Statement(s) == Step(Err(Reported(At(Parse006, s.tokens[0]))), s)
  {
  }

  lemma PrefixOfPrefix<X>(a: seq<X>, b: seq<X>, c: seq<X>)
    requires a <= b && b <= c
    ensures a <= c
  {
  }

  // ----- operator chains -----

  /** One step of an operator chain: the operator and a name as its right operand. */
  datatype Link = Link(operator: Token, operand: Token)

  /** The tokens of a chain without anything between operator and operand. */
  function ChainTokens(links: seq<Link>): seq<Token>
    decreases |links|
  {
    if links == [] then [] else [links[0].operator, links[0].operand] + ChainTokens(links[1..])
  }

  /** The tokens of a chain with one extra token after every operator. */
  function PaddedTokens(links: seq<Link>, padding: seq<Token>): seq<Token>
    requires |padding| == |links|
    decreases |links|
  {
    if links == [] then []
    else [links[0].operator, padding[0], links[0].operand] + PaddedTokens(links[1..], padding[1..])
  }

  /** The left-associative tree: every operator takes the tree so far as its left operand. */
  function LeftFold(left: PrivateNode, links: seq<Link>): PrivateNode
    requires forall i :: 0 <= i < |links| ==> links[i].operator.kind.ArithmeticOperator?
    requires forall i :: 0 <= i < |links| ==> links[i].operand.kind.Identifier?
    decreases |links|
  {
    if links == [] then left
    else LeftFold(Arithmetic(links[0].operator.kind.arith, left,
                             Some(Variable(links[0].operand.kind.name))), links[1..])
  }

  predicate ProductChain(links: seq<Link>) {
    forall i :: 0 <= i < |links| ==> MulOperator([links[i].operator]) && links[i].operand.kind.Identifier?
  }

  predicate SumChain(links: seq<Link>) {
    forall i :: 0 <= i < |links| ==> AddOperator([links[i].operator]) && links[i].operand.kind.Identifier?
  }

  /** A name is read as a variable by `parse_unary`, which leaves what follows. */
  lemma NameOperand(s: PState, x: Token, rest: seq<Token>)
    requires s.tokens == [x] + rest && x.kind.Identifier?
    ensures UnaryExpr(s) == Step(Ok(Variable(x.kind.name)), s.(tokens := rest))
  {
    assert s.tokens[1..] == rest;
  }

  /** One link of a `*`/`/` chain as written: the token after the operator is dropped and
      the name after it is the right operand. */
  lemma PaddedLink(left: PrivateNode, l: Link, pad: Token, s: PState, rest: seq<Token>)
    requires MulOperator([l.operator]) && l.operand.kind.Identifier? && pad.kind != EOF
    requires s.tokens == [l.operator, pad, l.operand] + rest
    ensures MulDivLoop(left, s)
            == MulDivLoop(Arithmetic(l.operator.kind.arith, left, Some(Variable(l.operand.kind.name))),
                          s.(tokens := rest))
  {
    assert MulOperator(s.tokens) by { assert s.tokens[0] == l.operator; }
    var afterOperator := s.(tokens := s.tokens[1..]);
    assert afterOperator.tokens == [pad] + ([l.operand] + rest);
    var skipped := NextToken(afterOperator);
    assert skipped == Step(Ok(pad), s.(tokens := [l.operand] + rest));
    NameOperand(s.(tokens := [l.operand] + rest), l.operand, rest);
  }

  /** As written, whatever token follows each `*` or `/` is dropped: a chain padded with
      one token, other than `EOF`, after every operator gives the left-associative tree of
      the unpadded chain. */
  lemma {:induction false} ProductDropsToken(left: PrivateNode, links: seq<Link>, padding: seq<Token>,
                                             s: PState, w: seq<Token>)
    requires ProductChain(links) && !MulOperator(w) && |padding| == |links|
    requires forall i :: 0 <= i < |padding| ==> padding[i].kind != EOF
    requires s.tokens == PaddedTokens(links, padding) + w
    ensures MulDivLoop(left, s) == Step(Ok(LeftFold(left, links)), s.(tokens := w))
    decreases |links|
  {
    if links == [] {
      assert s.tokens == w;
    } else {
      var l := links[0];
      var rest := PaddedTokens(links[1..], padding[1..]) + w;
      assert s.tokens == [l.operator, padding[0], l.operand] + rest;
      PaddedLink(left, l, padding[0], s, rest);
      ProductDropsToken(Arithmetic(l.operator.kind.arith, left, Some(Variable(l.operand.kind.name))),
                        links[1..], padding[1..], s.(tokens := rest), w);
    }
  }

  /** One link of a `+`/`-` chain. */
  lemma SumLink(left: PrivateNode, l: Link, s: PState, rest: seq<Token>)
    requires AddOperator([l.operator]) && l.operand.kind.Identifier? && !MulOperator(rest)
    requires s.tokens == [l.operator, l.operand] + rest
    ensures AddSubLoop(left, s)
            == AddSubLoop(Arithmetic(l.operator.kind.arith, left, Some(Variable(l.operand.kind.name))),
                          s.(tokens := rest))
  {
    assert AddOperator(s.tokens) by { assert s.tokens[0] == l.operator; }
    var operand := s.(tokens := s.tokens[1..]);
    assert operand.tokens == [l.operand] + rest;
    NameOperand(operand, l.operand, rest);
    assert MulDiv(operand) == Step(Ok(Variable(l.operand.kind.name)), s.(tokens := rest));
  }

  /** `+` and `-` chains are left-associative. */
  lemma {:induction false} SumLeftAssociative(left: PrivateNode, links: seq<Link>, s: PState, w: seq<Token>)
    requires SumChain(links) && !AddOperator(w) && !MulOperator(w)
    requires s.tokens == ChainTokens(links) + w
    ensures AddSubLoop(left, s) == Step(Ok(LeftFold(left, links)), s.(tokens := w))
    decreases |links|
  {
    if links == [] {
      assert s.tokens == w;
    } else {
      var l := links[0];
      var rest := ChainTokens(links[1..]) + w;
      assert s.tokens == [l.operator, l.operand] + rest;
      assert !MulOperator(rest) by {
        if links[1..] != [] {
          assert rest[0] == links[1].operator;
          assert AddOperator([links[1].operator]);
        } else {
          assert rest == w;
        }
      }
      SumLink(left, l, s, rest);
      SumLeftAssociative(Arithmetic(l.operator.kind.arith, left, Some(Variable(l.operand.kind.name))),
                         links[1..], s.(tokens := rest), w);
    }
  }

  /** A `;` is not an operand: `parse_unary` rejects it with Parse002. */
  lemma SemicolonOperand(s: PState, semicolon: Token)
    requires s.tokens == [semicolon] && semicolon.kind == Semicolon
    ensures UnaryExpr(s) == Step(Err(Reported(At(Parse002, semicolon))), s)
  {
  }

  /** `a * b;` as written: `b` is dropped and the `;` is read as the right operand, which
      `parse_unary` rejects with Parse002. */
  lemma ProductOfTwoNames(s: PState, a: Token, times: Token, b: Token, semicolon: Token)
    requires a.kind.Identifier? && b.kind.Identifier?
    requires times.kind == ArithmeticOperator(Tokens.Multiply) && semicolon.kind == Semicolon
    requires s.tokens == [a, times, b, semicolon]
    ensures MulDiv(s) == Step(Err(Reported(At(Parse002, semicolon))), s.(tokens := [semicolon]))
  {
    NameOperand(s, a, [times, b, semicolon]);
    var afterName := s.(tokens := [times, b, semicolon]);
    assert MulOperator(afterName.tokens);
    assert afterName.tokens[1..] == [b, semicolon];
    var skipped := NextToken(afterName.(tokens := [b, semicolon]));
    assert skipped == Step(Ok(b), s.(tokens := [semicolon]));
    SemicolonOperand(s.(tokens := [semicolon]), semicolon);
  }

  /** A comparison holds at most one comparison operator: the result is a value, or one
      comparison of two values, and neither value holds a comparison. */
  lemma AtMostOneComparison(s: PState)
    requires CompareExpr(s).result.Ok?
    ensures var v := CompareExpr(s).result.value;
            ArithmeticTree(v) || (v.Compare? && ArithmeticTree(v.left) && ArithmeticTree(v.right))
  {
  }

  // ----- literals -----

  /** An i32 numeral followed by anything but `.` is an Int literal. */
  lemma IntegerLiteral(s: PState, t: Token, w: seq<Token>)
    requires s.tokens == [t] + w && t.kind.NumberLiteral? && ParseI32(t.kind.digits).Some?
    requires w != [] && w[0].kind != Dot
    ensures LiteralExpr(s) == Step(Ok(Literal(T.IntValue(ParseI32(t.kind.digits).value))), s.(tokens := w))
  {
    assert s.tokens[1..] == w;
  }

  /** A numeral out of the i32 range is Parse004 at it. */
  lemma IntegerOutOfRange(s: PState, t: Token)
    requires s.tokens != [] && s.tokens[0] == t && t.kind.NumberLiteral? && ParseI32(t.kind.digits).None?
    ensures LiteralExpr(s) == Step(Err(Reported(At(Parse004, t))), s.(tokens := s.tokens[1..]))
  {
  }

  /** Numeral, `.`, numeral of digits is a float literal of the joined text. */
  lemma FloatNumeral(s: PState, i: Token, dot: Token, d: Token, w: seq<Token>)
    requires s.tokens == [i, dot, d] + w
    requires i.kind.NumberLiteral? && ParseI32(i.kind.digits).Some?
    requires dot.kind == Dot && d.kind.NumberLiteral? && AllDigits(d.kind.digits)
    ensures LiteralExpr(s)
            == Step(Ok(Literal(T.FloatValue(T.F64(i.kind.digits + "." + d.kind.digits)))), s.(tokens := w))
  {
    assert s.tokens[1..] == [dot, d] + w;
    assert s.tokens[1..][1..] == [d] + w;
    assert s.tokens[1..][1..][1..] == w;
  }

  // ----- doc comments -----

  /** Doc comment tokens one after another. */
  predicate DocRun(ds: seq<Token>) {
    forall i :: 0 <= i < |ds| ==> ds[i].kind.DocComment?
  }

  /** `text` with the texts of the comments of `ds` joined on, each after a newline. */
  function Joined(text: string, ds: seq<Token>): string
    requires DocRun(ds)
    decreases |ds|
  {
    if ds == [] then text else Joined(text + "\n" + ds[0].kind.doc, ds[1..])
  }

  /** The loop of `parse_doc_comment` consumes a whole run of doc comments and joins their
      texts with newlines. */
  lemma {:induction false} DocRunJoined(s: PState, text: string, ds: seq<Token>, w: seq<Token>)
    requires DocRun(ds) && w != [] && !w[0].kind.DocComment?
    requires s.tokens == ds + w
    ensures DocLoop(s, text) == Step(Ok(Joined(text, ds)), s.(tokens := w))
    decreases |ds|
  {
    if ds == [] {
      assert s.tokens == w;
    } else {
      assert s.tokens[0] == ds[0];
      assert s.tokens[1..] == ds[1..] + w;
      DocRunJoined(s.(tokens := s.tokens[1..]), text + "\n" + ds[0].kind.doc, ds[1..], w);
    }
  }

  /** A run whose first comment has no `@process` becomes the pending doc comment, joined. */
  lemma PendingDocComment(s: PState, first: Token, ds: seq<Token>, w: seq<Token>)
    requires first.kind.DocComment? && ProcessCapture(first.kind.doc).None?
    requires DocRun(ds) && w != [] && !w[0].kind.DocComment?
    requires s.tokens == [first] + ds + w
    ensures LateParsing.DocComment(s) == Step(Ok(None), s.(tokens := w, doc := Joined(first.kind.doc, ds)))
  {
    assert s.tokens[1..] == ds + w;
    DocRunJoined(s.(tokens := s.tokens[1..]), first.kind.doc, ds, w);
  }

  /** A run whose first comment has `@process` becomes a `ProcessComment` of the trimmed
      text after it, joined with the rest of the run; the pending doc comment is kept. */
  lemma ProcessDocComment(s: PState, first: Token, ds: seq<Token>, w: seq<Token>)
    requires first.kind.DocComment? && ProcessCapture(first.kind.doc).Some?
    requires DocRun(ds) && w != [] && !w[0].kind.DocComment?
    requires s.tokens == [first] + ds + w
    ensures LateParsing.DocComment(s)
            == Step(Ok(Some(ProcessComment(Joined(Text.Trim(ProcessCapture(first.kind.doc).value), ds)))),
                    s.(tokens := w))
  {
    assert s.tokens[1..] == ds + w;
    DocRunJoined(s.(tokens := s.tokens[1..]), Text.Trim(ProcessCapture(first.kind.doc).value), ds, w);
  }
}
