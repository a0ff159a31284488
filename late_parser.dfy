/** The `Parser` struct of src/parser/parser.rs: a peekable iterator over the tokens, the
    stack of the blocks being parsed, the errors recorded so far and the pending doc
    comment, all changed in place. `tokens` is what the iterator has not yet produced.
    Every method is proved to end in the result and the state that the rule of the same
    part of the source in `LateParsing` describes for the state it started from. */
module LateParsers {
  import opened Wrappers
  import opened LateSyntax
  import K = Keywords
  import T = Types
  import Tokens
  import opened ErrorCodes
  import opened Decimal
  import O = Operators
  import Text
  import opened LateParsing

  class Parser {
    var tokens: seq<Token>
    var blockStack: seq<BlockKind>
    var errors: seq<Error>
    var docComment: string

    /** The fields as the rule functions read them. */
    function State(): PState
      reads this
    {
      PState(tokens, blockStack, errors, docComment)
    }

    /** `Parser::new`: nothing read, no block open, no error, no doc comment. */
    constructor (tokens: seq<Token>)
      ensures State() == PState(tokens, [], [], "")
    {
      this.tokens := tokens;
      blockStack := [];
      errors := [];
      docComment := "";
    }

    // ----- token helpers -----

    /** `peek_token`. */
    method PeekToken() returns (r: Result<Token, Failure>)
      ensures Step(r, State()) == LateParsing.PeekToken(State())
    {
      if tokens == [] {
        return Err(Reported(Exhausted));
      }
      return Ok(tokens[0]);
    }

    /** `next_token`: an `EOF` is consumed and reported. */
    method NextToken() returns (r: Result<Token, Failure>)
      modifies this`tokens
      ensures Step(r, State()) == LateParsing.NextToken(old(State()))
    {
      if tokens == [] {
        return Err(Reported(Exhausted));
      }
      var token := tokens[0];
      tokens := tokens[1..];
      if token.kind == EOF {
        return Err(Reported(At(Parse003, token)));
      }
      return Ok(token);
    }

    /** `check_next_token`: only a matching token is consumed. */
    method CheckNextToken(kind: TokenKind)
      modifies this`tokens, this`errors
      ensures State() == LateParsing.CheckNextToken(old(State()), kind)
    {
      var peeked := PeekToken();
      if peeked.Err? {
        return;
      }
      if peeked.value.kind == kind {
        var _ := NextToken();
      } else {
        errors := errors + [At(Parse005, peeked.value)];
      }
    }

    /** `peek_n`: a clone of the iterator is advanced, so nothing is consumed. */
    method PeekN(n: nat) returns (r: Result<Token, Failure>)
      ensures Step(r, State()) == LateParsing.PeekN(State(), n)
    {
      var first :- PeekToken();
      if n < |tokens| {
        return Ok(tokens[n]);
      }
      return Err(Reported(At(Parse003, first)));
    }

    /** `push_block`. */
    method PushBlock(kind: BlockKind)
      modifies this`blockStack, this`docComment
      ensures State() == LateParsing.PushBlock(old(State()), kind)
    {
      blockStack := blockStack + [kind];
      docComment := "";
    }

    /** `pop_block`. */
    method PopBlock()
      modifies this`blockStack, this`docComment
      ensures State() == LateParsing.PopBlock(old(State()))
    {
      if blockStack != [] {
        blockStack := blockStack[..|blockStack| - 1];
      }
      docComment := "";
    }

    /** `get_doc_comment`. */
    method GetDocComment() returns (doc: Option<string>)
      ensures doc == LateParsing.GetDocComment(State())
    {
      if docComment == "" {
        return None;
      }
      return Some(docComment);
    }

    // ----- doc comments -----

    /** `parse_doc_comment` on the peeked doc comment. */
    method ParseDocComment() returns (r: Result<Option<PrivateNode>, Failure>)
      requires tokens != [] && tokens[0].kind.DocComment?
      modifies this`tokens, this`docComment
      ensures Step(r, State()) == LateParsing.DocComment(old(State()))
    {
      var text := tokens[0].kind.doc;
      // The peeked doc comment is not an `EOF`, so `next_token` consumes it.
      var _ := NextToken();
      var capture := ProcessCapture(text);
      var joined := if capture.Some? then Text.Trim(capture.value) else text;
      ghost var start := State();
      while true
        invariant |tokens| <= |start.tokens| && docComment == start.doc
        invariant DocLoop(State(), joined) == DocLoop(start, if capture.Some? then Text.Trim(capture.value) else text)
        decreases |tokens|
      {
        var next :- PeekToken();
        if !next.kind.DocComment? {
          break;
        }
        joined := joined + "\n" + next.kind.doc;
        var _ := NextToken();
      }
      if capture.Some? {
        return Ok(Some(ProcessComment(joined)));
      }
      docComment := joined;
      return Ok(None);
    }

    // ----- the program and definitions -----

    /** `parse_program`. */
    method ParseProgram() returns (r: Result<RootNode, Failure>)
      modifies this
      ensures Step(r, State()) == Program(old(State()))
    {
      PushBlock(Global);
      r := ParseGlobal();
      PopBlock();
    }

    /** `parse_global`. */
    method ParseGlobal() returns (r: Result<RootNode, Failure>)
      modifies this
      ensures Step(r, State()) == GlobalLoop(old(State()), [], [])
    {
      var functions: seq<FunctionDefinitionNode> := [];
      var coroutines: seq<CoroutineDefinitionNode> := [];
      while true
        invariant GlobalLoop(State(), functions, coroutines) == GlobalLoop(old(State()), [], [])
        decreases |tokens|
      {
        var turn := ParseGlobalItem(functions, coroutines);
        if turn.Ended? {
          return turn.result;
        }
        functions, coroutines := turn.functions, turn.coroutines;
      }
    }

    /** One turn of the loop of `parse_global`. */
    method ParseGlobalItem(functions: seq<FunctionDefinitionNode>,
                           coroutines: seq<CoroutineDefinitionNode>) returns (turn: Turn)
      modifies this
      ensures (turn, State()) == GlobalItem(old(State()), functions, coroutines)
    {
      var done := Ended(Ok(RootNode(functions, coroutines)));
      var peeked := PeekToken();
      if peeked.Err? {
        errors := errors + [peeked.error.context];
        return done;
      }
      var token := peeked.value;
      if token.kind == EOF {
        return done;
      }
      if token.kind.DocComment? {
        var comment := ParseDocComment();
        if comment.Err? {
          errors := errors + [comment.error.context];
          return done;
        }
        if comment.value.Some? {
          errors := errors + [At(Parse006, token)];
        }
        return More(functions, coroutines);
      }
      if token.kind in {DeclarationKeyword(FunctionDecl), DeclarationKeyword(CoroutineDecl)} {
        turn := ParseDefinitionTurn(functions, coroutines);
      } else if token.kind.DeclarationKeyword? {
        errors := errors + [At(Parse006, token)];
        turn := done;
      } else {
        errors := errors + [At(Parse002, token)];
        turn := done;
      }
    }

    /** The turn of `parse_global` on a `function` or `coroutine` keyword. */
    method ParseDefinitionTurn(functions: seq<FunctionDefinitionNode>,
                               coroutines: seq<CoroutineDefinitionNode>) returns (turn: Turn)
      requires tokens != [] && tokens[0].kind in {DeclarationKeyword(FunctionDecl),
                                                  DeclarationKeyword(CoroutineDecl)}
      modifies this
      ensures (turn, State()) == DefinitionTurn(old(State()), functions, coroutines)
    {
      var done := Ended(Ok(RootNode(functions, coroutines)));
      if tokens[0].kind == DeclarationKeyword(FunctionDecl) {
        var definition := ParseFunctionDefinition();
        if definition.Err? {
          if definition.error.Diverges? {
            return Ended(Err(Diverges));
          }
          errors := errors + [definition.error.context];
          return done;
        }
        turn := More(functions + [definition.value], coroutines);
      } else {
        var definition := ParseCoroutineDefinition();
        if definition.Err? {
          if definition.error.Diverges? {
            return Ended(Err(Diverges));
          }
          errors := errors + [definition.error.context];
          return done;
        }
        turn := More(functions, coroutines + [definition.value]);
      }
      docComment := "";
    }

    /** The keyword, placement check, doc comment and name of a definition. */
    method ParseDefinitionHead() returns (r: Result<(Option<string>, string), Failure>)
      requires tokens != []
      modifies this`tokens, this`errors
      ensures Step(r, State()) == DefinitionHead(old(State()))
    {
      var keyword :- NextToken();
      if !AtGlobal(blockStack) {
        errors := errors + [At(Parse006, keyword)];
      }
      var doc := GetDocComment();
      var nameToken :- NextToken();
      var name := "None";
      if nameToken.kind.Identifier? {
        name := nameToken.kind.name;
      } else {
        errors := errors + [At(Parse005, nameToken)];
      }
      return Ok((doc, name));
    }

    /** `parse_function_definition`. */
    method ParseFunctionDefinition() returns (r: Result<FunctionDefinitionNode, Failure>)
      requires tokens != []
      modifies this
      ensures Step(r, State()) == FunctionDefinition(old(State()))
    {
      var head :- ParseDefinitionHead();
      var signature :- ParseSignature();
      var block :- ParseBlock(Function);
      return Ok(FunctionDefinitionNode(head.1, signature.0, signature.1, block, head.0));
    }

    /** `parse_coroutine_definition`. */
    method ParseCoroutineDefinition() returns (r: Result<CoroutineDefinitionNode, Failure>)
      requires tokens != []
      modifies this
      ensures Step(r, State()) == CoroutineDefinition(old(State()))
    {
      var head :- ParseDefinitionHead();
      CheckNextToken(LParen);
      CheckNextToken(RParen);
      CheckNextToken(LBrace);
      var block :- ParseBlock(Coroutine);
      return Ok(CoroutineDefinitionNode(head.1, block, head.0));
    }

    /** The parameter list and the return type of a function. */
    method ParseSignature() returns (r: Result<(seq<ParameterNode>, Option<T.Type>), Failure>)
      modifies this`tokens, this`errors
      ensures Step(r, State()) == Signature(old(State()))
    {
      CheckNextToken(LParen);
      var parameters :- ParseParameters();
      CheckNextToken(RParen);
      var returnType :- ParseReturnType();
      return Ok((parameters, returnType));
    }

    /** The parameter loop of `parse_function_definition`. */
    method ParseParameters() returns (r: Result<seq<ParameterNode>, Failure>)
      modifies this`tokens, this`errors
      ensures Step(r, State()) == Parameters(old(State()), [])
    {
      var parameters: seq<ParameterNode> := [];
      while true
        invariant Parameters(State(), parameters) == Parameters(old(State()), [])
        decreases |tokens|
      {
        var token :- PeekToken();
        if token.kind == RParen {
          break;
        }
        var parameter :- ParseParameter();
        var more :- ParseSeparator();
        parameters := parameters + [parameter];
        if !more {
          break;
        }
      }
      return Ok(parameters);
    }

    /** One `name: type`. */
    method ParseParameter() returns (r: Result<ParameterNode, Failure>)
      modifies this`tokens, this`errors
      ensures Step(r, State()) == Parameter(old(State()))
    {
      var nameToken :- NextToken();
      var name := "None";
      if nameToken.kind.Identifier? {
        name := nameToken.kind.name;
      } else {
        errors := errors + [At(Parse002, nameToken)];
      }
      CheckNextToken(Colon);
      var typeToken :- NextToken();
      if typeToken.kind.TypeName? {
        return Ok(ParameterNode(name, TypeFromKeyword(typeToken.kind.typeName)));
      }
      errors := errors + [At(Parse002, typeToken)];
      return Ok(ParameterNode(name, T.Bool));
    }

    /** What follows a parameter; `true` when the list goes on. */
    method ParseSeparator() returns (r: Result<bool, Failure>)
      modifies this`tokens, this`errors
      ensures Step(r, State()) == Separator(old(State()))
    {
      var next :- PeekToken();
      if next.kind == Comma {
        // The peeked `,` is not an `EOF`, so `next_token` consumes it.
        var _ := NextToken();
        return Ok(true);
      } else if next.kind == RParen {
        return Ok(false);
      }
      errors := errors + [At(Parse002, next)];
      var _ :- NextToken();
      return Ok(true);
    }

    /** `{`, or `->`, a type name and `{`. */
    method ParseReturnType() returns (r: Result<Option<T.Type>, Failure>)
      modifies this`tokens, this`errors
      ensures Step(r, State()) == ReturnType(old(State()))
    {
      var next :- NextToken();
      if next.kind == LBrace {
        return Ok(None);
      } else if next.kind == RArrow {
        var typeToken :- NextToken();
        if typeToken.kind.TypeName? {
          CheckNextToken(LBrace);
          return Ok(Some(TypeFromKeyword(typeToken.kind.typeName)));
        }
        return Err(Reported(At(Parse002, typeToken)));
      }
      return Err(Reported(At(Parse002, next)));
    }

    // ----- statements -----

    /** `push_block`, `parse_statements`, `pop_block` and the closing `}`. */
    method ParseBlock(blockType: BlockKind) returns (r: Result<BlockNode, Failure>)
      modifies this
      ensures Step(r, State()) == Block(old(State()), blockType)
      decreases |tokens|, 4
    {
      PushBlock(blockType);
      var block :- ParseStatements(blockType);
      PopBlock();
      CheckNextToken(RBrace);
      return Ok(block);
    }

    /** `parse_statements`. */
    method ParseStatements(blockType: BlockKind) returns (r: Result<BlockNode, Failure>)
      modifies this
      ensures Step(r, State()) == StatementsLoop(old(State()), blockType, [])
      decreases |tokens|, 3
    {
      var statements: seq<PrivateNode> := [];
      while true
        invariant |tokens| <= |old(tokens)|
        invariant StatementsLoop(State(), blockType, statements)
                  == StatementsLoop(old(State()), blockType, [])
        decreases |tokens|
      {
        ghost var before := State();
        ghost var collected := statements;
        var peeked := PeekToken();
        if peeked.Err? {
          errors := errors + [peeked.error.context];
          break;
        }
        var token := peeked.value;
        if (blockType != Global && token.kind == RBrace) || token.kind == EOF {
          break;
        }
        if token.kind.DocComment? {
          var comment := ParseDocComment();
          if comment.Err? {
            errors := errors + [comment.error.context];
            break;
          }
          if comment.value.Some? {
            statements := statements + [comment.value.value];
          }
          assert StatementsLoop(before, blockType, collected)
                 == StatementsLoop(State(), blockType, statements);
          continue;
        }
        var statement := ParseStatement();
        match statement {
          case Ok(node) =>
            statements := statements + [node];
          case Err(Reported(e)) =>
            errors := errors + [e];
            break;
          case Err(Diverges) =>
            return Err(Diverges);
        }
        docComment := "";
        assert StatementsLoop(before, blockType, collected)
               == StatementsLoop(State(), blockType, statements);
      }
      return Ok(BlockNode(blockType, statements));
    }

    /** `parse_statement` on the peeked token. */
    method ParseStatement() returns (r: Result<PrivateNode, Failure>)
      requires tokens != []
      modifies this
      ensures Step(r, State()) == Statement(old(State()))
      decreases |tokens|, 2
    {
      var token := tokens[0];
      var kind := token.kind;
      if kind.Identifier? {
        r := ParseIdentifier(kind.name);
      } else if kind == ControlKeyword(K.If) {
        r := ParseIfStatement();
      } else if kind == ControlKeyword(K.While) {
        r := ParseLoopStatement();
      } else if kind.DeclarationKeyword? {
        r := ParseDeclarationKeyword(kind.declaration);
      } else if kind.FunctionControl? {
        r := ParseReturn();
      } else if kind.LoopControl? {
        r := ParseJump(kind.loopControl);
      } else if kind.CoroutineControl? {
        r := ParseCoroutineControl(kind.coroutine);
      } else {
        r := Err(Reported(At(Parse002, token)));
      }
    }

    /** `parse_identifier`. */
    method ParseIdentifier(name: string) returns (r: Result<PrivateNode, Failure>)
      requires tokens != []
      modifies this`tokens, this`errors
      ensures Step(r, State()) == CallOrAssignment(old(State()), name)
    {
      var _ :- NextToken();
      var token :- NextToken();
      if token.kind == LParen {
        var arguments :- ParseArgument();
        CheckNextToken(RParen);
        CheckNextToken(Semicolon);
        return Ok(FunctionCall(name, arguments, false));
      } else if token.kind == Equal {
        var expression :- ParseExpression();
        CheckNextToken(Semicolon);
        return Ok(VariableAssignment(name, expression));
      }
      return Err(Reported(At(Parse002, token)));
    }

    /** The `return` arm of `parse_statement`. */
    method ParseReturn() returns (r: Result<PrivateNode, Failure>)
      requires tokens != []
      modifies this`tokens, this`errors
      ensures Step(r, State()) == Return(old(State()))
    {
      if Function !in blockStack {
        errors := errors + [At(Parse006, tokens[0])];
      }
      var _ :- NextToken();
      var returnValue := ParseAssignable();
      if returnValue.Err? && returnValue.error.Reported? {
        errors := errors + [returnValue.error.context];
        returnValue := Ok(Error);
      }
      var value :- returnValue;
      CheckNextToken(Semicolon);
      return Ok(ReturnStatement(value));
    }

    /** The `break`/`continue` arm of `parse_statement`. */
    method ParseJump(keyword: K.LoopControl) returns (r: Result<PrivateNode, Failure>)
      requires tokens != []
      modifies this`tokens, this`errors
      ensures Step(r, State()) == Jump(old(State()), keyword)
    {
      if Loop !in blockStack {
        errors := errors + [At(Parse006, tokens[0])];
      }
      var _ :- NextToken();
      CheckNextToken(Semicolon);
      return Ok(if keyword == K.Break then Break else Continue);
    }

    /** The `resume`/`yield` arm of `parse_statement`. */
    method ParseCoroutineControl(keyword: Tokens.CoroutineControl) returns (r: Result<PrivateNode, Failure>)
      requires tokens != []
      modifies this`tokens, this`errors
      ensures Step(r, State()) == CoroutineStatement(old(State()), keyword)
    {
      var token :- NextToken();
      match keyword
      case Resume =>
        var nameToken :- NextToken();
        if !nameToken.kind.Identifier? {
          return Err(Reported(At(Parse005, nameToken)));
        }
        CheckNextToken(Semicolon);
        return Ok(CoroutineResume(nameToken.kind.name));
      case Yield =>
        if Coroutine !in blockStack {
          errors := errors + [At(Parse006, token)];
        }
        CheckNextToken(Semicolon);
        return Ok(Yield);
    }

    /** The keyword, `(`, condition, `)` and `{` of `if` and `while`. */
    method ParseCondition() returns (r: Result<PrivateNode, Failure>)
      modifies this`tokens, this`errors
      ensures Step(r, State()) == Condition(old(State()))
    {
      var _ :- NextToken();
      CheckNextToken(LParen);
      var condition := ParseExpression();
      if condition.Err? && condition.error.Reported? {
        errors := errors + [condition.error.context];
        condition := Ok(Error);
      }
      var node :- condition;
      CheckNextToken(RParen);
      CheckNextToken(LBrace);
      return Ok(node);
    }

    /** `parse_if_statement`. */
    method ParseIfStatement() returns (r: Result<PrivateNode, Failure>)
      requires tokens != []
      modifies this
      ensures Step(r, State()) == IfElse(old(State()))
      decreases |tokens|, 1
    {
      var condition :- ParseCondition();
      var thenBlock :- ParseBlock(Conditional);
      var elseBlock :- ParseElseBranch();
      return Ok(IfStatement(condition, thenBlock, elseBlock));
    }

    /** The optional `else` block. */
    method ParseElseBranch() returns (r: Result<Option<BlockNode>, Failure>)
      modifies this
      ensures Step(r, State()) == ElseBranch(old(State()))
      decreases |tokens|, 0
    {
      if tokens != [] && tokens[0].kind == ControlKeyword(K.Else) {
        // The peeked `else` is not an `EOF`, so `next_token` consumes it.
        var _ := NextToken();
        CheckNextToken(LBrace);
        var block :- ParseBlock(Conditional);
        return Ok(Some(block));
      }
      return Ok(None);
    }

    /** `parse_loop_statement`. */
    method ParseLoopStatement() returns (r: Result<PrivateNode, Failure>)
      requires tokens != []
      modifies this
      ensures Step(r, State()) == While(old(State()))
      decreases |tokens|, 1
    {
      var condition :- ParseCondition();
      var block :- ParseBlock(Loop);
      return Ok(LoopStatement(condition, block));
    }

    /** `parse_declaration_keyword`. */
    method ParseDeclarationKeyword(keyword: DeclarationKeyword) returns (r: Result<PrivateNode, Failure>)
      requires tokens != []
      modifies this`tokens, this`errors
      ensures Step(r, State()) == Declaration(old(State()), keyword)
    {
      match keyword
      case Let =>
        r := ParseLet();
      case Coro =>
        r := ParseCoro();
      case _ =>
        r := Err(Reported(At(Parse006, tokens[0])));
    }

    /** The `let` arm. */
    method ParseLet() returns (r: Result<PrivateNode, Failure>)
      modifies this`tokens, this`errors
      ensures Step(r, State()) == LetDeclaration(old(State()))
    {
      var head :- ParseLetHead();
      var initializer :- ParseInitializer();
      var doc := GetDocComment();
      return Ok(VariableDeclaration(head.0, head.1, initializer, doc));
    }

    /** `let name: type`. */
    method ParseLetHead() returns (r: Result<(string, T.Type), Failure>)
      modifies this`tokens, this`errors
      ensures Step(r, State()) == LetHead(old(State()))
    {
      var _ :- NextToken();
      var nameToken :- NextToken();
      var name := "None";
      if nameToken.kind.Identifier? {
        name := nameToken.kind.name;
      } else {
        errors := errors + [At(Parse005, nameToken)];
      }
      CheckNextToken(Colon);
      var typeToken :- NextToken();
      if typeToken.kind.TypeName? {
        return Ok((name, TypeFromKeyword(typeToken.kind.typeName)));
      }
      errors := errors + [At(Parse005, nameToken)];
      return Ok((name, T.Bool));
    }

    /** The end of a `let`. */
    method ParseInitializer() returns (r: Result<Option<PrivateNode>, Failure>)
      modifies this`tokens, this`errors
      ensures Step(r, State()) == Initializer(old(State()))
    {
      var next :- NextToken();
      if next.kind == Semicolon {
        return Ok(None);
      } else if next.kind == Equal {
        var expression :- ParseAssignable();
        CheckNextToken(Semicolon);
        return Ok(Some(expression));
      }
      errors := errors + [At(Parse005, next)];
      return Ok(None);
    }

    /** The `coro` arm. */
    method ParseCoro() returns (r: Result<PrivateNode, Failure>)
      modifies this`tokens, this`errors
      ensures Step(r, State()) == CoroDeclaration(old(State()))
    {
      var _ :- NextToken();
      var nameToken :- NextToken();
      var taskName := "None";
      if nameToken.kind.Identifier? {
        taskName := nameToken.kind.name;
      } else {
        errors := errors + [At(Parse005, nameToken)];
      }
      CheckNextToken(Equal);
      var token :- PeekToken();
      if !token.kind.Identifier? {
        return Err(Reported(At(Parse005, token)));
      }
      // The peeked name is not an `EOF`, so `next_token` consumes it.
      var _ := NextToken();
      CheckNextToken(LParen);
      CheckNextToken(RParen);
      CheckNextToken(Semicolon);
      return Ok(CoroutineInstantiation(taskName, token.kind.name));
    }

    // ----- assignables and argument lists -----

    /** `parse_argument`. */
    method ParseArgument() returns (r: Result<seq<PrivateNode>, Failure>)
      modifies this`tokens, this`errors
      ensures Step(r, State()) == Arguments(old(State()))
      decreases |tokens|, 2
    {
      var arguments: seq<PrivateNode> := [];
      while true
        invariant |tokens| <= |old(tokens)|
        invariant ArgumentsLoop(State(), arguments) == Arguments(old(State()))
        decreases |tokens|
      {
        var peeked := PeekToken();
        if peeked.Err? {
          errors := errors + [peeked.error.context];
          arguments := arguments + [Error];
          break;
        }
        if peeked.value.kind == RParen {
          break;
        }
        var argument := ParseAssignable();
        if argument.Err? && argument.error.Reported? {
          errors := errors + [argument.error.context];
          argument := Ok(Error);
        }
        var value :- argument;
        arguments := arguments + [value];
        var next := PeekToken();
        if next.Err? {
          errors := errors + [next.error.context];
          break;
        }
        if next.value.kind == Comma {
          // The peeked `,` is not an `EOF`, so `next_token` consumes it.
          var _ := NextToken();
        } else if next.value.kind == RParen {
          break;
        } else {
          errors := errors + [At(Parse002, next.value)];
          break;
        }
      }
      return Ok(arguments);
    }

    /** `parse_assignable`. */
    method ParseAssignable() returns (r: Result<PrivateNode, Failure>)
      modifies this`tokens, this`errors
      ensures Step(r, State()) == Assignable(old(State()))
      decreases |tokens|, 0
    {
      var token :- PeekToken();
      var kind := token.kind;
      if kind.StringLiteral? || kind.NumberLiteral? || kind.BoolLiteral? || AddOperator(tokens)
         || kind == LParen {
        r := ParseExpression();
        return;
      } else if kind.Identifier? {
        var next :- PeekN(1);
        if next.kind == LParen {
          // Neither the name nor the `(` is an `EOF`, so both are consumed.
          var _ := NextToken();
          var _ := NextToken();
          var arguments :- ParseArgument();
          CheckNextToken(RParen);
          return Ok(FunctionCall(kind.name, arguments, true));
        }
        r := ParseExpression();
        return;
      }
      return Err(Reported(At(Parse002, token)));
    }

    // ----- expressions -----

    /** `parse_expression` and `parse_logical`. */
    method ParseExpression() returns (r: Result<PrivateNode, Failure>)
      modifies this`tokens, this`errors
      ensures Step(r, State()) == Expression(old(State()))
    {
      r := ParseOrExpr();
    }

    /** `parse_or_expr`. */
    method ParseOrExpr() returns (r: Result<PrivateNode, Failure>)
      modifies this`tokens, this`errors
      ensures Step(r, State()) == OrExpr(old(State()))
    {
      var left :- ParseAndExpr();
      while true
        invariant OrLoop(left, State()) == OrExpr(old(State()))
        decreases |tokens|
      {
        var token :- PeekToken();
        if token.kind != OrToken {
          break;
        }
        var _ := NextToken();
        var right :- ParseAndExpr();
        left := Logical(O.BinaryLogic(O.Or), left, Some(right));
      }
      return Ok(left);
    }

    /** `parse_and_expr`. */
    method ParseAndExpr() returns (r: Result<PrivateNode, Failure>)
      modifies this`tokens, this`errors
      ensures Step(r, State()) == AndExpr(old(State()))
    {
      var left :- ParseNotExpr();
      while true
        invariant AndLoop(left, State()) == AndExpr(old(State()))
        decreases |tokens|
      {
        var token :- PeekToken();
        if !AndOperator(token) {
          break;
        }
        var _ := NextToken();
        var right :- ParseNotExpr();
        left := Logical(token.kind.logical, left, Some(right));
      }
      return Ok(left);
    }

    /** `parse_not_expr`. On `not` the source calls `parse_expression` without consuming
        the token, which recurses without end; the model returns `Diverges` there. */
    method ParseNotExpr() returns (r: Result<PrivateNode, Failure>)
      modifies this`tokens, this`errors
      ensures Step(r, State()) == NotExpr(old(State()))
    {
      var token :- PeekToken();
      if token.kind == NotToken {
        r := Err(Diverges);
      } else if token.kind.BoolLiteral? {
        r := ParseLiteral();
      } else {
        r := ParseCompare();
      }
    }

    /** `parse_compare`. */
    method ParseCompare() returns (r: Result<PrivateNode, Failure>)
      modifies this`tokens, this`errors
      ensures Step(r, State()) == CompareExpr(old(State()))
    {
      var left := ParseValue();
      var token :- PeekToken();
      if !token.kind.CompareOperator? {
        return left;
      }
      var _ := NextToken();
      var right :- ParseValue();
      var l :- left;
      return Ok(Compare(token.kind.comparison, l, right));
    }

    /** `parse_value`. */
    method ParseValue() returns (r: Result<PrivateNode, Failure>)
      modifies this`tokens, this`errors
      ensures Step(r, State()) == ValueExpr(old(State()))
    {
      var token :- PeekToken();
      var kind := token.kind;
      if kind.NumberLiteral? || AddOperator(tokens) || kind == LParen || kind.Identifier? {
        r := ParseAddAndSub();
      } else if kind.StringLiteral? {
        r := ParseLiteral();
      } else {
        r := Err(Reported(At(Parse002, token)));
      }
    }

    /** `parse_add_and_sub`. */
    method ParseAddAndSub() returns (r: Result<PrivateNode, Failure>)
      modifies this`tokens, this`errors
      ensures Step(r, State()) == AddSub(old(State()))
      decreases |tokens|, 3
    {
      var left :- ParseMulAndDiv();
      while AddOperator(tokens)
        invariant |tokens| <= |old(tokens)|
        invariant AddSubLoop(left, State()) == AddSub(old(State()))
        decreases |tokens|
      {
        // The operator was peeked, so `next_token` finds it.
        var operatorToken := NextToken();
        var operator := operatorToken.value.kind.arith;
        var right :- ParseMulAndDiv();
        left := Arithmetic(operator, left, Some(right));
      }
      return Ok(left);
    }

    /** `parse_mul_and_div`, as written: a second `next_token()?` after the operator. */
    method ParseMulAndDiv() returns (r: Result<PrivateNode, Failure>)
      modifies this`tokens, this`errors
      ensures Step(r, State()) == MulDiv(old(State()))
      decreases |tokens|, 2
    {
      var left :- ParseUnary();
      while MulOperator(tokens)
        invariant |tokens| <= |old(tokens)|
        invariant MulDivLoop(left, State()) == MulDiv(old(State()))
        decreases |tokens|
      {
        // The operator was peeked, so `next_token` finds it.
        var operatorToken := NextToken();
        var operator := operatorToken.value.kind.arith;
        var _ :- NextToken();
        var right :- ParseUnary();
        left := Arithmetic(operator, left, Some(right));
      }
      return Ok(left);
    }

    /** `parse_unary`. */
    method ParseUnary() returns (r: Result<PrivateNode, Failure>)
      modifies this`tokens, this`errors
      ensures Step(r, State()) == UnaryExpr(old(State()))
      decreases |tokens|, 1
    {
      var token :- PeekToken();
      var kind := token.kind;
      if kind.NumberLiteral? || kind == LParen || kind.Identifier?
         || kind == ArithmeticOperator(Tokens.Plus) {
        r := ParsePrimary();
      } else if kind == ArithmeticOperator(Tokens.Minus) {
        var _ := NextToken();
        var number :- ParsePrimary();
        r := Ok(Arithmetic(Tokens.Minus, number, None));
      } else {
        r := Err(Reported(At(Parse002, token)));
      }
    }

    /** `parse_primary`. */
    method ParsePrimary() returns (r: Result<PrivateNode, Failure>)
      modifies this`tokens, this`errors
      ensures Step(r, State()) == PrimaryExpr(old(State()))
      decreases |tokens|, 0
    {
      var token :- PeekToken();
      if token.kind.NumberLiteral? {
        r := ParseLiteral();
      } else if token.kind == LParen {
        var _ := NextToken();
        var expr := ParseAddAndSub();
        CheckNextToken(RParen);
        r := expr;
      } else if token.kind.Identifier? {
        r := ParseVariable();
      } else {
        r := Err(Reported(At(Parse002, token)));
      }
    }

    /** `parse_variable`. */
    method ParseVariable() returns (r: Result<PrivateNode, Failure>)
      modifies this`tokens, this`errors
      ensures Step(r, State()) == VariableExpr(old(State()))
    {
      var token :- NextToken();
      if token.kind.Identifier? {
        return Ok(Variable(token.kind.name));
      }
      return Err(Reported(At(Parse002, token)));
    }

    /** `parse_literal`: the success of `str::parse::<f64>` on the joined text is
        `AllDigits` of the fraction. */
    method ParseLiteral() returns (r: Result<PrivateNode, Failure>)
      modifies this`tokens, this`errors
      ensures Step(r, State()) == LiteralExpr(old(State()))
    {
      var token :- NextToken();
      match token.kind
      case StringLiteral(value) =>
        return Ok(Literal(T.StringValue(value)));
      case NumberLiteral(integer) =>
        var intValue := ParseI32(integer);
        if intValue.None? {
          return Err(Reported(At(Parse004, token)));
        }
        var next :- PeekToken();
        if next.kind != Dot {
          return Ok(Literal(T.IntValue(intValue.value)));
        }
        // The peeked `.` is not an `EOF`, so `next_token` consumes it.
        var _ := NextToken();
        var fraction :- NextToken();
        if fraction.kind.NumberLiteral? && AllDigits(fraction.kind.digits) {
          return Ok(Literal(T.FloatValue(T.F64(integer + "." + fraction.kind.digits))));
        }
        return Err(Reported(At(Parse004, fraction)));
      case BoolLiteral(value) =>
        return Ok(Literal(T.BoolValue(value == K.True)));
      case _ =>
        return Err(Reported(At(Parse002, token)));
    }
  }

  /** `parse`: the tree and the errors; or divergence on `not`. */
  method Parse(tokens: seq<Token>) returns (o: Outcome)
    ensures o == LateParsing.Parse(tokens)
  {
    var parser := new Parser(tokens);
    var root := parser.ParseProgram();
    if root.Ok? {
      return Parsed(root.value, parser.errors);
    }
    return Diverged;
  }
}
