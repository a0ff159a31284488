/** The syntax tree and token vocabulary of the newest revision of the crate, as
    src/parser/parser.rs builds it and src/analyzer/semantic.rs,
    src/analyzer/function_table.rs, src/analyzer/coroutine_table.rs,
    src/analyzer/task_table.rs and src/utils/ast_to_json.rs read it. That revision's
    node.rs is not part of this model: its shape is taken from how those files construct
    and match it (blocks are a separate `BlockNode`, calls carry `return_flg`, the block
    kinds include Coroutine, and declarations include `coroutine` and `coro`). */
module LateSyntax {
  import opened Wrappers
  import K = Keywords
  import O = Operators
  import T = Types
  import Tokens

  /** `BlockType` of this revision. */
  datatype BlockKind = Function | Conditional | Loop | Global | Coroutine

  /** `DeclarationKeyword` of this revision. */
  datatype DeclarationKeyword = Let | FunctionDecl | CoroutineDecl | Coro

  /** The token kinds the parser matches; the same as src/lexer/token.rs except for the
      wider declaration keywords. */
  datatype TokenKind =
    | Identifier(name: string)
    | StringLiteral(text: string)
    | NumberLiteral(digits: string)
    | BoolLiteral(boolean: K.BoolKeyword)
    | ArithmeticOperator(arith: Tokens.ArithmeticOp)
    | CompareOperator(comparison: O.Comparison)
    | LogicalOperator(logical: O.Logical)
    | LParen | RParen | LBrace | RBrace | Equal | Colon | Semicolon | Comma | Dot | RArrow
    | ControlKeyword(control: K.ControlKeyword)
    | DeclarationKeyword(declaration: DeclarationKeyword)
    | TypeName(typeName: K.TypeName)
    | LoopControl(loopControl: K.LoopControl)
    | FunctionControl(functionControl: K.FunctionControl)
    | CoroutineControl(coroutine: Tokens.CoroutineControl)
    | EOF
    | DocComment(doc: string)
    | Comment

  datatype Token = Token(kind: TokenKind, row: nat, col: nat)

  /** `Type::from_keyword`: each type keyword names the type of the same name. */
  function TypeFromKeyword(k: K.TypeName): (t: T.Type)
    ensures T.TypeToString(t) == K.TypeNameToString(k)
  {
    match k
    case Int => T.Int
    case Float => T.Float
    case Bool => T.Bool
    case String => T.String
  }

  datatype RootNode = RootNode(functions: seq<FunctionDefinitionNode>,
                               coroutines: seq<CoroutineDefinitionNode>)

  datatype FunctionDefinitionNode =
    FunctionDefinitionNode(name: string, parameters: seq<ParameterNode>,
                           returnType: Option<T.Type>, block: BlockNode, doc: Option<string>)

  datatype CoroutineDefinitionNode =
    CoroutineDefinitionNode(name: string, block: BlockNode, doc: Option<string>)

  datatype ParameterNode = ParameterNode(name: string, variableType: T.Type)

  datatype BlockNode = BlockNode(blockType: BlockKind, statements: seq<PrivateNode>)

  datatype PrivateNode =
    | Arithmetic(arithmetic: Tokens.ArithmeticOp, left: PrivateNode,
                 arithmeticRight: Option<PrivateNode>)
    | Break
    | Compare(comparison: O.Comparison, left: PrivateNode, right: PrivateNode)
    | Continue
    | CoroutineInstantiation(taskName: string, coroutineName: string)
    | CoroutineResume(taskName: string)
    | Error
    | FunctionCall(name: string, arguments: seq<PrivateNode>, returnFlg: bool)
    | IfStatement(conditionNode: PrivateNode, thenBlock: BlockNode, elseBlock: Option<BlockNode>)
    | Literal(value: T.LiteralValue)
    | Logical(logical: O.Logical, left: PrivateNode, logicalRight: Option<PrivateNode>)
    | LoopStatement(conditionNode: PrivateNode, block: BlockNode)
    | ProcessComment(comment: string)
    | ReturnStatement(assignable: PrivateNode)
    | Variable(name: string)
    | VariableAssignment(name: string, expression: PrivateNode)
    | VariableDeclaration(name: string, variableType: T.Type, initializer: Option<PrivateNode>,
                          doc: Option<string>)
    | Yield
}
