/** The syntax tree of src/parser/node.rs, as the interpreter's coroutine manager uses it.
    The file declares data only. */
module NodeTree {
  import opened Wrappers
  import K = Keywords
  import O = Operators
  import T = Types

  datatype RootNode = Program(functions: seq<GlobalNode>, coroutines: seq<GlobalNode>)

  datatype GlobalNode =
    | FunctionDefinition(name: string, parameters: seq<GlobalNode>, block: PrivateNode,
                         doc: Option<string>)
    | CoroutineDefinition(name: string, block: PrivateNode, doc: Option<string>)
    | Parameter(name: string, variableType: K.TypeName)

  datatype PrivateNode =
    | Block(blockType: T.BlockType, statements: seq<PrivateNode>)
    | FunctionCall(name: string, arguments: seq<PrivateNode>)
    | FunctionCallWithReturn(name: string, arguments: seq<PrivateNode>)
    | CoroutineInstantiation(taskName: string, coroutineName: string)
    | CoroutineResume(taskName: string)
    | Yield
    | VariableDeclaration(name: string, variableType: K.TypeName,
                          initializer: Option<PrivateNode>, doc: Option<string>)
    | VariableAssignment(name: string, expression: PrivateNode)
    | Variable(name: string)
    | IfStatement(conditionNode: PrivateNode, thenBlock: PrivateNode,
                  elseBlock: Option<PrivateNode>)
    | LoopStatement(conditionNode: PrivateNode, block: PrivateNode)
    | ReturnStatement(assignable: PrivateNode)
    | ProcessComment(comment: string)
    | Break
    | Continue
    | Error
    | Logical(logical: O.Logical, left: PrivateNode, logicalRight: Option<PrivateNode>)
    | Compare(comparison: O.Comparison, left: PrivateNode, right: PrivateNode)
    | Arithmetic(arithmetic: O.Arithmetic, left: PrivateNode, arithmeticRight: Option<PrivateNode>)
    | Literal(value: T.LiteralValue)
}
