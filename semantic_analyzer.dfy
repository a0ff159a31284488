/** src/analyzer/semantic.rs: the `Semantic` analyzer as the source writes it, an object
    whose tables and error list are updated in place while it walks the tree. Every
    method is proved to leave the state the functions of `Semantics` describe. */
module SemanticAnalyzers {
  import opened Wrappers
  import T = Types
  import O = Operators
  import Tokens
  import Decimal
  import opened LateSyntax
  import opened VariableTables
  import opened FunctionTables
  import opened CoroutineTables
  import opened TaskTables
  import opened Semantics

  class Semantic {
    const functionTable: FunctionTable
    const variableTable: VariableTable
    const coroutineTable: CoroutineTable
    const taskTable: TaskTable
    var errors: seq<SemanticError>
    var analysisName: string
    /** Rust's `{:?}` rendering of a node, used in Semantic003. */
    const describe: PrivateNode -> string

    function State(): SemState
      reads this, functionTable, coroutineTable, taskTable
    {
      SemState(functionTable.table, coroutineTable.table, taskTable.table, errors, analysisName)
    }

    /** `Semantic::new`. */
    constructor(describe: PrivateNode -> string)
      ensures State() == Initial && this.describe == describe
      ensures fresh(functionTable) && fresh(variableTable) && fresh(coroutineTable) && fresh(taskTable)
    {
      functionTable := new FunctionTable();
      variableTable := new VariableTable();
      coroutineTable := new CoroutineTable();
      taskTable := new TaskTable();
      errors := [];
      analysisName := "";
      this.describe := describe;
    }

    /** `semantic_statement`. */
    method SemanticStatement(n: PrivateNode) returns (t: Option<T.Type>, panicked: bool)
      modifies this, functionTable, coroutineTable, taskTable
      ensures CheckStatement(old(State()), n, describe) == if panicked then Panicked else Done(State(), t)
      decreases Size(n), 1
    {
      match n {
        case Arithmetic(op, l, r) =>
          if r.Some? {
            t, panicked := SemanticBinary(Tokens.ArithmeticToString(op), l, r.value);
          } else {
            t, panicked := SemanticOperand(l);
          }
        case Break =>
          t, panicked := None, false;
        case Compare(op, l, r) =>
          t, panicked := SemanticBinary(O.ComparisonToString(op), l, r);
        case Continue =>
          t, panicked := None, false;
        case CoroutineInstantiation(taskName, coroutineName) =>
          var info := coroutineTable.GetCoroutineInfo(coroutineName);
          if info.Some? {
            taskTable.AddTask(taskName, coroutineName, info.value.process);
          } else {
            errors := errors + [Report(Semantic004, [("statement", "コルーチン"), ("name", coroutineName)])];
          }
          t, panicked := None, false;
        case CoroutineResume(taskName) =>
          var task := taskTable.GetTask(taskName);
          t, panicked := None, false;
        case Error =>
          t, panicked := None, false;
        case FunctionCall(name, args, returnFlg) =>
          t, panicked := SemanticCall(name, args, returnFlg);
        case IfStatement(_, thenBlock, elseBlock) =>
          panicked := SemanticBlock(thenBlock);
          if !panicked && elseBlock.Some? {
            panicked := SemanticBlock(elseBlock.value);
          }
          t := None;
        case Literal(value) =>
          match value {
            case BoolValue(_) => t := Some(T.Bool);
            case FloatValue(_) => t := Some(T.Float);
            case IntValue(_) => t := Some(T.Int);
            case StringValue(_) => t := Some(T.String);
            case Null => t := None;
          }
          panicked := false;
        case Logical(op, l, r) =>
          if r.Some? {
            t, panicked := SemanticBinary(O.LogicalToString(op), l, r.value);
          } else {
            t, panicked := SemanticOperand(l);
          }
        case LoopStatement(_, block) =>
          panicked := SemanticBlock(block);
          t := None;
        case ProcessComment(_) =>
          t, panicked := None, false;
        case ReturnStatement(_) =>
          t, panicked := None, false;
        case Variable(name) =>
          var info := functionTable.GetFunctionInfo(analysisName);
          if info.None? {
            return None, true;
          }
          var variableType := info.value.localVariables.GetType(name);
          if variableType.Some? {
            return variableType, false;
          }
          errors := errors + [Report(Semantic007, [("variable_name", name)])];
          t, panicked := None, false;
        case VariableAssignment(name, expression) =>
          var info := functionTable.GetFunctionInfo(analysisName);
          if info.None? {
            return None, true;
          }
          var variableType := info.value.localVariables.GetType(name);
          if variableType.None? {
            errors := errors + [Report(Semantic007, [("variable_name", name)])];
            return None, false;
          }
          t, panicked := SemanticAgainst(name, variableType.value, expression);
        case VariableDeclaration(name, variableType, initializer, _) =>
          var found := functionTable.GetFunctionInfoMut(
            analysisName, (info: FunctionInfo) => DeclareInFunction(info, name, variableType));
          if !found {
            var foundCoroutine := coroutineTable.GetCoroutineInfoMut(
              analysisName, (info: CoroutineInfo) => DeclareInCoroutine(info, name, variableType));
            if !foundCoroutine {
              return None, true;
            }
          }
          if initializer.Some? {
            t, panicked := SemanticAgainst(name, variableType, initializer.value);
          } else {
            t, panicked := None, false;
          }
        case Yield =>
          t, panicked := None, false;
      }
    }

    /** An operand's type, recording Semantic003 when it has none (the shared part of the
        unary arms and `semantic_binary`). */
    method SemanticOperand(n: PrivateNode) returns (t: Option<T.Type>, panicked: bool)
      modifies this, functionTable, coroutineTable, taskTable
      ensures CheckOperand(old(State()), n, describe) == if panicked then Panicked else Done(State(), t)
      decreases Size(n), 2
    {
      t, panicked := SemanticStatement(n);
      if !panicked && t.None? {
        errors := errors + [Untyped(n, describe)];
      }
    }

    /** `semantic_binary`; `None` stands for Rust's `Err(())`. */
    method SemanticBinary(operator: string, left: PrivateNode, right: PrivateNode)
      returns (t: Option<T.Type>, panicked: bool)
      modifies this, functionTable, coroutineTable, taskTable
      ensures CheckBinary(old(State()), operator, left, right, describe) ==
              if panicked then Panicked else Done(State(), t)
      decreases Size(left) + Size(right), 3
    {
      ghost var st0 := State();
      var leftType, leftPanicked := SemanticOperand(left);
      if leftPanicked {
        return None, true;
      }
      if leftType.None? {
        return None, false;
      }
      ghost var st1 := State();
      assert CheckOperand(st0, left, describe) == Done(st1, leftType);
      var rightType, rightPanicked := SemanticOperand(right);
      assert CheckOperand(st1, right, describe) == if rightPanicked then Panicked else Done(State(), rightType);
      if rightPanicked {
        return None, true;
      }
      if rightType.None? {
        return None, false;
      }
      if leftType != rightType {
        errors := errors + [Mismatched(leftType.value, operator, rightType.value)];
        return None, false;
      }
      return leftType, false;
    }

    /** The value check shared by assignment and `let` initialisers. */
    method SemanticAgainst(name: string, variableType: T.Type, e: PrivateNode)
      returns (t: Option<T.Type>, panicked: bool)
      modifies this, functionTable, coroutineTable, taskTable
      ensures CheckAgainst(old(State()), name, variableType, e, describe) ==
              if panicked then Panicked else Done(State(), t)
      decreases Size(e), 2
    {
      var valueType;
      valueType, panicked := SemanticStatement(e);
      if panicked {
        return None, true;
      }
      match valueType {
        case Some(vt) =>
          if vt == variableType {
            return Some(vt), false;
          }
          errors := errors + [WrongType(name, variableType, T.TypeToString(vt))];
        case None =>
          errors := errors + [WrongType(name, variableType, "none")];
      }
      t := None;
    }

    /** The `FunctionCall` arm of `semantic_statement`. */
    method SemanticCall(name: string, args: seq<PrivateNode>, returnFlg: bool)
      returns (t: Option<T.Type>, panicked: bool)
      modifies this, functionTable, coroutineTable, taskTable
      ensures CheckCall(old(State()), name, args, returnFlg, describe) ==
              if panicked then Panicked else Done(State(), t)
      decreases SeqSize(args), 5
    {
      var found := functionTable.GetFunctionInfo(name);
      if found.None? {
        errors := errors + [Report(Semantic004, [("function_name", name)])];
        return None, false;
      }
      var info := found.value;
      if !info.isVariadic && |info.parameters| != |args| {
        errors := errors + [Report(Semantic008, [("parameter", Decimal.NatToString(|info.parameters|)),
                                                 ("argument", Decimal.NatToString(|args|)),
                                                 ("name", name)])];
        return None, false;
      }
      if !info.isVariadic {
        var params := info.parameters;
        ghost var st0 := State();
        var i := 0;
        while i < |args|
          invariant 0 <= i <= |args| == |params|
          invariant CheckArguments(st0, params, args, describe) ==
                    CheckArguments(State(), params[i..], args[i..], describe)
        {
          SeqSizeElement(args, i);
          assert args[i..][0] == args[i] && args[i..][1..] == args[i + 1..];
          assert params[i..][0] == params[i] && params[i..][1..] == params[i + 1..];
          var argType, argPanicked := SemanticStatement(args[i]);
          if argPanicked {
            return None, true;
          }
          match argType {
            case Some(at) =>
              if at != params[i].variableType {
                errors := errors + [WrongType(params[i].name, params[i].variableType, T.TypeToString(at))];
                return None, false;
              }
            case None =>
              errors := errors + [WrongType(params[i].name, params[i].variableType, "None")];
              return None, false;
          }
          i := i + 1;
        }
      }
      if returnFlg {
        if info.returnType.Some? {
          return info.returnType, false;
        }
        errors := errors + [Report(Semantic005, [("function_name", name)])];
        return None, false;
      }
      return None, false;
    }

    /** `semantic_block`: each statement in order. */
    method SemanticBlock(block: BlockNode) returns (panicked: bool)
      modifies this, functionTable, coroutineTable, taskTable
      ensures CheckStatements(old(State()), block.statements, describe) ==
              if panicked then Panicked else Done(State(), None)
      decreases SeqSize(block.statements), 4
    {
      var s := block.statements;
      ghost var st0 := State();
      var i := 0;
      while i < |s|
        invariant 0 <= i <= |s|
        invariant CheckStatements(st0, s, describe) == CheckStatements(State(), s[i..], describe)
      {
        SeqSizeElement(s, i);
        assert s[i..][0] == s[i] && s[i..][1..] == s[i + 1..];
        var t, p := SemanticStatement(s[i]);
        if p {
          return true;
        }
        i := i + 1;
      }
      return false;
    }

    /** `Semantic::semantic`: register every function and coroutine, then analyse every
        function body and every coroutine body under its name. */
    method Run(ast: RootNode) returns (panicked: bool)
      modifies this, functionTable, coroutineTable, taskTable
      ensures CheckProgram(old(State()), ast, describe) == if panicked then Panicked else Done(State(), None)
    {
      var functions, coroutines := ast.functions, ast.coroutines;
      ghost var st0 := State();
      var i := 0;
      while i < |functions|
        invariant 0 <= i <= |functions|
        invariant RegisterFunctions(st0, functions) == RegisterFunctions(State(), functions[i..])
      {
        var f := functions[i];
        assert functions[i..][1..] == functions[i + 1..];
        functionTable.FunctionDefinition(f.name, f.doc, f.parameters, f.returnType, false, f.block);
        i := i + 1;
      }
      ghost var st1 := State();
      i := 0;
      while i < |coroutines|
        invariant 0 <= i <= |coroutines|
        invariant RegisterCoroutines(st1, coroutines) == RegisterCoroutines(State(), coroutines[i..])
      {
        var c := coroutines[i];
        assert coroutines[i..][1..] == coroutines[i + 1..];
        coroutineTable.CoroutineDefinition(c.name, c.doc, c.block);
        i := i + 1;
      }
      ghost var registered := State();
      assert registered == Registered(st0, ast);
      i := 0;
      while i < |functions|
        invariant 0 <= i <= |functions|
        invariant CheckFunctions(registered, functions, describe) == CheckFunctions(State(), functions[i..], describe)
      {
        assert functions[i..][0] == functions[i] && functions[i..][1..] == functions[i + 1..];
        analysisName := functions[i].name;
        var p := SemanticBlock(functions[i].block);
        if p {
          return true;
        }
        analysisName := "";
        i := i + 1;
      }
      ghost var analysed := State();
      i := 0;
      while i < |coroutines|
        invariant 0 <= i <= |coroutines|
        invariant CheckCoroutines(analysed, coroutines, describe) == CheckCoroutines(State(), coroutines[i..], describe)
      {
        assert coroutines[i..][0] == coroutines[i] && coroutines[i..][1..] == coroutines[i + 1..];
        analysisName := coroutines[i].name;
        var p := SemanticBlock(coroutines[i].block);
        if p {
          return true;
        }
        analysisName := "";
        i := i + 1;
      }
      return false;
    }
  }

  /** The public `semantic`: a fresh analyzer runs over the tree; it is returned when
      nothing was recorded, and otherwise all recorded errors are, in recording order. */
  method SemanticCheck(ast: RootNode, describe: PrivateNode -> string)
    returns (r: Result<Semantic, seq<SemanticError>>, panicked: bool)
    ensures panicked <==> PublicSemantic(ast, describe).Aborted?
    ensures !panicked ==> (r.Ok? <==> PublicSemantic(ast, describe).Accepted?)
    ensures !panicked && r.Ok? ==> r.value.State() == PublicSemantic(ast, describe).state
    ensures !panicked && r.Err? ==> r.error == PublicSemantic(ast, describe).errors
  {
    var semantic := new Semantic(describe);
    panicked := semantic.Run(ast);
    if semantic.errors == [] {
      r := Ok(semantic);
    } else {
      r := Err(semantic.errors);
    }
  }
}
