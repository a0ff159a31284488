/** src/analyzer/semantic.rs, as pure functions over the analyzer's state: the type each
    statement or expression gets, and the errors recorded on the way. The class in
    semantic_analyzer.dfy performs the same walk in place and is proved equal to these
    functions. */
module Semantics {
  import opened Wrappers
  import opened ErrorContexts
  import T = Types
  import O = Operators
  import Tokens
  import Decimal
  import opened LateSyntax
  import opened VariableTables
  import opened FunctionTables
  import opened CoroutineTables
  import opened TaskTables

  /** The codes the checker records; src/error/error_code.rs does not declare them. */
  datatype SemanticCode = Semantic002 | Semantic003 | Semantic004 | Semantic005 | Semantic006
                        | Semantic007 | Semantic008

  type SemanticError = ErrorContext<SemanticCode>

  function Report(code: SemanticCode, params: seq<(string, string)>): SemanticError {
    NewErrorContext(code, None, None, params)
  }

  /** Semantic003: an operand with no type; `describe` stands for Rust's `{:?}` rendering
      of the node. */
  function Untyped(n: PrivateNode, describe: PrivateNode -> string): SemanticError {
    Report(Semantic003, [("node", describe(n))])
  }

  /** Semantic006: a value whose type `valueText` differs from `variableType`. */
  function WrongType(name: string, variableType: T.Type, valueText: string): SemanticError {
    Report(Semantic006, [("variable_name", name), ("variable_type", T.TypeToString(variableType)),
                         ("value_type", valueText)])
  }

  /** Everything the analysis reads or changes: the function, coroutine and task tables,
      the recorded errors and the name of the definition being analysed. */
  datatype SemState = SemState(functions: map<string, FunctionInfo>,
                               coroutines: map<string, CoroutineInfo>,
                               tasks: map<string, TaskValue>,
                               errors: seq<SemanticError>,
                               analysisName: string)

  /** `Semantic::new`: only `print` is known, nothing recorded. */
  const Initial: SemState := SemState(map["print" := PrintInfo], map[], map[], [], "")

  function Record(st: SemState, e: SemanticError): SemState {
    st.(errors := st.errors + [e])
  }

  /** A statement's result: the new state and the type of its value, or a panic. */
  datatype Outcome = Done(st: SemState, t: Option<T.Type>) | Panicked

  /** The argument check's result: all arguments agree, one does not, or a panic. */
  datatype Checked = Passed(st: SemState) | Failed(st: SemState) | CheckPanicked

  /** Sizes, used only as termination measures. */
  function Size(n: PrivateNode): (k: nat)
    ensures k >= 1
  {
    match n
    case Arithmetic(_, l, r) => 1 + Size(l) + OptSize(r)
    case Compare(_, l, r) => 1 + Size(l) + Size(r)
    case FunctionCall(_, args, _) => 1 + SeqSize(args)
    case IfStatement(c, t, e) =>
      1 + Size(c) + SeqSize(t.statements) + (match e case None => 0 case Some(b) => SeqSize(b.statements))
    case Logical(_, l, r) => 1 + Size(l) + OptSize(r)
    case LoopStatement(c, b) => 1 + Size(c) + SeqSize(b.statements)
    case ReturnStatement(a) => 1 + Size(a)
    case VariableAssignment(_, e) => 1 + Size(e)
    case VariableDeclaration(_, _, i, _) => 1 + OptSize(i)
    case _ => 1
  }

  function OptSize(o: Option<PrivateNode>): (k: nat)
    ensures o.Some? ==> k == Size(o.value)
  {
    match o
    case None => 0
    case Some(n) => Size(n)
  }

  function SeqSize(s: seq<PrivateNode>): nat {
    if |s| == 0 then 0 else Size(s[0]) + SeqSize(s[1..])
  }

  lemma {:induction false} SeqSizeElement(s: seq<PrivateNode>, i: nat)
    requires i < |s|
    ensures Size(s[i]) <= SeqSize(s)
  {
    if i > 0 {
      SeqSizeElement(s[1..], i - 1);
    }
  }

  /** The function entry after `let name: t` inside it (only its locals change). */
  function DeclareInFunction(info: FunctionInfo, name: string, t: T.Type): FunctionInfo {
    info.(localVariables := info.localVariables.Declare(name, t))
  }

  function DeclareInCoroutine(info: CoroutineInfo, name: string, t: T.Type): CoroutineInfo {
    info.(localVariables := info.localVariables.Declare(name, t))
  }

  /** `semantic_statement`. */
  function CheckStatement(st: SemState, n: PrivateNode, describe: PrivateNode -> string): Outcome
    decreases Size(n), 1
  {
    match n
    case Arithmetic(op, l, r) =>
      if r.Some? then CheckBinary(st, Tokens.ArithmeticToString(op), l, r.value, describe)
      else CheckOperand(st, l, describe)
    case Compare(op, l, r) => CheckBinary(st, O.ComparisonToString(op), l, r, describe)
    case Logical(op, l, r) =>
      if r.Some? then CheckBinary(st, O.LogicalToString(op), l, r.value, describe)
      else CheckOperand(st, l, describe)
    case CoroutineInstantiation(taskName, coroutineName) =>
      if coroutineName in st.coroutines then
        Done(st.(tasks := st.tasks[taskName := NewTask(taskName, coroutineName,
                                                       st.coroutines[coroutineName].process)]), None)
      else
        Done(Record(st, Report(Semantic004, [("statement", "コルーチン"), ("name", coroutineName)])), None)
    case FunctionCall(name, args, returnFlg) => CheckCall(st, name, args, returnFlg, describe)
    case IfStatement(_, thenBlock, elseBlock) =>
      (match CheckStatements(st, thenBlock.statements, describe)
       case Panicked => Panicked
       case Done(st1, _) =>
         if elseBlock.None? then Done(st1, None)
         else CheckStatements(st1, elseBlock.value.statements, describe))
    case Literal(value) => Done(st, T.LiteralType(value))
    case LoopStatement(_, block) => CheckStatements(st, block.statements, describe)
    case Variable(name) =>
      if st.analysisName !in st.functions then Panicked
      else
        (match st.functions[st.analysisName].localVariables.TypeOf(name)
         case Some(t) => Done(st, Some(t))
         case None => Done(Record(st, Report(Semantic007, [("variable_name", name)])), None))
    case VariableAssignment(name, expression) =>
      if st.analysisName !in st.functions then Panicked
      else
        (match st.functions[st.analysisName].localVariables.TypeOf(name)
         case None => Done(Record(st, Report(Semantic007, [("variable_name", name)])), None)
         case Some(variableType) => CheckAgainst(st, name, variableType, expression, describe))
    case VariableDeclaration(name, variableType, initializer, _) =>
      var an := st.analysisName;
      if an !in st.functions && an !in st.coroutines then Panicked
      else
        var st1 := if an in st.functions
                   then st.(functions := st.functions[an := DeclareInFunction(st.functions[an], name, variableType)])
                   else st.(coroutines := st.coroutines[an := DeclareInCoroutine(st.coroutines[an], name, variableType)]);
        if initializer.None? then Done(st1, None)
        else CheckAgainst(st1, name, variableType, initializer.value, describe)
    case _ => Done(st, None)
  }

  /** The type of an operand; one without a type records Semantic003. */
  function CheckOperand(st: SemState, n: PrivateNode, describe: PrivateNode -> string): Outcome
    decreases Size(n), 2
  {
    match CheckStatement(st, n, describe)
    case Panicked => Panicked
    case Done(st1, Some(t)) => Done(st1, Some(t))
    case Done(st1, None) => Done(Record(st1, Untyped(n, describe)), None)
  }

  /** `semantic_binary`: both operands need a type and the types must agree. */
  function CheckBinary(st: SemState, operator: string, left: PrivateNode, right: PrivateNode,
                       describe: PrivateNode -> string): Outcome
    decreases Size(left) + Size(right), 3
  {
    match CheckOperand(st, left, describe)
    case Panicked => Panicked
    case Done(st1, None) => Done(st1, None)
    case Done(st1, Some(leftType)) =>
      match CheckOperand(st1, right, describe)
      case Panicked => Panicked
      case Done(st2, None) => Done(st2, None)
      case Done(st2, Some(rightType)) =>
        if leftType != rightType then
          Done(Record(st2, Mismatched(leftType, operator, rightType)), None)
        else Done(st2, Some(leftType))
  }

  /** Semantic002: the two operands of `operator` have different types. */
  function Mismatched(leftType: T.Type, operator: string, rightType: T.Type): SemanticError {
    Report(Semantic002, [("left", T.TypeToString(leftType)), ("operator", operator),
                         ("right", T.TypeToString(rightType))])
  }

  /** A value assigned to (or initialising) `name` of type `variableType`. */
  function CheckAgainst(st: SemState, name: string, variableType: T.Type, e: PrivateNode,
                        describe: PrivateNode -> string): Outcome
    decreases Size(e), 2
  {
    match CheckStatement(st, e, describe)
    case Panicked => Panicked
    case Done(st1, Some(t)) =>
      if t == variableType then Done(st1, Some(t))
      else Done(Record(st1, WrongType(name, variableType, T.TypeToString(t))), None)
    case Done(st1, None) => Done(Record(st1, WrongType(name, variableType, "none")), None)
  }

  /** The `FunctionCall` arm. */
  function CheckCall(st: SemState, name: string, args: seq<PrivateNode>, returnFlg: bool,
                     describe: PrivateNode -> string): Outcome
    decreases SeqSize(args), 5
  {
    if name !in st.functions then
      Done(Record(st, Report(Semantic004, [("function_name", name)])), None)
    else
      var info := st.functions[name];
      if !info.isVariadic && |info.parameters| != |args| then
        Done(Record(st, Report(Semantic008, [("parameter", Decimal.NatToString(|info.parameters|)),
                                             ("argument", Decimal.NatToString(|args|)),
                                             ("name", name)])), None)
      else
        var checked := if info.isVariadic then Passed(st) else CheckArguments(st, info.parameters, args, describe);
        match checked
        case CheckPanicked => Panicked
        case Failed(st1) => Done(st1, None)
        case Passed(st1) =>
          if !returnFlg then Done(st1, None)
          else if info.returnType.Some? then Done(st1, info.returnType)
          else Done(Record(st1, Report(Semantic005, [("function_name", name)])), None)
  }

  /** The argument loop: pairs parameters with arguments and stops at the first argument
      that has no type or the wrong one. */
  function CheckArguments(st: SemState, params: seq<ParameterNode>, args: seq<PrivateNode>,
                          describe: PrivateNode -> string): Checked
    decreases SeqSize(args), 4
  {
    if |params| == 0 || |args| == 0 then Passed(st)
    else
      match CheckStatement(st, args[0], describe)
      case Panicked => CheckPanicked
      case Done(st1, Some(t)) =>
        if t != params[0].variableType then
          Failed(Record(st1, WrongType(params[0].name, params[0].variableType, T.TypeToString(t))))
        else CheckArguments(st1, params[1..], args[1..], describe)
      case Done(st1, None) => Failed(Record(st1, WrongType(params[0].name, params[0].variableType, "None")))
  }

  /** `semantic_block`: the statements in order, their types discarded. */
  function CheckStatements(st: SemState, s: seq<PrivateNode>, describe: PrivateNode -> string): Outcome
    decreases SeqSize(s), 4
  {
    if |s| == 0 then Done(st, None)
    else
      match CheckStatement(st, s[0], describe)
      case Panicked => Panicked
      case Done(st1, _) => CheckStatements(st1, s[1..], describe)
  }

  /** The first loop of `Semantic::semantic`: each function registered, not variadic. */
  function RegisterFunctions(st: SemState, fs: seq<FunctionDefinitionNode>): SemState
    decreases |fs|
  {
    if |fs| == 0 then st
    else
      var f := fs[0];
      RegisterFunctions(st.(functions := st.functions[f.name := DefinedInfo(f.name, f.doc, f.parameters,
                                                                             f.returnType, false, f.block)]),
                        fs[1..])
  }

  /** The second loop: each coroutine registered. */
  function RegisterCoroutines(st: SemState, cs: seq<CoroutineDefinitionNode>): SemState
    decreases |cs|
  {
    if |cs| == 0 then st
    else
      var c := cs[0];
      RegisterCoroutines(st.(coroutines := st.coroutines[c.name := DefinedCoroutine(c.name, c.doc, c.block)]),
                         cs[1..])
  }

  /** Analysis of one definition body under its name; the name is reset afterwards. */
  function CheckBody(st: SemState, name: string, block: BlockNode, describe: PrivateNode -> string): Outcome {
    match CheckStatements(st.(analysisName := name), block.statements, describe)
    case Panicked => Panicked
    case Done(st1, _) => Done(st1.(analysisName := ""), None)
  }

  /** The third loop: every function body, in order. */
  function CheckFunctions(st: SemState, fs: seq<FunctionDefinitionNode>, describe: PrivateNode -> string): Outcome
    decreases |fs|
  {
    if |fs| == 0 then Done(st, None)
    else
      match CheckBody(st, fs[0].name, fs[0].block, describe)
      case Panicked => Panicked
      case Done(st1, _) => CheckFunctions(st1, fs[1..], describe)
  }

  /** The fourth loop: every coroutine body, in order. */
  function CheckCoroutines(st: SemState, cs: seq<CoroutineDefinitionNode>, describe: PrivateNode -> string): Outcome
    decreases |cs|
  {
    if |cs| == 0 then Done(st, None)
    else
      match CheckBody(st, cs[0].name, cs[0].block, describe)
      case Panicked => Panicked
      case Done(st1, _) => CheckCoroutines(st1, cs[1..], describe)
  }

  /** The state after both registration loops. */
  function Registered(st: SemState, ast: RootNode): SemState {
    RegisterCoroutines(RegisterFunctions(st, ast.functions), ast.coroutines)
  }

  /** `Semantic::semantic`. */
  function CheckProgram(st: SemState, ast: RootNode, describe: PrivateNode -> string): Outcome {
    match CheckFunctions(Registered(st, ast), ast.functions, describe)
    case Panicked => Panicked
    case Done(st1, _) => CheckCoroutines(st1, ast.coroutines, describe)
  }

  // ---------------------------------------------------------------------------------
  // What every step keeps.

  /** `b` is `a` with errors appended, the same definition being analysed, the same
      function and coroutine names, and every function signature (everything but its
      locals) unchanged. */
  predicate Extends(a: SemState, b: SemState) {
    |a.errors| <= |b.errors| && b.errors[..|a.errors|] == a.errors &&
    b.analysisName == a.analysisName &&
    b.functions.Keys == a.functions.Keys && b.coroutines.Keys == a.coroutines.Keys &&
    forall k :: k in a.functions ==>
      b.functions[k].(localVariables := a.functions[k].localVariables) == a.functions[k]
  }

  lemma ExtendsTransitive(a: SemState, b: SemState, c: SemState)
    requires Extends(a, b) && Extends(b, c)
    ensures Extends(a, c)
  {
    assert c.errors[..|a.errors|] == c.errors[..|b.errors|][..|a.errors|];
  }

  lemma RecordExtends(st: SemState, e: SemanticError)
    ensures Extends(st, Record(st, e))
  {
    assert Record(st, e).errors[..|st.errors|] == st.errors;
  }

  lemma {:induction false} StatementExtends(st: SemState, n: PrivateNode, describe: PrivateNode -> string)
    ensures CheckStatement(st, n, describe).Done? ==> Extends(st, CheckStatement(st, n, describe).st)
    decreases Size(n), 1
  {
    var r := CheckStatement(st, n, describe);
    match n {
      case Arithmetic(op, l, r0) =>
        if r0.Some? {
          BinaryExtends(st, Tokens.ArithmeticToString(op), l, r0.value, describe);
        } else {
          OperandExtends(st, l, describe);
        }
      case Compare(op, l, r0) =>
        BinaryExtends(st, O.ComparisonToString(op), l, r0, describe);
      case Logical(op, l, r0) =>
        if r0.Some? {
          BinaryExtends(st, O.LogicalToString(op), l, r0.value, describe);
        } else {
          OperandExtends(st, l, describe);
        }
      case CoroutineInstantiation(_, coroutineName) =>
        if coroutineName !in st.coroutines {
          RecordExtends(st, Report(Semantic004, [("statement", "コルーチン"), ("name", coroutineName)]));
        }
      case FunctionCall(name, args, returnFlg) =>
        CallExtends(st, name, args, returnFlg, describe);
      case IfStatement(_, thenBlock, elseBlock) =>
        StatementsExtends(st, thenBlock.statements, describe);
        var r1 := CheckStatements(st, thenBlock.statements, describe);
        if r1.Done? && elseBlock.Some? {
          StatementsExtends(r1.st, elseBlock.value.statements, describe);
          if r.Done? {
            ExtendsTransitive(st, r1.st, r.st);
          }
        }
      case Literal(_) =>
      case LoopStatement(_, block) =>
        StatementsExtends(st, block.statements, describe);
      case Variable(name) =>
        if st.analysisName in st.functions && st.functions[st.analysisName].localVariables.TypeOf(name).None? {
          RecordExtends(st, Report(Semantic007, [("variable_name", name)]));
        }
      case VariableAssignment(name, expression) =>
        if st.analysisName in st.functions {
          match st.functions[st.analysisName].localVariables.TypeOf(name) {
            case None =>
              RecordExtends(st, Report(Semantic007, [("variable_name", name)]));
            case Some(variableType) =>
              AgainstExtends(st, name, variableType, expression, describe);
          }
        }
      case VariableDeclaration(name, variableType, initializer, _) =>
        var an := st.analysisName;
        if an in st.functions || an in st.coroutines {
          var st1 := if an in st.functions
                     then st.(functions := st.functions[an := DeclareInFunction(st.functions[an], name, variableType)])
                     else st.(coroutines := st.coroutines[an := DeclareInCoroutine(st.coroutines[an], name, variableType)]);
          assert Extends(st, st1);
          if initializer.Some? {
            AgainstExtends(st1, name, variableType, initializer.value, describe);
            if r.Done? {
              ExtendsTransitive(st, st1, r.st);
            }
          }
        }
      case _ =>
    }
  }

  lemma {:induction false} OperandExtends(st: SemState, n: PrivateNode, describe: PrivateNode -> string)
    ensures CheckOperand(st, n, describe).Done? ==> Extends(st, CheckOperand(st, n, describe).st)
    decreases Size(n), 2
  {
    StatementExtends(st, n, describe);
    var r := CheckStatement(st, n, describe);
    if r.Done? && r.t.None? {
      RecordExtends(r.st, Untyped(n, describe));
      ExtendsTransitive(st, r.st, Record(r.st, Untyped(n, describe)));
    }
  }

  lemma {:induction false} BinaryExtends(st: SemState, operator: string, left: PrivateNode, right: PrivateNode,
                                         describe: PrivateNode -> string)
    ensures CheckBinary(st, operator, left, right, describe).Done? ==>
      Extends(st, CheckBinary(st, operator, left, right, describe).st)
    decreases Size(left) + Size(right), 3
  {
    OperandExtends(st, left, describe);
    var r1 := CheckOperand(st, left, describe);
    if r1.Done? && r1.t.Some? {
      OperandExtends(r1.st, right, describe);
      var r2 := CheckOperand(r1.st, right, describe);
      if r2.Done? {
        ExtendsTransitive(st, r1.st, r2.st);
        if r2.t.Some? && r2.t != r1.t {
          var e := Mismatched(r1.t.value, operator, r2.t.value);
          RecordExtends(r2.st, e);
          ExtendsTransitive(st, r2.st, Record(r2.st, e));
        }
      }
    }
  }

  lemma {:induction false} AgainstExtends(st: SemState, name: string, variableType: T.Type, e: PrivateNode,
                                          describe: PrivateNode -> string)
    ensures CheckAgainst(st, name, variableType, e, describe).Done? ==>
      Extends(st, CheckAgainst(st, name, variableType, e, describe).st)
    decreases Size(e), 2
  {
    StatementExtends(st, e, describe);
    var r := CheckStatement(st, e, describe);
    if r.Done? {
      var err := WrongType(name, variableType, if r.t.Some? then T.TypeToString(r.t.value) else "none");
      RecordExtends(r.st, err);
      ExtendsTransitive(st, r.st, Record(r.st, err));
    }
  }

  lemma {:induction false} CallExtends(st: SemState, name: string, args: seq<PrivateNode>, returnFlg: bool,
                                       describe: PrivateNode -> string)
    ensures CheckCall(st, name, args, returnFlg, describe).Done? ==>
      Extends(st, CheckCall(st, name, args, returnFlg, describe).st)
    decreases SeqSize(args), 5
  {
    if name !in st.functions {
      RecordExtends(st, Report(Semantic004, [("function_name", name)]));
    } else {
      var info := st.functions[name];
      if !info.isVariadic && |info.parameters| != |args| {
        RecordExtends(st, Report(Semantic008, [("parameter", Decimal.NatToString(|info.parameters|)),
                                               ("argument", Decimal.NatToString(|args|)),
                                               ("name", name)]));
      } else {
        var checked := if info.isVariadic then Passed(st) else CheckArguments(st, info.parameters, args, describe);
        if !info.isVariadic {
          ArgumentsExtends(st, info.parameters, args, describe);
        }
        if checked.Passed? {
          var e := Report(Semantic005, [("function_name", name)]);
          RecordExtends(checked.st, e);
          ExtendsTransitive(st, checked.st, Record(checked.st, e));
        }
      }
    }
  }

  lemma {:induction false} ArgumentsExtends(st: SemState, params: seq<ParameterNode>, args: seq<PrivateNode>,
                                            describe: PrivateNode -> string)
    ensures !CheckArguments(st, params, args, describe).CheckPanicked? ==>
      Extends(st, CheckArguments(st, params, args, describe).st)
    decreases SeqSize(args), 4
  {
    if |params| > 0 && |args| > 0 {
      StatementExtends(st, args[0], describe);
      var r := CheckStatement(st, args[0], describe);
      if r.Done? {
        var err := WrongType(params[0].name, params[0].variableType,
                             if r.t.Some? then T.TypeToString(r.t.value) else "None");
        RecordExtends(r.st, err);
        ExtendsTransitive(st, r.st, Record(r.st, err));
        ArgumentsExtends(r.st, params[1..], args[1..], describe);
        var rest := CheckArguments(r.st, params[1..], args[1..], describe);
        if !rest.CheckPanicked? {
          ExtendsTransitive(st, r.st, rest.st);
        }
      }
    }
  }

  lemma {:induction false} StatementsExtends(st: SemState, s: seq<PrivateNode>, describe: PrivateNode -> string)
    ensures CheckStatements(st, s, describe).Done? ==> Extends(st, CheckStatements(st, s, describe).st)
    decreases SeqSize(s), 4
  {
    if |s| > 0 {
      StatementExtends(st, s[0], describe);
      var r := CheckStatement(st, s[0], describe);
      if r.Done? {
        StatementsExtends(r.st, s[1..], describe);
        var rest := CheckStatements(r.st, s[1..], describe);
        if rest.Done? {
          ExtendsTransitive(st, r.st, rest.st);
        }
      }
    }
  }

  // ---------------------------------------------------------------------------------
  // The typing rules.

  /** The code of the last error recorded in `st`. */
  function LastCode(st: SemState): SemanticCode
    requires |st.errors| > 0
  {
    st.errors[|st.errors| - 1].errorCode
  }

  /** Literals change nothing and get their own type; Null gets none. */
  lemma LiteralStatement(st: SemState, v: T.LiteralValue, describe: PrivateNode -> string)
    ensures CheckStatement(st, Literal(v), describe).Done?
    ensures CheckStatement(st, Literal(v), describe).st == st
    ensures CheckStatement(st, Literal(v), describe).t == T.LiteralType(v)
  {
  }

  /** A binary operation has a type exactly when both operands have one and the types are
      equal; it is then that type and the operation records nothing of its own. Otherwise
      its last recorded error is Semantic003 (an operand without type) or Semantic002 (a
      mismatch). */
  lemma BinaryTyping(st: SemState, operator: string, left: PrivateNode, right: PrivateNode,
                     describe: PrivateNode -> string)
    requires CheckBinary(st, operator, left, right, describe).Done?
    ensures var r := CheckBinary(st, operator, left, right, describe);
      var l := CheckStatement(st, left, describe);
      (r.t.Some? <==> (l.Done? && l.t.Some? && CheckStatement(l.st, right, describe).Done? &&
                       CheckStatement(l.st, right, describe).t == l.t))
    ensures var r := CheckBinary(st, operator, left, right, describe);
      var l := CheckStatement(st, left, describe);
      r.t.Some? ==> r.t == l.t && r.st == CheckStatement(l.st, right, describe).st
    ensures var r := CheckBinary(st, operator, left, right, describe);
      r.t.None? ==> |r.st.errors| > 0 && LastCode(r.st) in {Semantic002, Semantic003}
  {
  }

  /** The value check of an assignment or initialiser: it has a type exactly when the
      value's type is the variable's, and otherwise records Semantic006 naming the
      variable, its type and the value's type ("none" when it has none). */
  lemma AgainstTyping(st: SemState, name: string, variableType: T.Type, e: PrivateNode,
                      describe: PrivateNode -> string)
    requires CheckStatement(st, e, describe).Done?
    ensures var r := CheckAgainst(st, name, variableType, e, describe);
      var v := CheckStatement(st, e, describe);
      r.Done? && (r.t.Some? <==> v.t == Some(variableType)) &&
      (r.t.Some? ==> r.t == Some(variableType) && r.st == v.st) &&
      (r.t.None? ==> r.st == Record(v.st, WrongType(name, variableType,
                                                     if v.t.Some? then T.TypeToString(v.t.value) else "none")))
  {
  }

  /** Assignment to a variable the current function has not declared records Semantic007
      and does not look at the right-hand side; to a declared one it is the value check
      against the declared type. */
  lemma AssignmentRules(st: SemState, name: string, e: PrivateNode, describe: PrivateNode -> string)
    requires st.analysisName in st.functions
    ensures var locals := st.functions[st.analysisName].localVariables;
      locals.TypeOf(name).None? ==>
        CheckStatement(st, VariableAssignment(name, e), describe) ==
        Done(Record(st, Report(Semantic007, [("variable_name", name)])), None)
    ensures var locals := st.functions[st.analysisName].localVariables;
      locals.TypeOf(name).Some? ==>
        CheckStatement(st, VariableAssignment(name, e), describe) ==
        CheckAgainst(st, name, locals.TypeOf(name).value, e, describe)
  {
  }

  /** `let` declares the variable before its initialiser is checked, so a fresh variable
      may be initialised from itself without error. */
  lemma DeclarationBeforeInitialiser(st: SemState, name: string, variableType: T.Type,
                                     doc: Option<string>, describe: PrivateNode -> string)
    requires st.analysisName in st.functions
    requires st.functions[st.analysisName].localVariables.TypeOf(name).None?
    ensures var r := CheckStatement(st, VariableDeclaration(name, variableType, Some(Variable(name)), doc), describe);
      r.Done? && r.t == Some(variableType) && r.st.errors == st.errors
  {
    var an := st.analysisName;
    var locals := st.functions[an].localVariables;
    DeclareThenType(locals, name, variableType, name);
    var st1 := st.(functions := st.functions[an := DeclareInFunction(st.functions[an], name, variableType)]);
    assert st1.functions[an].localVariables.TypeOf(name) == Some(variableType);
    var v := CheckStatement(st1, Variable(name), describe);
    assert v == Done(st1, Some(variableType));
    assert CheckAgainst(st1, name, variableType, Variable(name), describe) == Done(st1, Some(variableType));
  }

  /** Outside a function (in a coroutine body, say) reading a variable panics: the lookup
      goes to the function table only. */
  lemma VariableOutsideFunction(st: SemState, name: string, describe: PrivateNode -> string)
    requires st.analysisName !in st.functions
    ensures CheckStatement(st, Variable(name), describe) == Panicked
  {
  }

  /** An unknown function records Semantic004 and its arguments are not analysed; an
      arity mismatch on a non-variadic function records Semantic008 before any argument
      is analysed; a variadic function's arguments are never analysed. */
  lemma CallRules(st: SemState, name: string, args: seq<PrivateNode>, returnFlg: bool,
                  describe: PrivateNode -> string)
    ensures name !in st.functions ==>
      CheckCall(st, name, args, returnFlg, describe) ==
      Done(Record(st, Report(Semantic004, [("function_name", name)])), None)
    ensures name in st.functions && !st.functions[name].isVariadic &&
            |st.functions[name].parameters| != |args| ==>
      var r := CheckCall(st, name, args, returnFlg, describe);
      r.Done? && r.t.None? && r.st.errors == st.errors + [r.st.errors[|st.errors|]] &&
      r.st == Record(st, r.st.errors[|st.errors|]) && LastCode(r.st) == Semantic008
    ensures name in st.functions && st.functions[name].isVariadic ==>
      var r := CheckCall(st, name, args, returnFlg, describe);
      r.Done? && (r.st == st || r.st == Record(st, Report(Semantic005, [("function_name", name)])))
  {
  }

  /** A call has a value exactly when it is used as a value, the function is known, the
      arguments pass and a return type is declared; the value is that type. A value-used
      call that passes but has no return type records Semantic005. */
  lemma CallValue(st: SemState, name: string, args: seq<PrivateNode>, returnFlg: bool,
                  describe: PrivateNode -> string)
    requires CheckCall(st, name, args, returnFlg, describe).Done?
    ensures var r := CheckCall(st, name, args, returnFlg, describe);
      r.t.Some? <==> (returnFlg && name in st.functions && st.functions[name].returnType.Some? &&
                      (st.functions[name].isVariadic ||
                       (|st.functions[name].parameters| == |args| &&
                        CheckArguments(st, st.functions[name].parameters, args, describe).Passed?)))
    ensures var r := CheckCall(st, name, args, returnFlg, describe);
      r.t.Some? ==> r.t == st.functions[name].returnType
    ensures var r := CheckCall(st, name, args, returnFlg, describe);
      returnFlg && name in st.functions && st.functions[name].returnType.None? &&
      (st.functions[name].isVariadic ||
       (|st.functions[name].parameters| == |args| &&
        CheckArguments(st, st.functions[name].parameters, args, describe).Passed?)) ==>
      |r.st.errors| > 0 && LastCode(r.st) == Semantic005
  {
  }

  /** The argument check fails only by recording Semantic006 for one of the parameters. */
  lemma {:induction false} ArgumentsFailure(st: SemState, params: seq<ParameterNode>, args: seq<PrivateNode>,
                                            describe: PrivateNode -> string)
    requires CheckArguments(st, params, args, describe).Failed?
    ensures var r := CheckArguments(st, params, args, describe).st;
      |r.errors| > 0 &&
      exists k, valueText :: 0 <= k < |params| &&
        r.errors[|r.errors| - 1] == WrongType(params[k].name, params[k].variableType, valueText)
    decreases |args|
  {
    var r := CheckStatement(st, args[0], describe);
    if r.t.Some? && r.t.value == params[0].variableType {
      ArgumentsFailure(r.st, params[1..], args[1..], describe);
      var last := CheckArguments(st, params, args, describe).st;
      var k, valueText :| 0 <= k < |params[1..]| &&
        last.errors[|last.errors| - 1] == WrongType(params[1..][k].name, params[1..][k].variableType, valueText);
      assert params[1..][k] == params[k + 1];
    } else {
      var last := CheckArguments(st, params, args, describe).st;
      var valueText := if r.t.Some? then T.TypeToString(r.t.value) else "None";
      assert last.errors[|last.errors| - 1] == WrongType(params[0].name, params[0].variableType, valueText);
    }
  }

  /** Instantiating a known coroutine adds a fresh task over its body under the task
      name, replacing any task of that name, and records nothing; an unknown one records
      Semantic004 and adds no task. */
  lemma InstantiationRules(st: SemState, taskName: string, coroutineName: string,
                           describe: PrivateNode -> string)
    ensures var r := CheckStatement(st, CoroutineInstantiation(taskName, coroutineName), describe);
      r.Done? && r.t.None? && r.st.functions == st.functions && r.st.coroutines == st.coroutines
    ensures var r := CheckStatement(st, CoroutineInstantiation(taskName, coroutineName), describe);
      coroutineName in st.coroutines ==>
        r.st.errors == st.errors && taskName in r.st.tasks &&
        r.st.tasks[taskName].cursor == Cursors.Fresh &&
        r.st.tasks[taskName].process == st.coroutines[coroutineName].process.statements &&
        forall other :: other in st.tasks && other != taskName ==> other in r.st.tasks && r.st.tasks[other] == st.tasks[other]
    ensures var r := CheckStatement(st, CoroutineInstantiation(taskName, coroutineName), describe);
      coroutineName !in st.coroutines ==>
        r.st.tasks == st.tasks && |r.st.errors| == |st.errors| + 1 && LastCode(r.st) == Semantic004
  {
  }

  // ---------------------------------------------------------------------------------
  // The whole program.

  /** The names a list of definitions binds. */
  function FunctionNames(fs: seq<FunctionDefinitionNode>): set<string> {
    set i | 0 <= i < |fs| :: fs[i].name
  }

  function CoroutineNames(cs: seq<CoroutineDefinitionNode>): set<string> {
    set i | 0 <= i < |cs| :: cs[i].name
  }

  /** Registration adds exactly the defined names, changes nothing else, and a name's
      entry comes from its last definition. */
  lemma {:induction false} RegisterFunctionsSpec(st: SemState, fs: seq<FunctionDefinitionNode>)
    ensures var r := RegisterFunctions(st, fs);
      r.functions.Keys == st.functions.Keys + FunctionNames(fs) &&
      r.coroutines == st.coroutines && r.tasks == st.tasks && r.errors == st.errors &&
      r.analysisName == st.analysisName
    ensures forall k :: 0 <= k < |fs| && (forall j :: k < j < |fs| ==> fs[j].name != fs[k].name) ==>
      RegisterFunctions(st, fs).functions[fs[k].name] ==
      DefinedInfo(fs[k].name, fs[k].doc, fs[k].parameters, fs[k].returnType, false, fs[k].block)
    ensures forall n :: n in st.functions && n !in FunctionNames(fs) ==>
      RegisterFunctions(st, fs).functions[n] == st.functions[n]
    decreases |fs|
  {
    if |fs| > 0 {
      var f := fs[0];
      var st1 := st.(functions := st.functions[f.name := DefinedInfo(f.name, f.doc, f.parameters,
                                                                      f.returnType, false, f.block)]);
      RegisterFunctionsSpec(st1, fs[1..]);
      assert FunctionNames(fs) == {f.name} + FunctionNames(fs[1..]) by {
        forall n | n in FunctionNames(fs) ensures n in {f.name} + FunctionNames(fs[1..]) {
          var i :| 0 <= i < |fs| && fs[i].name == n;
          if i > 0 {
            assert fs[1..][i - 1] == fs[i];
          }
        }
        forall n | n in FunctionNames(fs[1..]) ensures n in FunctionNames(fs) {
          var i :| 0 <= i < |fs[1..]| && fs[1..][i].name == n;
          assert fs[i + 1] == fs[1..][i];
        }
      }
      forall k | 0 <= k < |fs| && (forall j :: k < j < |fs| ==> fs[j].name != fs[k].name)
        ensures RegisterFunctions(st, fs).functions[fs[k].name] ==
                DefinedInfo(fs[k].name, fs[k].doc, fs[k].parameters, fs[k].returnType, false, fs[k].block)
      {
        if k > 0 {
          assert fs[1..][k - 1] == fs[k];
          assert forall j :: k - 1 < j < |fs[1..]| ==> fs[1..][j].name != fs[1..][k - 1].name by {
            forall j | k - 1 < j < |fs[1..]| ensures fs[1..][j].name != fs[1..][k - 1].name {
              assert fs[1..][j] == fs[j + 1];
            }
          }
        } else {
          forall i | 0 <= i < |fs[1..]| ensures fs[1..][i].name != f.name {
            assert fs[1..][i] == fs[i + 1];
          }
        }
      }
    }
  }

  lemma {:induction false} RegisterCoroutinesSpec(st: SemState, cs: seq<CoroutineDefinitionNode>)
    ensures var r := RegisterCoroutines(st, cs);
      r.coroutines.Keys == st.coroutines.Keys + CoroutineNames(cs) &&
      r.functions == st.functions && r.tasks == st.tasks && r.errors == st.errors &&
      r.analysisName == st.analysisName
    decreases |cs|
  {
    if |cs| > 0 {
      var c := cs[0];
      RegisterCoroutinesSpec(st.(coroutines := st.coroutines[c.name := DefinedCoroutine(c.name, c.doc, c.block)]), cs[1..]);
      assert CoroutineNames(cs) == {c.name} + CoroutineNames(cs[1..]) by {
        forall n | n in CoroutineNames(cs) ensures n in {c.name} + CoroutineNames(cs[1..]) {
          var i :| 0 <= i < |cs| && cs[i].name == n;
          if i > 0 {
            assert cs[1..][i - 1] == cs[i];
          }
        }
        forall n | n in CoroutineNames(cs[1..]) ensures n in CoroutineNames(cs) {
          var i :| 0 <= i < |cs[1..]| && cs[1..][i].name == n;
          assert cs[i + 1] == cs[1..][i];
        }
      }
    }
  }

  lemma BodyExtends(st: SemState, name: string, block: BlockNode, describe: PrivateNode -> string)
    requires st.analysisName == ""
    ensures CheckBody(st, name, block, describe).Done? ==> Extends(st, CheckBody(st, name, block, describe).st)
  {
    StatementsExtends(st.(analysisName := name), block.statements, describe);
  }

  lemma {:induction false} FunctionsExtend(st: SemState, fs: seq<FunctionDefinitionNode>, describe: PrivateNode -> string)
    requires st.analysisName == ""
    ensures CheckFunctions(st, fs, describe).Done? ==> Extends(st, CheckFunctions(st, fs, describe).st)
    decreases |fs|
  {
    if |fs| > 0 {
      BodyExtends(st, fs[0].name, fs[0].block, describe);
      var r := CheckBody(st, fs[0].name, fs[0].block, describe);
      if r.Done? {
        FunctionsExtend(r.st, fs[1..], describe);
        if CheckFunctions(r.st, fs[1..], describe).Done? {
          ExtendsTransitive(st, r.st, CheckFunctions(r.st, fs[1..], describe).st);
        }
      }
    }
  }

  lemma {:induction false} CoroutinesExtend(st: SemState, cs: seq<CoroutineDefinitionNode>, describe: PrivateNode -> string)
    requires st.analysisName == ""
    ensures CheckCoroutines(st, cs, describe).Done? ==> Extends(st, CheckCoroutines(st, cs, describe).st)
    decreases |cs|
  {
    if |cs| > 0 {
      BodyExtends(st, cs[0].name, cs[0].block, describe);
      var r := CheckBody(st, cs[0].name, cs[0].block, describe);
      if r.Done? {
        CoroutinesExtend(r.st, cs[1..], describe);
        if CheckCoroutines(r.st, cs[1..], describe).Done? {
          ExtendsTransitive(st, r.st, CheckCoroutines(r.st, cs[1..], describe).st);
        }
      }
    }
  }

  /** Every definition is registered before any body is analysed, and analysis adds no
      name: throughout, the functions known are `print` and those the program defines,
      whatever their order, and the coroutines known are those it defines. The errors of
      the whole run are recorded after registration, in order. */
  lemma ProgramNames(ast: RootNode, describe: PrivateNode -> string)
    ensures var reg := Registered(Initial, ast);
      reg.functions.Keys == {"print"} + FunctionNames(ast.functions) &&
      reg.coroutines.Keys == CoroutineNames(ast.coroutines) && reg.errors == []
    ensures var r := CheckProgram(Initial, ast, describe);
      r.Done? ==> Extends(Registered(Initial, ast), r.st)
  {
    RegisterFunctionsSpec(Initial, ast.functions);
    var rf := RegisterFunctions(Initial, ast.functions);
    RegisterCoroutinesSpec(rf, ast.coroutines);
    var reg := Registered(Initial, ast);
    FunctionsExtend(reg, ast.functions, describe);
    var r1 := CheckFunctions(reg, ast.functions, describe);
    if r1.Done? {
      CoroutinesExtend(r1.st, ast.coroutines, describe);
      if CheckCoroutines(r1.st, ast.coroutines, describe).Done? {
        ExtendsTransitive(reg, r1.st, CheckCoroutines(r1.st, ast.coroutines, describe).st);
      }
    }
  }

  /** The public `semantic`: the analyzer when nothing was recorded, otherwise every
      recorded error; a panic aborts. */
  datatype Verdict = Accepted(state: SemState) | Rejected(errors: seq<SemanticError>) | Aborted

  function PublicSemantic(ast: RootNode, describe: PrivateNode -> string): (v: Verdict)
    ensures v.Aborted? <==> CheckProgram(Initial, ast, describe).Panicked?
    ensures v.Accepted? ==> v.state == CheckProgram(Initial, ast, describe).st && v.state.errors == []
    ensures v.Rejected? ==> v.errors == CheckProgram(Initial, ast, describe).st.errors && v.errors != []
  {
    match CheckProgram(Initial, ast, describe)
    case Panicked => Aborted
    case Done(st, _) => if st.errors == [] then Accepted(st) else Rejected(st.errors)
  }
}
