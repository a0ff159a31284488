/** src/interpreter/execute.rs as a pure specification: the tree-walking interpreter over
    the `Node` tree it matches on, with its scope stack, its function table and the lines
    `print` writes. An error ends the whole run, so every outcome carries the state
    reached when it was produced (the lines printed up to then are observable). */
module Execution {
  import opened Wrappers
  import opened Types
  import O = Operators
  import opened ErrorCodes
  import opened ErrorContexts
  import opened Scopes
  import Decimal
  import Text

  /** The `Node` that execute.rs matches on. Its declaration is not part of this model;
      the variants and fields are the ones execute.rs constructs or destructures. */
  datatype Node =
    | Block(blockType: BlockType, statements: seq<Node>)
    | FunctionCall(name: string, arguments: seq<Node>)
    | FunctionCallWithReturn(name: string, arguments: seq<Node>)
    | VariableDeclaration(name: string, variableType: Type)
    | VariableAssignment(name: string, expression: Node)
    | IfStatement(conditionNode: Node, thenBlock: Node, elseBlock: Option<Node>)
    | LoopStatement(conditionNode: Node, block: Node)
    | FunctionDefinition(name: string, parameters: seq<Node>, block: Node)
    | ReturnStatement(assignable: Node)
    | Logical(logical: O.Logical, left: Node, logicalRight: Option<Node>)
    | Compare(comparison: O.Comparison, left: Node, right: Node)
    | Arithmetic(arithmetic: O.Arithmetic, left: Node, arithmeticRight: Option<Node>)
    | Variable(name: string)
    | Literal(value: LiteralValue)

  /** Why a run stops early. `Coded` is a message built from the error table for a code
      and its parameters; `Message` a fixed text; `Panic` an abort of the Rust process
      (integer overflow, division by zero); `OutOfFuel` the fuel bound of this model;
      `FloatNotModelled` an `f64` operation, which this model does not compute. */
  datatype ExecError =
    | Coded(context: ErrorContext<ErrorCode>)
    | Message(text: string)
    | Panic(reason: string)
    | OutOfFuel
    | FloatNotModelled

  function Fail(code: ErrorCode, params: seq<(string, string)>): ExecError {
    Coded(ErrorContext(code, None, None, params))
  }

  /** A stored function: its parameter names and types, and its body. */
  type FunctionEntry = (seq<(string, Type)>, Node)

  /** `Interpreter`: `variables` is the scope stack and `functions` the table; `output`
      holds the lines `println!` wrote, oldest first. */
  datatype ExecState = ExecState(scopes: seq<Scope>, functions: map<string, FunctionEntry>,
                                 output: seq<string>)

  /** `Interpreter::new`: one empty scope and no functions. */
  const Initial := ExecState([map[]], map[], [])

  datatype Outcome<+T> = Normal(st: ExecState, value: T) | Abrupt(st: ExecState, error: ExecError)

  /** What every step keeps: printed lines are only appended, defined functions are
      never forgotten, and a step that completes leaves the scope stack as deep as it
      found it (one that fails may leave pushed scopes behind, never fewer). */
  predicate Evolves(before: ExecState, after: ExecState, completed: bool) {
    && before.output <= after.output
    && before.functions.Keys <= after.functions.Keys
    && (if completed then |after.scopes| == |before.scopes| else |after.scopes| >= |before.scopes|)
  }

  /** Two scopes bind the same names at the same types (values may differ). */
  predicate SameNames(a: Scope, b: Scope) {
    a.Keys == b.Keys && forall x :: x in a ==> b[x].valueType == a[x].valueType
  }

  /** What a completed step does to the scope stack: it stays as deep, every scope below
      the innermost keeps its names and their types, and the innermost only gains names.
      Values may change anywhere: an assignment reaches the nearest binding in any scope. */
  predicate KeepsBindings(before: seq<Scope>, after: seq<Scope>) {
    && |after| == |before|
    && (forall i :: 0 <= i < |before| - 1 ==> SameNames(before[i], after[i]))
    && (|before| > 0 ==> before[|before| - 1].Keys <= after[|before| - 1].Keys)
  }

  function Size(n: Node): (k: nat)
    ensures k >= 1
  {
    match n
    case Block(_, s) => 1 + SeqSize(s)
    case FunctionCall(_, a) => 1 + SeqSize(a)
    case FunctionCallWithReturn(_, a) => 1 + SeqSize(a)
    case VariableAssignment(_, e) => 1 + Size(e)
    case IfStatement(c, t, e) => 1 + Size(c) + Size(t) + OptSize(e)
    case LoopStatement(c, b) => 1 + Size(c) + Size(b)
    case FunctionDefinition(_, ps, b) => 1 + SeqSize(ps) + Size(b)
    case ReturnStatement(a) => 1 + Size(a)
    case Logical(_, l, r) => 1 + Size(l) + OptSize(r)
    case Compare(_, l, r) => 1 + Size(l) + Size(r)
    case Arithmetic(_, l, r) => 1 + Size(l) + OptSize(r)
    case _ => 1
  }

  function OptSize(o: Option<Node>): (k: nat)
    ensures o.Some? ==> k == Size(o.value)
  {
    match o
    case None => 0
    case Some(n) => Size(n)
  }

  function SeqSize(s: seq<Node>): nat {
    if |s| == 0 then 0 else Size(s[0]) + SeqSize(s[1..])
  }

  lemma {:induction false} SeqSizeElement(s: seq<Node>, i: nat)
    requires i < |s|
    ensures Size(s[i]) <= SeqSize(s)
    ensures SeqSize(s[i + 1..]) < SeqSize(s[i..])
  {
    assert s[i..][0] == s[i] && s[i..][1..] == s[i + 1..];
    if i > 0 {
      SeqSizeElement(s[1..], i - 1);
      assert s[1..][i - 1..] == s[i..];
    }
  }

  // ---------------------------------------------------------------------------------
  // The operators

  /** `unary_logical_operations`. */
  function UnaryLogicalOperations(op: O.UnaryLogical, operand: bool): bool {
    match op
    case Not => !operand
  }

  /** `binary_logical_operations`. */
  function BinaryLogicalOperations(op: O.BinaryLogical, left: bool, right: bool): bool {
    match op
    case Or => left || right
    case And => left && right
    case Xor => (left && !right) || (!left && right)
  }

  /** `compare_values` on two integers; an `i32` converts to `f64` exactly, so the float
      comparison the source makes agrees with the integer one. */
  function CompareValues(op: O.Comparison, left: int, right: int): bool {
    match op
    case Equal => left == right
    case NotEqual => left != right
    case GreaterEqual => left >= right
    case Greater => left > right
    case LessEqual => left <= right
    case Less => left < right
  }

  /** `i32` division, which rounds toward zero (Dafny's `/` is Euclidean). */
  function TruncDiv(a: int, b: int): int
    requires b != 0
  {
    var q := Abs(a) / Abs(b);
    if (a < 0) == (b < 0) then q else -q
  }

  function Abs(a: int): nat {
    if a < 0 then -a else a
  }

  /** Rust's overflow check, as a debug build performs it. */
  function CheckedI32(v: int, operation: string): Result<int, ExecError> {
    if Decimal.InI32(v) then Ok(v) else Err(Panic("attempt to " + operation + " with overflow"))
  }

  /** `i32` arithmetic on two integers. */
  function IntArithmetic(op: O.BinaryArithmetic, a: int, b: int): Result<int, ExecError> {
    match op
    case Add => CheckedI32(a + b, "add")
    case Subtract => CheckedI32(a - b, "subtract")
    case Multiply => CheckedI32(a * b, "multiply")
    case Divide =>
      if b == 0 then Err(Panic("attempt to divide by zero")) else CheckedI32(TruncDiv(a, b), "divide")
  }

  /** `{:?}` of a binary arithmetic operator: the variant name. */
  function BinaryArithmeticDebug(op: O.BinaryArithmetic): string {
    match op
    case Add => "Add"
    case Subtract => "Subtract"
    case Multiply => "Multiply"
    case Divide => "Divide"
  }

  /** `{:?}` of a unary arithmetic operator. */
  function UnaryArithmeticDebug(op: O.UnaryArithmetic): string {
    match op
    case Plus => "Plus"
    case Minus => "Minus"
  }

  predicate Numeric(v: LiteralValue) {
    v.IntValue? || v.FloatValue?
  }

  /** The `Compare` arm once both operands are evaluated. */
  function CompareLiterals(op: O.Comparison, left: LiteralValue, right: LiteralValue): Result<LiteralValue, ExecError> {
    if left.IntValue? && right.IntValue? then Ok(BoolValue(CompareValues(op, left.i, right.i)))
    else if Numeric(left) && Numeric(right) then Err(FloatNotModelled)
    else if left.StringValue? && right.StringValue? then
      match op
      case Equal => Ok(BoolValue(left.s == right.s))
      case NotEqual => Ok(BoolValue(left.s != right.s))
      case _ => Err(Fail(Runtime006, [("operator", O.ComparisonToString(op))]))
    else
      Err(Fail(Runtime016, [("left", LiteralToString(left)), ("operator", O.ComparisonToString(op)),
                            ("right", LiteralToString(right))]))
  }

  /** The binary `Arithmetic` arm once both operands are evaluated. */
  function ArithmeticLiterals(op: O.BinaryArithmetic, left: LiteralValue, right: LiteralValue): Result<LiteralValue, ExecError> {
    if left.IntValue? && right.IntValue? then
      match IntArithmetic(op, left.i, right.i)
      case Ok(v) => Ok(IntValue(v))
      case Err(e) => Err(e)
    else if Numeric(left) && Numeric(right) then Err(FloatNotModelled)
    else
      Err(Fail(Runtime015, [("left", LiteralToString(left)), ("operator", BinaryArithmeticDebug(op)),
                            ("right", LiteralToString(right))]))
  }

  /** The unary `Arithmetic` arm once the operand is evaluated; `Minus` is `-1 * value`.
      A float operand with `Plus` is returned as it is. */
  function UnaryArithmeticLiteral(op: O.UnaryArithmetic, operand: LiteralValue, nodeText: string): Result<LiteralValue, ExecError> {
    match operand
    case FloatValue(_) => if op == O.Minus then Err(FloatNotModelled) else Ok(operand)
    case IntValue(i) =>
      if op == O.Minus then
        match CheckedI32(-1 * i, "multiply")
        case Ok(v) => Ok(IntValue(v))
        case Err(e) => Err(e)
      else Ok(operand)
    case _ => Err(Fail(Runtime008, [("operator", UnaryArithmeticDebug(op)), ("node", nodeText)]))
  }

  /** `evaluate_literal`. */
  function EvaluateLiteral(n: Node, describe: Node -> string): Result<LiteralValue, ExecError> {
    match n
    case Literal(value) => Ok(value)
    case _ => Err(Message("想定外のリテラルの型: " + describe(n)))
  }

  /** The parameter list of a `FunctionDefinition`, when every entry is a declaration. */
  function ParameterList(parameters: seq<Node>): (r: Option<seq<(string, Type)>>)
    ensures r.Some? <==> forall k :: 0 <= k < |parameters| ==> parameters[k].VariableDeclaration?
    ensures r.Some? ==> |r.value| == |parameters|
    ensures r.Some? ==> forall k :: 0 <= k < |parameters| ==>
      r.value[k] == (parameters[k].name, parameters[k].variableType)
  {
    if |parameters| == 0 then Some([])
    else if !parameters[0].VariableDeclaration? then None
    else match ParameterList(parameters[1..])
      case None => None
      case Some(rest) => Some([(parameters[0].name, parameters[0].variableType)] + rest)
  }

  /** The line `print_function` writes: each value's text, separated by single spaces. */
  function PrintLine(values: seq<GreenValue>): string {
    Text.Join(ValueTexts(values), " ")
  }

  function ValueTexts(values: seq<GreenValue>): (texts: seq<string>)
    ensures |texts| == |values|
    ensures forall k :: 0 <= k < |values| ==> texts[k] == LiteralToString(values[k].value)
  {
    if |values| == 0 then [] else [LiteralToString(values[0].value)] + ValueTexts(values[1..])
  }

  /** Lifts a pure step's result into an outcome at state `st`. */
  function Lift(st: ExecState, r: Result<LiteralValue, ExecError>): (o: Outcome<LiteralValue>)
    ensures o.st == st
  {
    match r
    case Ok(v) => Normal(st, v)
    case Err(e) => Abrupt(st, e)
  }

  /** The last step of `evaluate_assignable`: tag a value with its type; `Null` fails. */
  function ToGreen(o: Outcome<LiteralValue>): (r: Outcome<GreenValue>)
    ensures r.st == o.st
    ensures r.Normal? <==> o.Normal? && !o.value.Null?
    ensures r.Normal? ==> r.value.value == o.value && LiteralType(o.value) == Some(r.value.valueType)
  {
    match o
    case Abrupt(s, e) => Abrupt(s, e)
    case Normal(s, v) =>
      match LiteralType(v)
      case Some(t) => Normal(s, GreenValue(t, v))
      case None => Abrupt(s, Message("Null値には未対応"))
  }

  /** Forgets the value of a completed step. */
  function Unit<V>(o: Outcome<V>): (r: Outcome<()>)
    ensures r.st == o.st && r.Normal? == o.Normal?
    ensures r.Abrupt? ==> r.error == o.error
  {
    match o
    case Abrupt(s, e) => Abrupt(s, e)
    case Normal(s, _) => Normal(s, ())
  }

  /** A completed statement that yields no value. */
  function NoValue<V>(o: Outcome<V>): (r: Outcome<Option<GreenValue>>)
    ensures r.st == o.st && r.Normal? == o.Normal?
    ensures r.Abrupt? ==> r.error == o.error
    ensures r.Normal? ==> r.value.None?
  {
    match o
    case Abrupt(s, e) => Abrupt(s, e)
    case Normal(s, _) => Normal(s, None)
  }

  /** `k` is the first parameter/value pair, within the shorter list, whose types differ. */
  predicate FirstMismatch(parameters: seq<(string, Type)>, values: seq<GreenValue>, k: int) {
    0 <= k < |parameters| && k < |values| && parameters[k].1 != values[k].valueType
    && forall j :: 0 <= j < k ==> parameters[j].1 == values[j].valueType
  }

  /** Runtime013 for a parameter of function `name` given an argument of another type. */
  function MismatchError(name: string, parameter: (string, Type), value: GreenValue): ExecError {
    Fail(Runtime013, [("parameter", TypeToString(parameter.1)), ("argument", TypeToString(value.valueType)),
                      ("function_name", name), ("param_name", parameter.0)])
  }

  /** `set_variable` for each parameter/value pair in order (`zip` stops at the shorter
      list); the first pair whose types differ stops with Runtime013. */
  function BindParameters(st: ExecState, name: string, parameters: seq<(string, Type)>,
                          values: seq<GreenValue>): (r: Outcome<()>)
    ensures r.st.functions == st.functions && r.st.output == st.output
    ensures |r.st.scopes| == |st.scopes|
    ensures forall i :: 0 <= i < |st.scopes| - 1 ==> r.st.scopes[i] == st.scopes[i]
    ensures r.Normal? <==>
      forall k :: 0 <= k < |parameters| && k < |values| ==> parameters[k].1 == values[k].valueType
    ensures r.Abrupt? ==>
      exists k :: FirstMismatch(parameters, values, k) && r.error == MismatchError(name, parameters[k], values[k])
    decreases |parameters|
  {
    if |parameters| == 0 || |values| == 0 then Normal(st, ())
    else if parameters[0].1 == values[0].valueType then
      var r := BindParameters(st.(scopes := Define(st.scopes, parameters[0].0, values[0])),
                              name, parameters[1..], values[1..]);
      assert forall k :: 1 <= k < |parameters| && k < |values| ==>
        parameters[k] == parameters[1..][k - 1] && values[k] == values[1..][k - 1];
      assert r.Abrupt? ==>
        exists k :: FirstMismatch(parameters, values, k) && r.error == MismatchError(name, parameters[k], values[k])
      by {
        if r.Abrupt? {
          var k :| FirstMismatch(parameters[1..], values[1..], k)
                   && r.error == MismatchError(name, parameters[1..][k], values[1..][k]);
          assert FirstMismatch(parameters, values, k + 1);
        }
      }
      r
    else
      assert FirstMismatch(parameters, values, 0);
      Abrupt(st, MismatchError(name, parameters[0], values[0]))
  }

  // ---------------------------------------------------------------------------------
  // The interpreter. `fuel` bounds the number of function calls and loop iterations
  // on any one path; `describe` stands for the `{:?}` rendering of a node.

  /** `execute`: the statements of a block in order, stopping at the first that yields a
      value; anything but a block is Runtime003. */
  function Execute(st: ExecState, node: Node, fuel: nat, describe: Node -> string): (r: Outcome<Option<GreenValue>>)
    ensures Evolves(st, r.st, r.Normal?)
    ensures r.Normal? ==> KeepsBindings(st.scopes, r.st.scopes)
    decreases fuel, Size(node), 2
  {
    match node
    case Block(_, statements) => ExecuteStatements(st, statements, fuel, describe)
    case _ => Abrupt(st, Fail(Runtime003, [("node", describe(node))]))
  }

  function ExecuteStatements(st: ExecState, statements: seq<Node>, fuel: nat, describe: Node -> string): (r: Outcome<Option<GreenValue>>)
    ensures Evolves(st, r.st, r.Normal?)
    ensures r.Normal? ==> KeepsBindings(st.scopes, r.st.scopes)
    decreases fuel, SeqSize(statements), 3
  {
    if |statements| == 0 then Normal(st, None)
    else
      match Statement(st, statements[0], fuel, describe)
      case Abrupt(st1, e) => Abrupt(st1, e)
      case Normal(st1, Some(v)) => Normal(st1, Some(v))
      case Normal(st1, None) => ExecuteStatements(st1, statements[1..], fuel, describe)
  }

  /** `statement`: only a return statement yields a value. */
  function Statement(st: ExecState, node: Node, fuel: nat, describe: Node -> string): (r: Outcome<Option<GreenValue>>)
    ensures Evolves(st, r.st, r.Normal?)
    ensures r.Normal? ==> KeepsBindings(st.scopes, r.st.scopes)
    decreases fuel, Size(node), 2
  {
    match node
    case FunctionCall(_, _) => NoValue(ExecuteFunction(st, node, fuel, describe))
    case VariableDeclaration(name, variableType) =>
      Normal(st.(scopes := Define(st.scopes, name, GreenValue(variableType, Null))), None)
    case VariableAssignment(name, expression) =>
      (match EvaluateAssignable(st, expression, fuel, describe)
       case Abrupt(st1, e) => Abrupt(st1, e)
       case Normal(st1, value) =>
         match Change(st1.scopes, name, value)
         case Err(e) => Abrupt(st1, Coded(e))
         case Ok(scopes) => Normal(st1.(scopes := scopes), None))
    case IfStatement(c, t, e) => NoValue(EvaluateIf(st, c, t, e, fuel, describe))
    case LoopStatement(c, b) => NoValue(EvaluateLoop(st, c, b, fuel, describe))
    case FunctionDefinition(name, parameters, block) =>
      (match ParameterList(parameters)
       case None => Abrupt(st, Fail(Runtime011, [("node", describe(node))]))
       case Some(variables) => Normal(st.(functions := st.functions[name := (variables, block)]), None))
    case ReturnStatement(assignable) =>
      (match EvaluateAssignable(st, assignable, fuel, describe)
       case Abrupt(st1, e) => Abrupt(st1, e)
       case Normal(st1, value) => Normal(st1, Some(value)))
    case _ => Abrupt(st, Fail(Runtime003, [("node", describe(node))]))
  }

  /** `execute_function` on a call node of either kind. */
  function ExecuteFunction(st: ExecState, node: Node, fuel: nat, describe: Node -> string): (r: Outcome<Option<GreenValue>>)
    ensures Evolves(st, r.st, r.Normal?)
    ensures r.Normal? ==> KeepsBindings(st.scopes, r.st.scopes)
    decreases fuel, Size(node), 1
  {
    match node
    case FunctionCall(name, arguments) => Call(st, name, arguments, fuel, describe)
    case FunctionCallWithReturn(name, arguments) => Call(st, name, arguments, fuel, describe)
    case _ => Abrupt(st, Fail(Runtime003, [("node", describe(node))]))
  }

  /** The call itself: `print` is built in; a user function must be in the table and
      take as many parameters as there are arguments, both checked before anything is
      evaluated. */
  function Call(st: ExecState, name: string, arguments: seq<Node>, fuel: nat, describe: Node -> string): (r: Outcome<Option<GreenValue>>)
    ensures Evolves(st, r.st, r.Normal?)
    ensures r.Normal? ==> KeepsBindings(st.scopes, r.st.scopes)
    ensures r.Normal? && name != "print" ==>
      forall i :: 0 <= i < |st.scopes| ==> SameNames(st.scopes[i], r.st.scopes[i])
    decreases fuel, SeqSize(arguments), 7
  {
    if name == "print" then NoValue(PrintFunction(st, arguments, fuel, describe))
    else if name !in st.functions then Abrupt(st, Fail(Runtime002, [("function", name)]))
    else
      var parameters := st.functions[name].0;
      if |parameters| != |arguments| then
        Abrupt(st, Fail(Runtime012, [("parameters", Decimal.NatToString(|parameters|)),
                                     ("arguments", Decimal.NatToString(|arguments|)),
                                     ("name", name)]))
      else Invoke(st, name, parameters, st.functions[name].1, arguments, fuel, describe)
  }

  /** A user function's call proper: a scope is pushed, the arguments are evaluated inside
      it, each is bound to its parameter, the body runs, and only a completed body pops
      the scope (a failure leaves it pushed). */
  function Invoke(st: ExecState, name: string, parameters: seq<(string, Type)>, body: Node,
                  arguments: seq<Node>, fuel: nat, describe: Node -> string): (r: Outcome<Option<GreenValue>>)
    ensures Evolves(st, r.st, r.Normal?)
    ensures r.Normal? ==> forall i :: 0 <= i < |st.scopes| ==> SameNames(st.scopes[i], r.st.scopes[i])
    decreases fuel, SeqSize(arguments), 6
  {
    var st1 := st.(scopes := Push(st.scopes));
    match EvaluateArguments(st1, arguments, fuel, describe)
    case Abrupt(st2, e) => Abrupt(st2, e)
    case Normal(st2, values) =>
      match BindParameters(st2, name, parameters, values)
      case Abrupt(st3, e) => Abrupt(st3, e)
      case Normal(st3, _) =>
        if fuel == 0 then Abrupt(st3, OutOfFuel)
        else
          match Execute(st3, body, fuel - 1, describe)
          case Abrupt(st4, e) => Abrupt(st4, e)
          case Normal(st4, result) => Normal(st4.(scopes := Pop(st4.scopes)), result)
  }

  /** `print_function`: evaluate the arguments, then write one line. */
  function PrintFunction(st: ExecState, arguments: seq<Node>, fuel: nat, describe: Node -> string): (r: Outcome<()>)
    ensures Evolves(st, r.st, r.Normal?)
    ensures r.Normal? ==> KeepsBindings(st.scopes, r.st.scopes)
    decreases fuel, SeqSize(arguments), 5
  {
    match EvaluateArguments(st, arguments, fuel, describe)
    case Abrupt(st1, e) => Abrupt(st1, e)
    case Normal(st1, values) => Normal(st1.(output := st1.output + [PrintLine(values)]), ())
  }

  /** `evaluate_argument`: left to right, stopping at the first failure. */
  function EvaluateArguments(st: ExecState, arguments: seq<Node>, fuel: nat, describe: Node -> string): (r: Outcome<seq<GreenValue>>)
    ensures Evolves(st, r.st, r.Normal?)
    ensures r.Normal? ==> KeepsBindings(st.scopes, r.st.scopes)
    ensures r.Normal? ==> |r.value| == |arguments|
    decreases fuel, SeqSize(arguments), 4
  {
    if |arguments| == 0 then Normal(st, [])
    else
      match EvaluateAssignable(st, arguments[0], fuel, describe)
      case Abrupt(st1, e) => Abrupt(st1, e)
      case Normal(st1, v) =>
        match EvaluateArguments(st1, arguments[1..], fuel, describe)
        case Abrupt(st2, e) => Abrupt(st2, e)
        case Normal(st2, vs) => Normal(st2, [v] + vs)
  }

  /** `evaluate_if_statement`: a boolean condition picks a branch whose result, a
      returned value included, is dropped; any other value is Runtime014. */
  function EvaluateIf(st: ExecState, c: Node, t: Node, e: Option<Node>, fuel: nat, describe: Node -> string): (r: Outcome<()>)
    ensures Evolves(st, r.st, r.Normal?)
    ensures r.Normal? ==> KeepsBindings(st.scopes, r.st.scopes)
    decreases fuel, Size(c) + Size(t) + OptSize(e), 4
  {
    match EvaluateAssignable(st, c, fuel, describe)
    case Abrupt(st1, err) => Abrupt(st1, err)
    case Normal(st1, v) =>
      if v.value.BoolValue? then
        if v.value.b then Unit(Execute(st1, t, fuel, describe))
        else if e.Some? then Unit(Execute(st1, e.value, fuel, describe))
        else Normal(st1, ())
      else Abrupt(st1, Fail(Runtime014, [("node", describe(c))]))
  }

  /** `evaluate_loop_statement`: a first evaluation of the condition must give a
      boolean (else Runtime014); the loop then evaluates it again before each round. */
  function EvaluateLoop(st: ExecState, c: Node, b: Node, fuel: nat, describe: Node -> string): (r: Outcome<()>)
    ensures Evolves(st, r.st, r.Normal?)
    ensures r.Normal? ==> KeepsBindings(st.scopes, r.st.scopes)
    decreases fuel, Size(c) + Size(b), 5
  {
    match EvaluateAssignable(st, c, fuel, describe)
    case Abrupt(st1, e) => Abrupt(st1, e)
    case Normal(st1, v) =>
      if v.value.BoolValue? then LoopFrom(st1, c, b, fuel, describe)
      else Abrupt(st1, Fail(Runtime014, [("node", describe(c))]))
  }

  /** The `while let` loop: `true` runs the block (its result dropped) and goes round
      again; `false` or a non-boolean value ends the loop without error. Each round
      costs one unit of fuel. */
  function LoopFrom(st: ExecState, c: Node, b: Node, fuel: nat, describe: Node -> string): (r: Outcome<()>)
    ensures Evolves(st, r.st, r.Normal?)
    ensures r.Normal? ==> KeepsBindings(st.scopes, r.st.scopes)
    decreases fuel, Size(c) + Size(b), 4
  {
    match EvaluateAssignable(st, c, fuel, describe)
    case Abrupt(st1, e) => Abrupt(st1, e)
    case Normal(st1, v) =>
      if v.value.BoolValue? && v.value.b then
        if fuel == 0 then Abrupt(st1, OutOfFuel)
        else
          match Execute(st1, b, fuel - 1, describe)
          case Abrupt(st2, e) => Abrupt(st2, e)
          case Normal(st2, _) => LoopFrom(st2, c, b, fuel - 1, describe)
      else Normal(st1, ())
  }

  /** `evaluate_assignable`: an expression, a value-returning call or a literal, tagged
      with the type of its value; a call that yields nothing fails with "err", a `Null`
      value fails, and any other node is Runtime005. */
  function EvaluateAssignable(st: ExecState, node: Node, fuel: nat, describe: Node -> string): (r: Outcome<GreenValue>)
    ensures Evolves(st, r.st, r.Normal?)
    ensures r.Normal? ==> KeepsBindings(st.scopes, r.st.scopes)
    ensures r.Normal? ==> !r.value.value.Null? && LiteralType(r.value.value) == Some(r.value.valueType)
    decreases fuel, Size(node), 3
  {
    match node
    case Compare(_, _, _) => ToGreen(EvaluateExpression(st, node, fuel, describe))
    case Arithmetic(_, _, _) => ToGreen(EvaluateExpression(st, node, fuel, describe))
    case Variable(_) => ToGreen(EvaluateExpression(st, node, fuel, describe))
    case Logical(_, _, _) => ToGreen(EvaluateExpression(st, node, fuel, describe))
    case FunctionCallWithReturn(_, _) =>
      (match ExecuteFunction(st, node, fuel, describe)
       case Abrupt(st1, e) => Abrupt(st1, e)
       case Normal(st1, None) => Abrupt(st1, Message("err"))
       case Normal(st1, Some(v)) => ToGreen(Normal(st1, v.value)))
    case Literal(_) => ToGreen(Lift(st, EvaluateLiteral(node, describe)))
    case _ => Abrupt(st, Fail(Runtime005, [("node", describe(node))]))
  }

  /** `evaluate_expression`. Both operands of a binary operator are always evaluated,
      left first; a binary arithmetic node without a right operand fails before its left
      operand is evaluated, a binary logical one after. No arm calls a function (a call
      node is Runtime003 here), so an expression never changes the state. */
  function EvaluateExpression(st: ExecState, node: Node, fuel: nat, describe: Node -> string): (r: Outcome<LiteralValue>)
    ensures r.st == st
    decreases fuel, Size(node), 2
  {
    match node
    case Logical(op, left, right) =>
      (match op
       case UnaryLogic(u) =>
         (match EvaluateExpression(st, left, fuel, describe)
          case Abrupt(s, e) => Abrupt(s, e)
          case Normal(s, v) =>
            if v.BoolValue? then Normal(s, BoolValue(UnaryLogicalOperations(u, v.b)))
            else Abrupt(s, Fail(Runtime008, [("operator", O.LogicalToString(op)), ("node", describe(left))])))
       case BinaryLogic(b) =>
         match EvaluateExpression(st, left, fuel, describe)
         case Abrupt(s, e) => Abrupt(s, e)
         case Normal(s1, lv) =>
           if right.None? then Abrupt(s1, Fail(Runtime009, []))
           else
             match EvaluateExpression(s1, right.value, fuel, describe)
             case Abrupt(s, e) => Abrupt(s, e)
             case Normal(s2, rv) =>
               if lv.BoolValue? && rv.BoolValue? then Normal(s2, BoolValue(BinaryLogicalOperations(b, lv.b, rv.b)))
               else Abrupt(s2, Fail(Runtime015, [("left", LiteralToString(lv)), ("operator", O.LogicalToString(op)),
                                                 ("right", LiteralToString(rv))])))
    case Compare(op, left, right) =>
      (match EvaluateExpression(st, left, fuel, describe)
       case Abrupt(s, e) => Abrupt(s, e)
       case Normal(s1, lv) =>
         match EvaluateExpression(s1, right, fuel, describe)
         case Abrupt(s, e) => Abrupt(s, e)
         case Normal(s2, rv) => Lift(s2, CompareLiterals(op, lv, rv)))
    case Arithmetic(op, left, right) =>
      (match op
       case BinaryArith(ba) =>
         if right.None? then Abrupt(st, Fail(Runtime009, []))
         else
           (match EvaluateExpression(st, left, fuel, describe)
            case Abrupt(s, e) => Abrupt(s, e)
            case Normal(s1, lv) =>
              match EvaluateExpression(s1, right.value, fuel, describe)
              case Abrupt(s, e) => Abrupt(s, e)
              case Normal(s2, rv) => Lift(s2, ArithmeticLiterals(ba, lv, rv)))
       case UnaryArith(ua) =>
         match EvaluateExpression(st, left, fuel, describe)
         case Abrupt(s, e) => Abrupt(s, e)
         case Normal(s, v) => Lift(s, UnaryArithmeticLiteral(ua, v, describe(left))))
    case Variable(name) =>
      (match Get(st.scopes, name)
       case Ok(v) => Normal(st, v)
       case Err(e) => Abrupt(st, Coded(e)))
    case Literal(_) => Lift(st, EvaluateLiteral(node, describe))
    case _ => Abrupt(st, Fail(Runtime003, [("node", describe(node))]))
  }

  /** `pub fn execute`: a fresh interpreter runs the tree; the lines printed, and the
      error if the run did not complete. */
  function Run(node: Node, fuel: nat, describe: Node -> string): (r: (seq<string>, Result<(), ExecError>))
    ensures r.1.Ok? <==> Execute(Initial, node, fuel, describe).Normal?
    ensures r.0 == Execute(Initial, node, fuel, describe).st.output
  {
    var o := Execute(Initial, node, fuel, describe);
    (o.st.output, if o.Normal? then Ok(()) else Err(o.error))
  }
}
