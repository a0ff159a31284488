/** src/interpreter/execute.rs as the source writes it: an `Interpreter` object whose
    scope stack (an `Environment`), function table and printed lines are updated in place
    while it walks the tree. Each method is proved to end in the state, and with the
    result, that the functions of `Execution` give for the state it started from. */
module Interpreters {
  import opened Wrappers
  import opened Types
  import O = Operators
  import opened ErrorCodes
  import opened Scopes
  import opened Environments
  import Decimal
  import opened Execution

  /** A method's result read as an outcome at the state it left. */
  function AsOutcome<V>(st: ExecState, r: Result<V, ExecError>): Outcome<V> {
    match r
    case Ok(v) => Normal(st, v)
    case Err(e) => Abrupt(st, e)
  }

  function ResultOf<V>(o: Outcome<V>): Result<V, ExecError> {
    match o
    case Normal(_, v) => Ok(v)
    case Abrupt(_, e) => Err(e)
  }

  /** The arguments evaluated so far, put in front of what the rest will give. */
  function Prefixed(values: seq<GreenValue>, o: Outcome<seq<GreenValue>>): Outcome<seq<GreenValue>> {
    match o
    case Normal(s, vs) => Normal(s, values + vs)
    case Abrupt(s, e) => Abrupt(s, e)
  }

  class Interpreter {
    const variables: Environment
    var functions: map<string, FunctionEntry>
    /** The lines `println!` has written. */
    var output: seq<string>
    /** Rust's `{:?}` rendering of a node, used in error parameters. */
    const describe: Node -> string

    function State(): ExecState
      reads this, variables
    {
      ExecState(variables.scopes, functions, output)
    }

    /** `Interpreter::new`. */
    constructor(describe: Node -> string)
      ensures State() == Initial && this.describe == describe && fresh(variables)
    {
      variables := new Environment();
      functions := map[];
      output := [];
      this.describe := describe;
    }

    /** `execute`. */
    method Execute(node: Node, fuel: nat) returns (r: Result<Option<GreenValue>, ExecError>)
      modifies this, variables
      ensures AsOutcome(State(), r) == Execution.Execute(old(State()), node, fuel, describe)
      decreases fuel, Size(node), 2
    {
      match node {
        case Block(_, statements) =>
          ghost var st0 := State();
          var i := 0;
          while i < |statements|
            invariant 0 <= i <= |statements|
            invariant ExecuteStatements(st0, statements, fuel, describe) ==
                      ExecuteStatements(State(), statements[i..], fuel, describe)
          {
            SeqSizeElement(statements, i);
            assert statements[i..][0] == statements[i] && statements[i..][1..] == statements[i + 1..];
            var result := Statement(statements[i], fuel);
            if result.Err? {
              return Err(result.error);
            }
            if result.value.Some? {
              return result;
            }
            i := i + 1;
          }
          return Ok(None);
        case _ =>
          return Err(Fail(Runtime003, [("node", describe(node))]));
      }
    }

    /** `statement`. */
    method Statement(node: Node, fuel: nat) returns (r: Result<Option<GreenValue>, ExecError>)
      modifies this, variables
      ensures AsOutcome(State(), r) == Execution.Statement(old(State()), node, fuel, describe)
      decreases fuel, Size(node), 2
    {
      match node {
        case FunctionCall(_, _) =>
          var called := ExecuteFunction(node, fuel);
          if called.Err? {
            return Err(called.error);
          }
        case VariableDeclaration(name, variableType) =>
          variables.SetVariable(name, GreenValue(variableType, Null));
        case VariableAssignment(name, expression) =>
          var value := EvaluateAssignable(expression, fuel);
          if value.Err? {
            return Err(value.error);
          }
          var changed := variables.ChangeVariable(name, value.value);
          if changed.Err? {
            return Err(Coded(changed.error));
          }
        case IfStatement(c, t, e) =>
          var done := EvaluateIfStatement(c, t, e, fuel);
          if done.Err? {
            return Err(done.error);
          }
        case LoopStatement(c, b) =>
          var done := EvaluateLoopStatement(c, b, fuel);
          if done.Err? {
            return Err(done.error);
          }
        case FunctionDefinition(name, parameters, block) =>
          var declared: seq<(string, Type)> := [];
          var i := 0;
          while i < |parameters|
            invariant 0 <= i <= |parameters| && |declared| == i
            invariant forall k :: 0 <= k < i ==> parameters[k].VariableDeclaration? &&
                                                 declared[k] == (parameters[k].name, parameters[k].variableType)
          {
            match parameters[i] {
              case VariableDeclaration(parameterName, variableType) =>
                declared := declared + [(parameterName, variableType)];
              case _ =>
                return Err(Fail(Runtime011, [("node", describe(node))]));
            }
            i := i + 1;
          }
          ghost var listed := ParameterList(parameters);
          assert listed.Some? && |listed.value| == |declared|;
          assert forall k :: 0 <= k < |declared| ==> listed.value[k] == declared[k];
          assert listed.value == declared;
          functions := functions[name := (declared, block)];
        case ReturnStatement(assignable) =>
          var value := EvaluateAssignable(assignable, fuel);
          if value.Err? {
            return Err(value.error);
          }
          return Ok(Some(value.value));
        case _ =>
          return Err(Fail(Runtime003, [("node", describe(node))]));
      }
      return Ok(None);
    }

    /** `print_function`. */
    method PrintFunction(arguments: seq<Node>, fuel: nat) returns (r: Result<(), ExecError>)
      modifies this, variables
      ensures AsOutcome(State(), r) == Execution.PrintFunction(old(State()), arguments, fuel, describe)
      decreases fuel, SeqSize(arguments), 5
    {
      var values := EvaluateArgument(arguments, fuel);
      if values.Err? {
        return Err(values.error);
      }
      output := output + [PrintLine(values.value)];
      return Ok(());
    }

    /** `execute_function`. */
    method ExecuteFunction(node: Node, fuel: nat) returns (r: Result<Option<GreenValue>, ExecError>)
      modifies this, variables
      ensures AsOutcome(State(), r) == Execution.ExecuteFunction(old(State()), node, fuel, describe)
      decreases fuel, Size(node), 1
    {
      if !(node.FunctionCall? || node.FunctionCallWithReturn?) {
        return Err(Fail(Runtime003, [("node", describe(node))]));
      }
      var name, arguments := node.name, node.arguments;
      ghost var st0 := State();
      assert Execution.ExecuteFunction(st0, node, fuel, describe) == Call(st0, name, arguments, fuel, describe);
      if name == "print" {
        var printed := PrintFunction(arguments, fuel);
        if printed.Err? {
          return Err(printed.error);
        }
        return Ok(None);
      }
      if name !in functions {
        return Err(Fail(Runtime002, [("function", name)]));
      }
      var parameters, functionNode := functions[name].0, functions[name].1;
      if |parameters| != |arguments| {
        return Err(Fail(Runtime012, [("parameters", Decimal.NatToString(|parameters|)),
                                     ("arguments", Decimal.NatToString(|arguments|)),
                                     ("name", name)]));
      }
      assert Call(st0, name, arguments, fuel, describe) ==
             Execution.Invoke(st0, name, parameters, functionNode, arguments, fuel, describe);
      r := Invoke(name, parameters, functionNode, arguments, fuel);
    }

    /** The part of `execute_function` after the table lookup and the arity check. */
    method Invoke(name: string, parameters: seq<(string, Type)>, functionNode: Node,
                  arguments: seq<Node>, fuel: nat) returns (r: Result<Option<GreenValue>, ExecError>)
      modifies this, variables
      ensures AsOutcome(State(), r) ==
              Execution.Invoke(old(State()), name, parameters, functionNode, arguments, fuel, describe)
      decreases fuel, SeqSize(arguments), 6
    {
      ghost var st0 := State();
      variables.PushScope();
      ghost var st1 := State();
      assert st1 == st0.(scopes := Push(st0.scopes));
      var values := EvaluateArgument(arguments, fuel);
      ghost var st2 := State();
      assert EvaluateArguments(st1, arguments, fuel, describe) == AsOutcome(st2, values);
      if values.Err? {
        return Err(values.error);
      }
      var bound := BindArguments(name, parameters, values.value);
      ghost var st3 := State();
      assert BindParameters(st2, name, parameters, values.value) == AsOutcome(st3, bound);
      if bound.Err? {
        return Err(bound.error);
      }
      if fuel == 0 {
        return Err(OutOfFuel);
      }
      var result := Execute(functionNode, fuel - 1);
      assert Execution.Execute(st3, functionNode, fuel - 1, describe) == AsOutcome(State(), result);
      if result.Err? {
        return Err(result.error);
      }
      variables.PopScope();
      return result;
    }

    /** The `zip` loop of `execute_function` that binds each argument to its parameter. */
    method BindArguments(name: string, parameters: seq<(string, Type)>, values: seq<GreenValue>)
      returns (r: Result<(), ExecError>)
      modifies variables
      ensures AsOutcome(State(), r) == BindParameters(old(State()), name, parameters, values)
    {
      ghost var st0 := State();
      var i := 0;
      assert parameters[0..] == parameters && values[0..] == values;
      while i < |parameters| && i < |values|
        invariant 0 <= i <= |parameters| && i <= |values|
        invariant BindParameters(st0, name, parameters, values) ==
                  BindParameters(State(), name, parameters[i..], values[i..])
      {
        assert parameters[i..][0] == parameters[i] && parameters[i..][1..] == parameters[i + 1..];
        assert values[i..][0] == values[i] && values[i..][1..] == values[i + 1..];
        var (parameterName, parameterType) := parameters[i];
        if parameterType == values[i].valueType {
          variables.SetVariable(parameterName, values[i]);
        } else {
          return Err(MismatchError(name, parameters[i], values[i]));
        }
        i := i + 1;
      }
      assert |parameters[i..]| == 0 || |values[i..]| == 0;
      return Ok(());
    }

    /** `evaluate_if_statement`. */
    method EvaluateIfStatement(c: Node, t: Node, e: Option<Node>, fuel: nat) returns (r: Result<(), ExecError>)
      modifies this, variables
      ensures AsOutcome(State(), r) == EvaluateIf(old(State()), c, t, e, fuel, describe)
      decreases fuel, Size(c) + Size(t) + OptSize(e), 4
    {
      var condition := EvaluateAssignable(c, fuel);
      if condition.Err? {
        return Err(condition.error);
      }
      if condition.value.value.BoolValue? {
        if condition.value.value.b {
          var done := Execute(t, fuel);
          if done.Err? {
            return Err(done.error);
          }
        } else if e.Some? {
          var done := Execute(e.value, fuel);
          if done.Err? {
            return Err(done.error);
          }
        }
      } else {
        return Err(Fail(Runtime014, [("node", describe(c))]));
      }
      return Ok(());
    }

    /** `evaluate_loop_statement`: the first check, then the `while let` loop. */
    method EvaluateLoopStatement(c: Node, b: Node, fuel: nat) returns (r: Result<(), ExecError>)
      modifies this, variables
      ensures AsOutcome(State(), r) == EvaluateLoop(old(State()), c, b, fuel, describe)
      decreases fuel, Size(c) + Size(b), 5
    {
      var first := EvaluateAssignable(c, fuel);
      if first.Err? {
        return Err(first.error);
      }
      if !first.value.value.BoolValue? {
        return Err(Fail(Runtime014, [("node", describe(c))]));
      }
      ghost var st1 := State();
      var remaining: nat := fuel;
      while true
        invariant remaining <= fuel
        invariant LoopFrom(st1, c, b, fuel, describe) == LoopFrom(State(), c, b, remaining, describe)
        decreases remaining
      {
        ghost var before := State();
        var condition := EvaluateAssignable(c, remaining);
        ghost var afterCondition := State();
        assert Execution.EvaluateAssignable(before, c, remaining, describe) == AsOutcome(afterCondition, condition);
        if condition.Err? {
          assert LoopFrom(before, c, b, remaining, describe) == Abrupt(afterCondition, condition.error);
          return Err(condition.error);
        }
        if !(condition.value.value.BoolValue? && condition.value.value.b) {
          assert LoopFrom(before, c, b, remaining, describe) == Normal(afterCondition, ());
          return Ok(());
        }
        if remaining == 0 {
          assert LoopFrom(before, c, b, remaining, describe) == Abrupt(afterCondition, OutOfFuel);
          return Err(OutOfFuel);
        }
        var done := Execute(b, remaining - 1);
        assert Execution.Execute(afterCondition, b, remaining - 1, describe) == AsOutcome(State(), done);
        if done.Err? {
          assert LoopFrom(before, c, b, remaining, describe) == Abrupt(State(), done.error);
          return Err(done.error);
        }
        assert LoopFrom(before, c, b, remaining, describe) ==
               LoopFrom(State(), c, b, remaining - 1, describe);
        remaining := remaining - 1;
      }
    }

    /** `evaluate_argument`. */
    method EvaluateArgument(arguments: seq<Node>, fuel: nat) returns (r: Result<seq<GreenValue>, ExecError>)
      modifies this, variables
      ensures AsOutcome(State(), r) == EvaluateArguments(old(State()), arguments, fuel, describe)
      decreases fuel, SeqSize(arguments), 4
    {
      ghost var st0 := State();
      var values: seq<GreenValue> := [];
      var i := 0;
      assert arguments[0..] == arguments;
      ghost var all := EvaluateArguments(st0, arguments, fuel, describe);
      if all.Normal? {
        assert [] + all.value == all.value;
      }
      while i < |arguments|
        invariant 0 <= i <= |arguments|
        invariant EvaluateArguments(st0, arguments, fuel, describe) ==
                  Prefixed(values, EvaluateArguments(State(), arguments[i..], fuel, describe))
      {
        SeqSizeElement(arguments, i);
        assert arguments[i..][0] == arguments[i] && arguments[i..][1..] == arguments[i + 1..];
        ghost var before := State();
        var value := EvaluateAssignable(arguments[i], fuel);
        if value.Err? {
          return Err(value.error);
        }
        ghost var rest := EvaluateArguments(State(), arguments[i + 1..], fuel, describe);
        if rest.Normal? {
          assert values + ([value.value] + rest.value) == (values + [value.value]) + rest.value;
        }
        values := values + [value.value];
        i := i + 1;
      }
      assert arguments[i..] == [] && values + [] == values;
      return Ok(values);
    }

    /** `evaluate_assignable`. */
    method EvaluateAssignable(node: Node, fuel: nat) returns (r: Result<GreenValue, ExecError>)
      modifies this, variables
      ensures AsOutcome(State(), r) == Execution.EvaluateAssignable(old(State()), node, fuel, describe)
      decreases fuel, Size(node), 3
    {
      var literalValue: LiteralValue;
      if node.Compare? || node.Arithmetic? || node.Variable? || node.Logical? {
        var value := EvaluateExpression(node, fuel);
        if value.Err? {
          return Err(value.error);
        }
        literalValue := value.value;
      } else if node.FunctionCallWithReturn? {
        var value := ExecuteFunction(node, fuel);
        if value.Err? {
          return Err(value.error);
        }
        if value.value.None? {
          return Err(Message("err"));
        }
        literalValue := value.value.value.value;
      } else if node.Literal? {
        var value := EvaluateLiteral(node, describe);
        literalValue := value.value;
      } else {
        return Err(Fail(Runtime005, [("node", describe(node))]));
      }
      match literalValue {
        case BoolValue(_) => return Ok(GreenValue(Bool, literalValue));
        case FloatValue(_) => return Ok(GreenValue(Float, literalValue));
        case IntValue(_) => return Ok(GreenValue(Int, literalValue));
        case StringValue(_) => return Ok(GreenValue(String, literalValue));
        case Null => return Err(Message("Null値には未対応"));
      }
    }

    /** `evaluate_expression`: it reads the scopes and changes nothing. */
    method EvaluateExpression(node: Node, fuel: nat) returns (r: Result<LiteralValue, ExecError>)
      ensures r == ResultOf(Execution.EvaluateExpression(State(), node, fuel, describe))
      decreases fuel, Size(node), 2
    {
      match node {
        case Logical(op, left, right) =>
          match op {
            case UnaryLogic(u) =>
              var value := EvaluateExpression(left, fuel);
              if value.Err? {
                return Err(value.error);
              }
              if value.value.BoolValue? {
                return Ok(BoolValue(UnaryLogicalOperations(u, value.value.b)));
              }
              return Err(Fail(Runtime008, [("operator", O.LogicalToString(op)), ("node", describe(left))]));
            case BinaryLogic(b) =>
              var leftValue := EvaluateExpression(left, fuel);
              if leftValue.Err? {
                return Err(leftValue.error);
              }
              if right.None? {
                return Err(Fail(Runtime009, []));
              }
              var rightValue := EvaluateExpression(right.value, fuel);
              if rightValue.Err? {
                return Err(rightValue.error);
              }
              if leftValue.value.BoolValue? && rightValue.value.BoolValue? {
                return Ok(BoolValue(BinaryLogicalOperations(b, leftValue.value.b, rightValue.value.b)));
              }
              return Err(Fail(Runtime015, [("left", LiteralToString(leftValue.value)),
                                           ("operator", O.LogicalToString(op)),
                                           ("right", LiteralToString(rightValue.value))]));
          }
        case Compare(op, left, right) =>
          var leftValue := EvaluateExpression(left, fuel);
          if leftValue.Err? {
            return Err(leftValue.error);
          }
          var rightValue := EvaluateExpression(right, fuel);
          if rightValue.Err? {
            return Err(rightValue.error);
          }
          return CompareLiterals(op, leftValue.value, rightValue.value);
        case Arithmetic(op, left, right) =>
          match op {
            case BinaryArith(ba) =>
              if right.None? {
                return Err(Fail(Runtime009, []));
              }
              var leftValue := EvaluateExpression(left, fuel);
              if leftValue.Err? {
                return Err(leftValue.error);
              }
              var rightValue := EvaluateExpression(right.value, fuel);
              if rightValue.Err? {
                return Err(rightValue.error);
              }
              return ArithmeticLiterals(ba, leftValue.value, rightValue.value);
            case UnaryArith(ua) =>
              var value := EvaluateExpression(left, fuel);
              if value.Err? {
                return Err(value.error);
              }
              return UnaryArithmeticLiteral(ua, value.value, describe(left));
          }
        case Variable(name) =>
          var value := variables.GetVariable(name);
          if value.Err? {
            return Err(Coded(value.error));
          }
          return Ok(value.value);
        case Literal(_) =>
          return EvaluateLiteral(node, describe);
        case _ =>
          return Err(Fail(Runtime003, [("node", describe(node))]));
      }
    }
  }

  /** `pub fn execute`: a fresh interpreter runs the tree; the lines it printed and
      whether it completed are those `Run` gives. */
  method ExecuteProgram(node: Node, fuel: nat, describe: Node -> string)
    returns (output: seq<string>, r: Result<(), ExecError>)
    ensures (output, r) == Run(node, fuel, describe)
  {
    var interpreter := new Interpreter(describe);
    var result := interpreter.Execute(node, fuel);
    output := interpreter.output;
    if result.Err? {
      return output, Err(result.error);
    }
    return output, Ok(());
  }
}
