/** What src/interpreter/execute.rs promises about its control flow, its calls and its
    operators, proved of the Execution specification. */
module ExecutionProperties {
  import opened Wrappers
  import opened Types
  import O = Operators
  import opened ErrorCodes
  import opened Scopes
  import Decimal
  import opened Execution

  // ---------------------------------------------------------------------------------
  // Blocks and returns

  /** Running `s1 + s2` runs `s1` and then, only if `s1` completed without a value,
      `s2` from the state `s1` left. */
  lemma {:induction false} StatementsAppend(st: ExecState, s1: seq<Node>, s2: seq<Node>, fuel: nat,
                                            describe: Node -> string)
    ensures ExecuteStatements(st, s1 + s2, fuel, describe) ==
      match ExecuteStatements(st, s1, fuel, describe)
      case Normal(st1, None) => ExecuteStatements(st1, s2, fuel, describe)
      case other => other
    decreases |s1|
  {
    if |s1| == 0 {
      assert s1 + s2 == s2;
    } else {
      assert (s1 + s2)[0] == s1[0];
      assert (s1 + s2)[1..] == s1[1..] + s2;
      match Statement(st, s1[0], fuel, describe) {
        case Abrupt(_, _) =>
        case Normal(_, Some(_)) =>
        case Normal(st1, None) =>
          StatementsAppend(st1, s1[1..], s2, fuel, describe);
      }
    }
  }

  /** Once a prefix of a block has yielded a value, nothing after it runs. */
  lemma StatementsAfterValueSkipped(st: ExecState, s1: seq<Node>, s2: seq<Node>, fuel: nat,
                                    describe: Node -> string)
    requires ExecuteStatements(st, s1, fuel, describe).Normal?
    requires ExecuteStatements(st, s1, fuel, describe).value.Some?
    ensures ExecuteStatements(st, s1 + s2, fuel, describe) == ExecuteStatements(st, s1, fuel, describe)
  {
    StatementsAppend(st, s1, s2, fuel, describe);
  }

  /** Of all statements, only a return statement yields a value. */
  lemma StatementValueOnlyFromReturn(st: ExecState, n: Node, fuel: nat, describe: Node -> string)
    ensures Statement(st, n, fuel, describe).Normal? && Statement(st, n, fuel, describe).value.Some? ==>
      n.ReturnStatement?
  {
  }

  /** A block yields a value only if one of its own statements is a return statement: a
      return inside an `if` or a loop is not seen by the enclosing block. */
  lemma {:induction false} BlockValueFromOwnReturn(st: ExecState, s: seq<Node>, fuel: nat,
                                                   describe: Node -> string)
    ensures ExecuteStatements(st, s, fuel, describe).Normal? &&
            ExecuteStatements(st, s, fuel, describe).value.Some? ==>
      exists i :: 0 <= i < |s| && s[i].ReturnStatement?
    decreases |s|
  {
    if |s| > 0 {
      StatementValueOnlyFromReturn(st, s[0], fuel, describe);
      match Statement(st, s[0], fuel, describe) {
        case Abrupt(_, _) =>
        case Normal(_, Some(_)) =>
          assert s[0].ReturnStatement?;
        case Normal(st1, None) =>
          BlockValueFromOwnReturn(st1, s[1..], fuel, describe);
          if ExecuteStatements(st1, s[1..], fuel, describe).Normal? &&
             ExecuteStatements(st1, s[1..], fuel, describe).value.Some? {
            var i :| 0 <= i < |s[1..]| && s[1..][i].ReturnStatement?;
            assert s[i + 1].ReturnStatement?;
          }
      }
    }
  }

  /** `execute` accepts only a block. */
  lemma OnlyBlocksExecute(st: ExecState, n: Node, fuel: nat, describe: Node -> string)
    requires !n.Block?
    ensures Execute(st, n, fuel, describe) == Abrupt(st, Fail(Runtime003, [("node", describe(n))]))
  {
  }

  /** An `if` whose condition is true has the outcome of its then-branch with any
      returned value dropped: a return inside the branch does not leave the function. */
  lemma IfDropsReturnedValue(st: ExecState, c: Node, t: Node, e: Option<Node>, fuel: nat,
                             describe: Node -> string)
    requires EvaluateAssignable(st, c, fuel, describe).Normal?
    requires EvaluateAssignable(st, c, fuel, describe).value.value == BoolValue(true)
    ensures Statement(st, IfStatement(c, t, e), fuel, describe) ==
      NoValue(Execute(EvaluateAssignable(st, c, fuel, describe).st, t, fuel, describe))
  {
  }

  /** A round of a loop whose body returns a value goes on to the next round: the value
      is dropped and the loop keeps running. */
  lemma LoopDropsReturnedValue(st: ExecState, c: Node, b: Node, fuel: nat, describe: Node -> string)
    requires fuel > 0
    requires EvaluateAssignable(st, c, fuel, describe).Normal?
    requires EvaluateAssignable(st, c, fuel, describe).value.value == BoolValue(true)
    requires Execute(EvaluateAssignable(st, c, fuel, describe).st, b, fuel - 1, describe).Normal?
    ensures LoopFrom(st, c, b, fuel, describe) ==
      LoopFrom(Execute(EvaluateAssignable(st, c, fuel, describe).st, b, fuel - 1, describe).st,
               c, b, fuel - 1, describe)
  {
  }

  /** After the first check, a condition that is not `true` (false, or a value of
      another type) ends the loop without an error. */
  lemma LoopEndsUnlessTrue(st: ExecState, c: Node, b: Node, fuel: nat, describe: Node -> string)
    requires EvaluateAssignable(st, c, fuel, describe).Normal?
    requires EvaluateAssignable(st, c, fuel, describe).value.value != BoolValue(true)
    ensures LoopFrom(st, c, b, fuel, describe) == Normal(EvaluateAssignable(st, c, fuel, describe).st, ())
  {
  }

  /** The condition of an `if` or a `while` must be a boolean: any other value is
      Runtime014 on the condition node, at the first check of a loop as well. A boolean
      condition of a loop starts its rounds. */
  lemma ConditionMustBeBool(st: ExecState, c: Node, t: Node, e: Option<Node>, fuel: nat,
                            describe: Node -> string)
    requires EvaluateAssignable(st, c, fuel, describe).Normal?
    ensures !EvaluateAssignable(st, c, fuel, describe).value.value.BoolValue? ==>
      EvaluateIf(st, c, t, e, fuel, describe) ==
        Abrupt(EvaluateAssignable(st, c, fuel, describe).st, Fail(Runtime014, [("node", describe(c))]))
    ensures !EvaluateAssignable(st, c, fuel, describe).value.value.BoolValue? ==>
      EvaluateLoop(st, c, t, fuel, describe) ==
        Abrupt(EvaluateAssignable(st, c, fuel, describe).st, Fail(Runtime014, [("node", describe(c))]))
    ensures !EvaluateAssignable(st, c, fuel, describe).value.value.BoolValue? ==>
      Statement(st, IfStatement(c, t, e), fuel, describe).Abrupt? &&
      Statement(st, LoopStatement(c, t), fuel, describe).Abrupt?
    ensures EvaluateAssignable(st, c, fuel, describe).value.value.BoolValue? ==>
      EvaluateLoop(st, c, t, fuel, describe) ==
        LoopFrom(EvaluateAssignable(st, c, fuel, describe).st, c, t, fuel, describe)
  {
  }

  // ---------------------------------------------------------------------------------
  // Calls

  /** `print` is built in: a call to it never consults the table, even when a user
      function of that name was defined. */
  lemma PrintIsBuiltIn(st: ExecState, arguments: seq<Node>, fuel: nat, describe: Node -> string)
    ensures Call(st, "print", arguments, fuel, describe) == NoValue(PrintFunction(st, arguments, fuel, describe))
  {
  }

  /** An unknown function is Runtime002 and an arity mismatch Runtime012; both are
      detected before any scope is pushed or any argument evaluated. */
  lemma CallErrors(st: ExecState, name: string, arguments: seq<Node>, fuel: nat, describe: Node -> string)
    requires name != "print"
    ensures name !in st.functions ==>
      Call(st, name, arguments, fuel, describe) == Abrupt(st, Fail(Runtime002, [("function", name)]))
    ensures name in st.functions && |st.functions[name].0| != |arguments| ==>
      Call(st, name, arguments, fuel, describe) ==
        Abrupt(st, Fail(Runtime012, [("parameters", Decimal.NatToString(|st.functions[name].0|)),
                                     ("arguments", Decimal.NatToString(|arguments|)),
                                     ("name", name)]))
  {
  }

  /** Binding parameters leaves every other name resolving as before. */
  lemma {:induction false} BindKeepsOtherNames(st: ExecState, name: string, parameters: seq<(string, Type)>,
                                               values: seq<GreenValue>, x: string)
    requires |st.scopes| > 0
    requires forall k :: 0 <= k < |parameters| ==> parameters[k].0 != x
    ensures Lookup(BindParameters(st, name, parameters, values).st.scopes, x) == Lookup(st.scopes, x)
    decreases |parameters|
  {
    if |parameters| > 0 && |values| > 0 && parameters[0].1 == values[0].valueType {
      var st1 := st.(scopes := Define(st.scopes, parameters[0].0, values[0]));
      LookupAfterDefine(st.scopes, parameters[0].0, x, values[0]);
      assert forall k :: 0 <= k < |parameters[1..]| ==> parameters[1..][k] == parameters[k + 1];
      BindKeepsOtherNames(st1, name, parameters[1..], values[1..], x);
    }
  }

  /** With distinct parameter names and matching types, each parameter resolves to its
      own argument value after binding. */
  lemma {:induction false} BindBindsParameters(st: ExecState, name: string, parameters: seq<(string, Type)>,
                                               values: seq<GreenValue>, k: nat)
    requires |st.scopes| > 0 && |parameters| == |values| && k < |parameters|
    requires forall j :: 0 <= j < |parameters| ==> parameters[j].1 == values[j].valueType
    requires forall i, j :: 0 <= i < j < |parameters| ==> parameters[i].0 != parameters[j].0
    ensures Lookup(BindParameters(st, name, parameters, values).st.scopes, parameters[k].0) == Some(values[k])
    decreases |parameters|
  {
    var st1 := st.(scopes := Define(st.scopes, parameters[0].0, values[0]));
    var ps, vs := parameters[1..], values[1..];
    assert forall j :: 0 <= j < |ps| ==> ps[j] == parameters[j + 1] && vs[j] == values[j + 1];
    if k == 0 {
      LookupAfterDefine(st.scopes, parameters[0].0, parameters[0].0, values[0]);
      BindKeepsOtherNames(st1, name, ps, vs, parameters[0].0);
    } else {
      BindBindsParameters(st1, name, ps, vs, k - 1);
    }
  }

  /** Scoping is dynamic: in the scope a call pushes, a name that is not a parameter
      resolves to the caller's nearest binding of it. */
  lemma CalleeSeesCallerBindings(caller: ExecState, name: string, parameters: seq<(string, Type)>,
                                 values: seq<GreenValue>, x: string)
    requires forall k :: 0 <= k < |parameters| ==> parameters[k].0 != x
    ensures Lookup(BindParameters(caller.(scopes := Push(caller.scopes)), name, parameters, values).st.scopes, x) ==
            Lookup(caller.scopes, x)
  {
    BindKeepsOtherNames(caller.(scopes := Push(caller.scopes)), name, parameters, values, x);
    PushPop(caller.scopes, x, GreenValue(Int, Null), x);
  }

  /** A completed call of a user function leaves the caller's stack as deep as it was,
      with the same names at the same types in every scope; only values can differ. */
  lemma CompletedCallKeepsCallerNames(st: ExecState, name: string, arguments: seq<Node>, fuel: nat,
                                      describe: Node -> string)
    requires name != "print"
    requires Call(st, name, arguments, fuel, describe).Normal?
    ensures |Call(st, name, arguments, fuel, describe).st.scopes| == |st.scopes|
    ensures forall i :: 0 <= i < |st.scopes| ==>
      SameNames(st.scopes[i], Call(st, name, arguments, fuel, describe).st.scopes[i])
  {
  }

  // ---------------------------------------------------------------------------------
  // Operators

  /** The remainder `i32` division leaves: the Euclidean remainder of the magnitudes,
      carrying the sign of the dividend. */
  lemma TruncDivRemainder(a: int, b: int)
    requires b != 0
    ensures a - TruncDiv(a, b) * b == (if a < 0 then -(Abs(a) % Abs(b)) else Abs(a) % Abs(b))
  {
    var qa, ra := Abs(a) / Abs(b), Abs(a) % Abs(b);
    assert Abs(a) == qa * Abs(b) + ra;
    if b > 0 {
      assert Abs(b) == b;
      if a < 0 {
        assert TruncDiv(a, b) * b == -(qa * Abs(b));
      } else {
        assert TruncDiv(a, b) * b == qa * Abs(b);
      }
    } else {
      assert Abs(b) == -b;
      if a < 0 {
        assert TruncDiv(a, b) * b == -(qa * Abs(b));
      } else {
        assert TruncDiv(a, b) * b == qa * Abs(b);
      }
    }
  }

  lemma QuotientBound(n: nat, d: nat)
    requires d >= 1
    ensures n / d <= n
  {
    var q := n / d;
    assert n == q * d + n % d;
    MultipleAtLeast(q, d);
  }

  lemma {:induction false} MultipleAtLeast(q: nat, d: nat)
    requires d >= 1
    ensures q <= q * d
    decreases d
  {
    if d > 1 {
      MultipleAtLeast(q, d - 1);
      assert q * d == q * (d - 1) + q;
    }
  }

  /** `i32` division rounds toward zero: the remainder is smaller than the divisor,
      has the sign of the dividend, and the quotient is never larger than the dividend. */
  lemma TruncDivRoundsTowardZero(a: int, b: int)
    requires b != 0
    ensures Abs(a - TruncDiv(a, b) * b) < Abs(b)
    ensures a - TruncDiv(a, b) * b == 0 || (a - TruncDiv(a, b) * b < 0) == (a < 0)
    ensures Abs(TruncDiv(a, b)) == Abs(a) / Abs(b) <= Abs(a)
  {
    TruncDivRemainder(a, b);
    QuotientBound(Abs(a), Abs(b));
  }

  /** Addition, subtraction and multiplication of `i32` values panic exactly when the
      mathematical result leaves the `i32` range, and otherwise give that result. */
  lemma ArithmeticOverflowRules(op: O.BinaryArithmetic, a: int, b: int)
    requires op != O.Divide
    ensures var exact := match op
                         case Add => a + b
                         case Subtract => a - b
                         case Multiply => a * b
                         case Divide => 0;
      && (IntArithmetic(op, a, b).Ok? <==> Decimal.InI32(exact))
      && (IntArithmetic(op, a, b).Ok? ==> IntArithmetic(op, a, b).value == exact)
  {
  }

  /** Division by zero panics, and among `i32` operands the only other panic is
      `i32::MIN / -1`, whose quotient does not fit. */
  lemma DivisionPanics(a: int, b: int)
    requires Decimal.InI32(a) && Decimal.InI32(b)
    ensures b == 0 ==> IntArithmetic(O.Divide, a, b) == Err(Panic("attempt to divide by zero"))
    ensures b != 0 ==>
      (IntArithmetic(O.Divide, a, b).Err? <==> a == Decimal.I32Min && b == -1)
  {
    if b != 0 {
      TruncDivRoundsTowardZero(a, b);
      var q := TruncDiv(a, b);
      if a == Decimal.I32Min && b == -1 {
        assert q == 0x8000_0000;
      } else if Abs(q) == 0x8000_0000 {
        assert Abs(a) == 0x8000_0000;
        assert a == Decimal.I32Min;
        assert Abs(b) == 1;
        assert b == 1;
        assert q == Decimal.I32Min;
      }
    }
  }

  /** Negating an `i32` (written `-1 * value`) panics only on `i32::MIN`; `Plus` leaves
      the value as it is. */
  lemma NegationRules(i: int, nodeText: string)
    requires Decimal.InI32(i)
    ensures UnaryArithmeticLiteral(O.Minus, IntValue(i), nodeText).Err? <==> i == Decimal.I32Min
    ensures i != Decimal.I32Min ==> UnaryArithmeticLiteral(O.Minus, IntValue(i), nodeText) == Ok(IntValue(-i))
    ensures UnaryArithmeticLiteral(O.Plus, IntValue(i), nodeText) == Ok(IntValue(i))
  {
  }

  /** The logical operators: `xor` is true exactly when its operands differ. */
  lemma LogicalTruthTable(a: bool, b: bool)
    ensures BinaryLogicalOperations(O.Xor, a, b) == (a != b)
    ensures BinaryLogicalOperations(O.And, a, b) == (a && b)
    ensures BinaryLogicalOperations(O.Or, a, b) == (a || b)
    ensures UnaryLogicalOperations(O.Not, a) == !a
  {
  }

  /** There is no short-circuit: the right operand of a binary logical operator is
      evaluated whatever the left one gave, so its failure fails the whole expression. */
  lemma NoShortCircuit(st: ExecState, op: O.BinaryLogical, left: Node, right: Node, fuel: nat,
                       describe: Node -> string)
    requires EvaluateExpression(st, left, fuel, describe).Normal?
    ensures EvaluateExpression(st, right, fuel, describe).Abrupt? ==>
      EvaluateExpression(st, Logical(O.BinaryLogic(op), left, Some(right)), fuel, describe) ==
        EvaluateExpression(st, right, fuel, describe)
    ensures EvaluateExpression(st, Logical(O.BinaryLogic(op), left, Some(right)), fuel, describe).Normal? <==>
      EvaluateExpression(st, left, fuel, describe).value.BoolValue? &&
      EvaluateExpression(st, right, fuel, describe).Normal? &&
      EvaluateExpression(st, right, fuel, describe).value.BoolValue?
    ensures EvaluateExpression(st, right, fuel, describe).Normal? ==>
      var lv := EvaluateExpression(st, left, fuel, describe).value;
      var rv := EvaluateExpression(st, right, fuel, describe).value;
      EvaluateExpression(st, Logical(O.BinaryLogic(op), left, Some(right)), fuel, describe) ==
        if lv.BoolValue? && rv.BoolValue? then Normal(st, BoolValue(BinaryLogicalOperations(op, lv.b, rv.b)))
        else Abrupt(st, Fail(Runtime015, [("left", LiteralToString(lv)),
                                          ("operator", O.LogicalToString(O.BinaryLogic(op))),
                                          ("right", LiteralToString(rv))]))
    ensures EvaluateExpression(st, Logical(O.BinaryLogic(op), left, None), fuel, describe) ==
      Abrupt(st, Fail(Runtime009, []))
  {
  }

  /** `not` needs a boolean operand: its negation otherwise, and Runtime008 naming the
      operator and the operand node on any other value. A right operand is ignored. */
  lemma NotNeedsBool(st: ExecState, left: Node, right: Option<Node>, fuel: nat, describe: Node -> string)
    requires EvaluateExpression(st, left, fuel, describe).Normal?
    ensures EvaluateExpression(st, left, fuel, describe).value.BoolValue? ==>
      EvaluateExpression(st, Logical(O.UnaryLogic(O.Not), left, right), fuel, describe) ==
        Normal(st, BoolValue(!EvaluateExpression(st, left, fuel, describe).value.b))
    ensures !EvaluateExpression(st, left, fuel, describe).value.BoolValue? ==>
      EvaluateExpression(st, Logical(O.UnaryLogic(O.Not), left, right), fuel, describe) ==
        Abrupt(st, Fail(Runtime008, [("operator", O.LogicalToString(O.UnaryLogic(O.Not))),
                                     ("node", describe(left))]))
  {
  }

  /** Which comparisons succeed: two integers under any operator, two strings under `==`
      and `!=` only; integers compare as integers. Every other pair of non-float values,
      two booleans included, is Runtime016. */
  lemma ComparisonRules(op: O.Comparison, left: LiteralValue, right: LiteralValue)
    ensures !(Numeric(left) && Numeric(right) && (left.FloatValue? || right.FloatValue?)) ==>
      (CompareLiterals(op, left, right).Ok? <==>
        (left.IntValue? && right.IntValue?) ||
        (left.StringValue? && right.StringValue? && (op == O.Equal || op == O.NotEqual)))
    ensures left.IntValue? && right.IntValue? ==>
      CompareLiterals(op, left, right) == Ok(BoolValue(CompareValues(op, left.i, right.i)))
    ensures left.StringValue? && right.StringValue? && op == O.Equal ==>
      CompareLiterals(op, left, right) == Ok(BoolValue(left.s == right.s))
    ensures left.StringValue? && right.StringValue? && op == O.NotEqual ==>
      CompareLiterals(op, left, right) == Ok(BoolValue(left.s != right.s))
    ensures left.StringValue? && right.StringValue? && op != O.Equal && op != O.NotEqual ==>
      CompareLiterals(op, left, right) == Err(Fail(Runtime006, [("operator", O.ComparisonToString(op))]))
    ensures !Numeric(left) || !Numeric(right) ==>
      !(left.StringValue? && right.StringValue?) ==>
      CompareLiterals(op, left, right) ==
        Err(Fail(Runtime016, [("left", LiteralToString(left)), ("operator", O.ComparisonToString(op)),
                              ("right", LiteralToString(right))]))
  {
  }

  /** A call inside an operator is not evaluated at all: `evaluate_expression` has no
      arm for it, so `1 + f()` is Runtime003 on the call node. */
  lemma CallInsideOperatorRejected(st: ExecState, name: string, arguments: seq<Node>, fuel: nat,
                                   describe: Node -> string)
    ensures EvaluateExpression(st, Arithmetic(O.BinaryArith(O.Add), Literal(IntValue(1)),
                                              Some(FunctionCallWithReturn(name, arguments))), fuel, describe) ==
      Abrupt(st, Fail(Runtime003, [("node", describe(FunctionCallWithReturn(name, arguments)))]))
  {
  }
}
