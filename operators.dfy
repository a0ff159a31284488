/** The operator vocabulary of src/common/operator.rs: logical and arithmetic operators
    split into unary and binary kinds, and the six comparisons. */
module Operators {

  datatype UnaryLogical = Not
  datatype BinaryLogical = Or | And | Xor
  datatype Logical = UnaryLogic(u: UnaryLogical) | BinaryLogic(b: BinaryLogical)

  datatype UnaryArithmetic = Plus | Minus
  datatype BinaryArithmetic = Add | Subtract | Multiply | Divide
  datatype Arithmetic = UnaryArith(ua: UnaryArithmetic) | BinaryArith(ba: BinaryArithmetic)

  datatype Comparison = Equal | NotEqual | Greater | Less | GreaterEqual | LessEqual

  function LogicalToString(op: Logical): string {
    match op
    case BinaryLogic(And) => "and"
    case BinaryLogic(Or) => "or"
    case BinaryLogic(Xor) => "xor"
    case UnaryLogic(Not) => "not"
  }

  function ArithmeticToString(op: Arithmetic): string {
    match op
    case BinaryArith(Add) => "+"
    case BinaryArith(Subtract) => "-"
    case BinaryArith(Multiply) => "*"
    case BinaryArith(Divide) => "/"
    case UnaryArith(Plus) => "+"
    case UnaryArith(Minus) => "-"
  }

  function ComparisonToString(op: Comparison): string {
    match op
    case Equal => "=="
    case NotEqual => "!="
    case Greater => ">"
    case Less => "<"
    case GreaterEqual => ">="
    case LessEqual => "<="
  }

  lemma LogicalToStringInjective(a: Logical, b: Logical)
    ensures LogicalToString(a) == LogicalToString(b) ==> a == b
  {
  }

  lemma ComparisonToStringInjective(a: Comparison, b: Comparison)
    ensures ComparisonToString(a) == ComparisonToString(b) ==> a == b
  {
  }

  /** Binary arithmetic alone prints injectively, as exactly `+ - * /`; once the unary
      signs are included two operators share each of `+` and `-`. */
  lemma ArithmeticToStringCollisions(a: BinaryArithmetic, b: BinaryArithmetic)
    ensures ArithmeticToString(BinaryArith(a)) in {"+", "-", "*", "/"}
    ensures ArithmeticToString(BinaryArith(a)) == ArithmeticToString(BinaryArith(b)) ==> a == b
    ensures ArithmeticToString(BinaryArith(Add)) == ArithmeticToString(UnaryArith(Plus))
    ensures ArithmeticToString(BinaryArith(Subtract)) == ArithmeticToString(UnaryArith(Minus))
  {
  }
}
