/** The value vocabulary of src/common/types.rs: the four Green types, literal values, typed
    values and block kinds. src/types.rs repeats all of it except the block kinds. */
module Types {
  import Decimal
  import Wrappers

  datatype Type = Float | Int | Bool | String

  /** A 64-bit float is kept only as the text Rust's `Display` prints for it;
      no float arithmetic is modelled. */
  datatype F64 = F64(display: string)

  /** A literal; `Int` holds an `i32`, which the `ValidLiteral` predicate constrains. */
  datatype LiteralValue = FloatValue(f: F64) | IntValue(i: int) | BoolValue(b: bool)
                        | StringValue(s: string) | Null

  predicate ValidLiteral(v: LiteralValue) {
    v.IntValue? ==> Decimal.InI32(v.i)
  }

  /** `GreenValue::new` is this constructor: it stores both fields unchanged. */
  datatype GreenValue = GreenValue(valueType: Type, value: LiteralValue)

  /** The type a literal carries; `Null` has none. */
  function LiteralType(v: LiteralValue): (t: Wrappers.Option<Type>)
    ensures t.None? <==> v.Null?
    ensures v.BoolValue? ==> t == Wrappers.Some(Bool)
    ensures v.FloatValue? ==> t == Wrappers.Some(Float)
    ensures v.IntValue? ==> t == Wrappers.Some(Int)
    ensures v.StringValue? ==> t == Wrappers.Some(String)
  {
    match v
    case BoolValue(_) => Wrappers.Some(Bool)
    case FloatValue(_) => Wrappers.Some(Float)
    case IntValue(_) => Wrappers.Some(Int)
    case StringValue(_) => Wrappers.Some(String)
    case Null => Wrappers.None
  }

  datatype BlockType = Function | Conditional | Loop | Global

  function TypeToString(t: Type): string {
    match t
    case Int => "int"
    case Float => "float"
    case Bool => "bool"
    case String => "string"
  }

  function BoolToString(b: bool): string {
    if b then "true" else "false"
  }

  function LiteralToString(v: LiteralValue): string {
    match v
    case IntValue(i) => Decimal.IntToString(i)
    case FloatValue(f) => f.display
    case StringValue(s) => s
    case BoolValue(b) => BoolToString(b)
    case Null => "Null"
  }

  function BlockTypeToString(b: BlockType): string {
    match b
    case Conditional => "Conditional"
    case Function => "Function"
    case Global => "Global"
    case Loop => "Loop"
  }

  lemma TypeToStringInjective(a: Type, b: Type)
    ensures TypeToString(a) == TypeToString(b) ==> a == b
  {
  }

  lemma BlockTypeToStringInjective(a: BlockType, b: BlockType)
    ensures BlockTypeToString(a) == BlockTypeToString(b) ==> a == b
  {
  }

  /** The non-float arms of `LiteralValue::to_string`: strings are returned unchanged,
      booleans print as `true`/`false`, `Null` as `Null`, and an `i32` in decimal, so that
      reading the text back with `str::parse::<i32>` gives the same integer. */
  lemma LiteralToStringArms(v: LiteralValue)
    requires ValidLiteral(v)
    ensures v.StringValue? ==> LiteralToString(v) == v.s
    ensures v.BoolValue? ==> LiteralToString(v) == (if v.b then "true" else "false")
    ensures v.Null? ==> LiteralToString(v) == "Null"
    ensures v.IntValue? ==> Decimal.ParseI32(LiteralToString(v)) == Wrappers.Some(v.i)
  {
    if v.IntValue? {
      Decimal.ParseI32OfIntToString(v.i);
    }
  }

  /** Two integer literals print alike only when they are equal. */
  lemma IntLiteralToStringInjective(a: int, b: int)
    requires Decimal.InI32(a) && Decimal.InI32(b)
    ensures LiteralToString(IntValue(a)) == LiteralToString(IntValue(b)) ==> a == b
  {
    Decimal.IntToStringInjective(a, b);
  }
}
