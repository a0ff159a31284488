/** The six keyword families of src/common/keyword.rs, each with its `from_str` and
    `to_string`. */
module Keywords {
  import opened Wrappers

  datatype ControlKeyword = If | Else | While | For | Match
  datatype DeclarationKeyword = Let | Function
  datatype TypeName = Int | Float | Bool | String
  datatype LoopControl = Break | Continue
  datatype FunctionControl = Return
  datatype BoolKeyword = True | False

  function ControlFromStr(s: string): Option<ControlKeyword> {
    match s
    case "if" => Some(If)
    case "else" => Some(Else)
    case "for" => Some(For)
    case "while" => Some(While)
    case "match" => Some(Match)
    case _ => None
  }

  function ControlToString(k: ControlKeyword): string {
    match k
    case If => "if"
    case Else => "else"
    case For => "for"
    case While => "while"
    case Match => "match"
  }

  function DeclarationFromStr(s: string): Option<DeclarationKeyword> {
    match s
    case "let" => Some(Let)
    case "function" => Some(Function)
    case _ => None
  }

  function DeclarationToString(k: DeclarationKeyword): string {
    match k
    case Let => "let"
    case Function => "function"
  }

  function TypeNameFromStr(s: string): Option<TypeName> {
    match s
    case "int" => Some(Int)
    case "float" => Some(Float)
    case "bool" => Some(Bool)
    case "string" => Some(String)
    case _ => None
  }

  function TypeNameToString(k: TypeName): string {
    match k
    case Int => "int"
    case Float => "float"
    case Bool => "bool"
    case String => "string"
  }

  function LoopControlFromStr(s: string): Option<LoopControl> {
    match s
    case "break" => Some(Break)
    case "continue" => Some(Continue)
    case _ => None
  }

  function LoopControlToString(k: LoopControl): string {
    match k
    case Break => "break"
    case Continue => "continue"
  }

  function FunctionControlFromStr(s: string): Option<FunctionControl> {
    match s
    case "return" => Some(Return)
    case _ => None
  }

  function FunctionControlToString(k: FunctionControl): string {
    match k
    case Return => "return"
  }

  function BoolFromStr(s: string): Option<BoolKeyword> {
    match s
    case "true" => Some(True)
    case "false" => Some(False)
    case _ => None
  }

  function BoolToString(k: BoolKeyword): string {
    match k
    case True => "true"
    case False => "false"
  }

  /* Each lemma below states both directions at once: `from_str` recognises exactly the
     spellings `to_string` produces. Hence `from_str(k.to_string()) == Some(k)`, every other
     string gives None, and `to_string` is injective. */

  lemma ControlRoundTrip(s: string, k: ControlKeyword)
    ensures ControlFromStr(s) == Some(k) <==> ControlToString(k) == s
  {
  }

  lemma DeclarationRoundTrip(s: string, k: DeclarationKeyword)
    ensures DeclarationFromStr(s) == Some(k) <==> DeclarationToString(k) == s
  {
  }

  lemma TypeNameRoundTrip(s: string, k: TypeName)
    ensures TypeNameFromStr(s) == Some(k) <==> TypeNameToString(k) == s
  {
  }

  lemma LoopControlRoundTrip(s: string, k: LoopControl)
    ensures LoopControlFromStr(s) == Some(k) <==> LoopControlToString(k) == s
  {
  }

  lemma FunctionControlRoundTrip(s: string, k: FunctionControl)
    ensures FunctionControlFromStr(s) == Some(k) <==> FunctionControlToString(k) == s
  {
  }

  lemma BoolRoundTrip(s: string, k: BoolKeyword)
    ensures BoolFromStr(s) == Some(k) <==> BoolToString(k) == s
  {
  }
}
