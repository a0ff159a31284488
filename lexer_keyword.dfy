/** The flat keyword enumeration of src/lexer/keyword.rs. */
module LexerKeyword {
  import Keywords

  datatype Keyword = If | Else | While | For | Match | Let | Function
                   | Int | Float | Bool | String | Return

  function KeywordToString(k: Keyword): string {
    match k
    case If => "if"
    case Else => "else"
    case While => "while"
    case For => "for"
    case Match => "match"
    case Let => "let"
    case Function => "function"
    case Int => "int"
    case Float => "float"
    case Bool => "bool"
    case String => "string"
    case Return => "return"
  }

  lemma KeywordToStringInjective(a: Keyword, b: Keyword)
    ensures KeywordToString(a) == KeywordToString(b) ==> a == b
  {
  }

  /** Every spelling of the flat enumeration is recognised by exactly one `from_str` of
      the keyword families in src/common/keyword.rs: the control words by the control
      family, `let`/`function` by the declaration family, the type words by the type-name
      family and `return` by the function-control family. */
  lemma KeywordSpellingFamily(k: Keyword)
    ensures Keywords.ControlFromStr(KeywordToString(k)).Some? <==> k in {If, Else, While, For, Match}
    ensures Keywords.DeclarationFromStr(KeywordToString(k)).Some? <==> k in {Let, Function}
    ensures Keywords.TypeNameFromStr(KeywordToString(k)).Some? <==> k in {Int, Float, Bool, String}
    ensures Keywords.FunctionControlFromStr(KeywordToString(k)).Some? <==> k == Return
    ensures Keywords.LoopControlFromStr(KeywordToString(k)).None?
    ensures Keywords.BoolFromStr(KeywordToString(k)).None?
  {
  }
}
