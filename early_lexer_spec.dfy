/** The early lexer, src/lexical_analyzer.rs: one function `tokenize` that walks a
    peekable character iterator and returns its own small token type or a message. Here
    the walk is a function over the characters still unread; a step of the outer loop is
    `Step`, and each inner loop is a function of its own. `is_alphabetic` and
    `is_numeric` are the two parameters in `CharClasses`. */
module EarlyLexing {
  import opened Wrappers
  import opened Decimal
  import L = Lexing
  import LP = LexingProperties

  /** The `Token` enum of the early lexer; a Float keeps its text (its `f64` value is
      not modelled). `DocComment` is declared but never pushed. */
  datatype Token =
    | Print
    | Str(text: string)
    | Int(value: int)
    | Float(numeral: string)
    | Bool(b: bool)
    | AddAndSubOperator(op: string)
    | MulAndDivOperator(op: string)
    | CompareOperator(op: string)
    | LParen
    | RParen
    | Semicolon
    | EOF
    | DocComment(doc: string)

  type Error = string

  /** What a lone `/` does with the character after it: the source pushes the operator
      and then takes one more character; the intended lexer leaves it for the next round. */
  datatype Division = ConsumesNext | KeepsNext

  // ---------------------------------------------------------------- inner loops

  /** The string loop: characters up to the next `"` (line breaks included). */
  function StringRun(s: seq<char>, text: string): (r: (seq<char>, string))
    ensures |r.0| <= |s|
  {
    if s == [] || s[0] == '"' then (s, text) else StringRun(s[1..], text + [s[0]])
  }

  /** A line comment: everything through the first newline. */
  function SkipLine(s: seq<char>): (r: seq<char>)
    ensures |r| <= |s|
  {
    if s == [] then [] else if s[0] == '\n' then s[1..] else SkipLine(s[1..])
  }

  /** A block comment: everything through the first `*` `/`, or all of the input. */
  function BlockSkip(s: seq<char>): (r: seq<char>)
    ensures |r| <= |s|
  {
    if s == [] then []
    else if s[0] == '*' && |s| > 1 && s[1] == '/' then s[2..]
    else BlockSkip(s[1..])
  }

  /** The word loop: alphabetic characters only. */
  function AlphaRun(cls: L.CharClasses, s: seq<char>, word: string): (r: (seq<char>, string))
    ensures |r.0| <= |s|
    ensures s != [] && cls.alphabetic(s[0]) ==> |r.0| < |s|
  {
    if s != [] && cls.alphabetic(s[0]) then AlphaRun(cls, s[1..], word + [s[0]]) else (s, word)
  }

  /** The number loop: numeric characters and one `.`; a second `.` is an error. */
  function NumberRun(cls: L.CharClasses, s: seq<char>, isFloat: bool, text: string)
    : (r: Result<(seq<char>, bool, string), Error>)
    ensures r.Ok? ==> |r.value.0| <= |s|
    ensures r.Ok? && s != [] && cls.numeric(s[0]) ==> |r.value.0| < |s|
    ensures r.Err? ==> r.error == "Unexpected '.' in number"
  {
    if s == [] then Ok((s, isFloat, text))
    else if cls.numeric(s[0]) then NumberRun(cls, s[1..], isFloat, text + [s[0]])
    else if s[0] == '.' then
      if isFloat then Err("Unexpected '.' in number") else NumberRun(cls, s[1..], true, text + ['.'])
    else Ok((s, isFloat, text))
  }

  /** What `str::parse::<f64>` accepts of a numeral made of numeric characters and one
      `.` that starts with a numeric character: ASCII digits around the point. */
  predicate FloatSyntax(text: string) {
    forall c <- text :: IsDigit(c) || c == '.'
  }

  // ---------------------------------------------------------------- the branches

  /** The `/` arm, given what follows the slash. */
  function Slash(division: Division, s: seq<char>): (r: Result<(seq<char>, seq<Token>), Error>)
    ensures r.Ok? ==> |r.value.0| <= |s| && |r.value.1| <= 1
    ensures r.Ok? ==> forall t <- r.value.1 :: t == MulAndDivOperator("/")
  {
    if s == [] then Err("Unexpected end of input")
    else if s[0] == '/' then
      var s1 := s[1..];
      if s1 != [] && s1[0] == '/' then Ok((SkipLine(s1[1..]), [])) else Ok((SkipLine(s1), []))
    else if s[0] == '*' then Ok((BlockSkip(s[1..]), []))
    else Ok((if division == ConsumesNext then s[1..] else s, [MulAndDivOperator("/")]))
  }

  /** The string arm, given what follows the opening quote. */
  function StringLiteral(s: seq<char>): (r: Result<(seq<char>, seq<Token>), Error>)
    ensures r.Ok? ==> |r.value.0| < |s| && |r.value.1| == 1 && r.value.1[0].Str?
  {
    var run := StringRun(s, "");
    if run.0 == [] then Err("Unclosed string literal") else Ok((run.0[1..], [Str(run.1)]))
  }

  /** The word arm: only three words are known. */
  function Word(cls: L.CharClasses, s: seq<char>): (r: Result<(seq<char>, seq<Token>), Error>)
    requires s != [] && cls.alphabetic(s[0])
    ensures r.Ok? ==> |r.value.0| < |s| && |r.value.1| == 1
  {
    var run := AlphaRun(cls, s, "");
    var word := run.1;
    if word == "print" then Ok((run.0, [Print]))
    else if word == "true" then Ok((run.0, [Bool(true)]))
    else if word == "false" then Ok((run.0, [Bool(false)]))
    else Err("Unknown function: " + word)
  }

  /** The number arm: an `i32` without a point, a float with one. */
  function Number(cls: L.CharClasses, s: seq<char>): (r: Result<(seq<char>, seq<Token>), Error>)
    requires s != [] && cls.numeric(s[0])
    ensures r.Ok? ==> |r.value.0| < |s| && |r.value.1| == 1
    ensures r.Ok? && r.value.1[0].Int? ==> InI32(r.value.1[0].value)
  {
    var run :- NumberRun(cls, s, false, "");
    var text := run.2;
    if run.1 then
      if FloatSyntax(text) then Ok((run.0, [Float(text)])) else Err("Invalid float number: " + text)
    else
      match ParseI32(text)
      case Some(v) => Ok((run.0, [Int(v)]))
      case None => Err("Invalid integer number: " + text)
  }

  /** The characters the outer `match` handles before its two guarded arms. */
  const Punctuation: set<char> :=
    {' ', '\n', '\r', '(', ')', ';', '"', '+', '-', '*', '/', '=', '!'}

  /** One round of the outer loop: the characters still unread and the tokens pushed. */
  function Step(cls: L.CharClasses, division: Division, s: seq<char>)
    : (r: Result<(seq<char>, seq<Token>), Error>)
    requires s != []
    ensures r.Ok? ==> |r.value.0| < |s| && |r.value.1| <= 1
    ensures r.Ok? ==> forall t <- r.value.1 :: t != EOF && !t.DocComment?
  {
    var c := s[0];
    if c == ' ' || c == '\n' || c == '\r' then Ok((s[1..], []))
    else if c == '(' then Ok((s[1..], [LParen]))
    else if c == ')' then Ok((s[1..], [RParen]))
    else if c == ';' then Ok((s[1..], [Semicolon]))
    else if c == '"' then StringLiteral(s[1..])
    else if c == '+' then Ok((s[1..], [AddAndSubOperator("+")]))
    else if c == '-' then Ok((s[1..], [AddAndSubOperator("-")]))
    else if c == '*' then Ok((s[1..], [MulAndDivOperator("*")]))
    else if c == '/' then Slash(division, s[1..])
    else if c == '=' then
      if |s| > 1 && s[1] == '=' then Ok((s[2..], [CompareOperator("==")])) else Err("")
    else if c == '!' then
      if |s| > 1 && s[1] == '=' then Ok((s[2..], [CompareOperator("!=")])) else Err("")
    else if cls.alphabetic(c) then Word(cls, s)
    else if cls.numeric(c) then Number(cls, s)
    else Err("Unexpected character: " + [c])
  }

  /** The outer loop, then the trailing EOF. On success the earlier tokens are kept, the
      list ends with EOF, and no other added token is EOF or a doc comment. */
  function Scan(cls: L.CharClasses, division: Division, s: seq<char>, acc: seq<Token>)
    : (r: Result<seq<Token>, Error>)
    ensures r.Ok? ==> |r.value| > |acc| && r.value[..|acc|] == acc && r.value[|r.value| - 1] == EOF
    ensures r.Ok? ==> forall i :: |acc| <= i < |r.value| - 1 ==>
      r.value[i] != EOF && !r.value[i].DocComment?
    decreases |s|
  {
    if s == [] then Ok(acc + [EOF])
    else
      var st :- Step(cls, division, s);
      var r := Scan(cls, division, st.0, acc + st.1);
      if r.Ok? then
        assert r.value[..|acc|] == (r.value[..|acc + st.1|])[..|acc|];
        assert forall i :: |acc| <= i < |acc + st.1| ==> r.value[i] in st.1;
        r
      else r
  }

  /** `tokenize` as written. */
  function Tokenize(cls: L.CharClasses, text: string): (r: Result<seq<Token>, Error>)
    ensures text == [] ==> r == Err("Input text is empty")
  {
    if text == [] then Err("Input text is empty") else Scan(cls, ConsumesNext, text, [])
  }

  /** `tokenize` with a lone `/` consuming only itself. */
  function TokenizeIntended(cls: L.CharClasses, text: string): (r: Result<seq<Token>, Error>)
    ensures text == [] ==> r == Err("Input text is empty")
  {
    if text == [] then Err("Input text is empty") else Scan(cls, KeepsNext, text, [])
  }
}
