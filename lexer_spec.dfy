/** The lexer of src/lexer/lexical_analyzer.rs as functions on a lexer state: the
    characters not yet read, the tokens pushed so far and the current row and column.
    Every loop of the source is a recursive function here; the `Lexer` class in module
    `Lexers` runs the same loops imperatively and is proved equal to these functions. */
module Lexing {
  import opened Wrappers
  import opened Tokens
  import K = Keywords
  import O = Operators
  import opened ErrorCodes
  import opened ErrorContexts

  /** `char::is_alphabetic` and `char::is_numeric` follow Unicode's tables; they are
      parameters of the model. */
  datatype CharClasses = CharClasses(alphabetic: char -> bool, numeric: char -> bool)

  /** A lexical error as the source reports it, before it is rendered by the message
      templates: the code, the location and the named parameters. */
  type LexError = ErrorContext<ErrorCode>

  function Failure(code: ErrorCode, row: nat, col: nat, params: seq<(string, string)>): LexError {
    ErrorContext(code, Some(row), Some(col), params)
  }

  datatype LexState = LexState(rest: seq<char>, tokens: seq<Token>, row: nat, col: nat)

  /** `Lexer::new`: nothing read, no tokens, at row 1, column 1. */
  function Start(text: string): LexState {
    LexState(text, [], 1, 1)
  }

  predicate Suffix(a: seq<char>, b: seq<char>) {
    |a| <= |b| && a == b[|b| - |a|..]
  }

  /** A token kind the lexer may push while reading: never the end marker and never a
      comment. */
  predicate Emitted(kind: TokenKind) {
    !kind.EOF? && !kind.Comment? && !kind.DocComment?
  }

  /** `after` was reached from `before` by reading characters and pushing emitted tokens. */
  predicate Extends(before: LexState, after: LexState) {
    Suffix(after.rest, before.rest)
    && |before.tokens| <= |after.tokens|
    && after.tokens[..|before.tokens|] == before.tokens
    && forall i :: |before.tokens| <= i < |after.tokens| ==> Emitted(after.tokens[i].kind)
  }

  /** Reading only: characters consumed, tokens untouched. */
  predicate Reads(before: LexState, after: LexState) {
    Suffix(after.rest, before.rest) && after.tokens == before.tokens
  }

  /** `next_char`: a newline moves to column 1 of the next row, anything else (and the
      end of input) one column to the right. */
  function NextChar(st: LexState): (r: LexState)
    ensures Reads(st, r)
    ensures st.rest != [] ==> r.rest == st.rest[1..]
  {
    if st.rest != [] && st.rest[0] == '\n' then st.(rest := st.rest[1..], row := st.row + 1, col := 1)
    else st.(rest := if st.rest == [] then [] else st.rest[1..], col := st.col + 1)
  }

  /** Reading twice is reading. */
  lemma ReadsTwice(a: LexState, b: LexState, c: LexState)
    requires Reads(a, b) && Reads(b, c)
    ensures Reads(a, c)
  {
    assert c.rest == b.rest[|b.rest| - |c.rest|..] == a.rest[|a.rest| - |c.rest|..];
  }

  /** Reading only extends the state. */
  lemma ReadExtends(a: LexState, b: LexState)
    requires Reads(a, b)
    ensures Extends(a, b)
  {
    assert b.tokens[..|a.tokens|] == a.tokens;
  }

  /** Reading and then pushing one emitted token extends the state. */
  lemma ReadThenPush(a: LexState, b: LexState, kind: TokenKind, row: nat, col: nat)
    requires Reads(a, b) && Emitted(kind)
    ensures Extends(a, PushTokenAt(b, kind, row, col)) && |PushTokenAt(b, kind, row, col).tokens| == |a.tokens| + 1
  {
    assert PushTokenAt(b, kind, row, col).tokens[..|a.tokens|] == a.tokens;
  }

  /** `peek_char`: the next character, or Lex004 at the current location. */
  function PeekChar(st: LexState): (r: Result<char, LexError>)
    ensures r.Ok? <==> st.rest != []
    ensures r.Ok? ==> r.value == st.rest[0]
    ensures r.Err? ==> r.error == Failure(Lex004, st.row, st.col, [])
  {
    if st.rest == [] then Err(Failure(Lex004, st.row, st.col, [])) else Ok(st.rest[0])
  }

  /** `push_token`: the token carries the current location. */
  function PushToken(st: LexState, kind: TokenKind): LexState {
    st.(tokens := st.tokens + [Token(kind, st.row, st.col)])
  }

  /** `push_token_with_location`. */
  function PushTokenAt(st: LexState, kind: TokenKind, row: nat, col: nat): LexState {
    st.(tokens := st.tokens + [Token(kind, row, col)])
  }

  /** The one-character tokens of `tokenize`; the arithmetic ones go through
      `Arithmetic::from_str` of the character. */
  function Punctuation(c: char): (r: Option<TokenKind>)
    ensures r.Some? ==> Emitted(r.value)
  {
    match c
    case '(' => Some(LParen)
    case ')' => Some(RParen)
    case '{' => Some(LBrace)
    case '}' => Some(RBrace)
    case ':' => Some(Colon)
    case ';' => Some(Semicolon)
    case ',' => Some(Comma)
    case '.' => Some(Dot)
    case '+' => Some(ArithmeticOperator(ArithmeticFromStr([c]).value))
    case '-' => Some(ArithmeticOperator(ArithmeticFromStr([c]).value))
    case '*' => Some(ArithmeticOperator(ArithmeticFromStr([c]).value))
    case _ => None
  }

  // ---------------------------------------------------------------- strings

  /** The characters that end the body of a string literal. */
  predicate StringEnd(c: char) {
    c == '"' || c == '\n' || c == '\r'
  }

  /** The loop of `lex_string`: characters up to a quote, a newline, a carriage return or
      the end of input, none of which is taken. */
  function StringBody(st: LexState, text: string): (r: (LexState, string))
    ensures Reads(st, r.0)
    decreases |st.rest|
  {
    if st.rest == [] || StringEnd(st.rest[0]) then (st, text)
    else StringBody(NextChar(st), text + [st.rest[0]])
  }

  /** `lex_string`: skip the opening quote, take the body, then demand the closing quote
      (Lex004 at the end of input, Lex003 at a line break). The literal is pushed at the
      location after the closing quote. */
  function LexString(st: LexState): (r: Result<LexState, LexError>)
    ensures r.Ok? ==> Extends(st, r.value) && |r.value.tokens| == |st.tokens| + 1
    ensures r.Ok? && st.rest != [] ==> |r.value.rest| < |st.rest|
    ensures r.Err? ==> r.error.errorCode in {Lex003, Lex004}
  {
    var st1 := NextChar(st);
    var body := StringBody(st1, "");
    var c :- PeekChar(body.0);
    if c != '"' then Err(Failure(Lex003, body.0.row, body.0.col, []))
    else
      ReadsTwice(st, st1, body.0);
      ReadsTwice(st, body.0, NextChar(body.0));
      ReadThenPush(st, NextChar(body.0), StringLiteral(body.1), NextChar(body.0).row, NextChar(body.0).col);
      Ok(PushToken(NextChar(body.0), StringLiteral(body.1)))
  }

  // ---------------------------------------------------------------- comments

  /** The loop of a `//` comment: read through the first newline or to the end. */
  function SkipLine(st: LexState): (r: LexState)
    ensures Reads(st, r)
    decreases |st.rest|
  {
    if st.rest == [] then st
    else if st.rest[0] == '\n' then NextChar(st)
    else SkipLine(NextChar(st))
  }

  /** The loop of a `///` doc comment: the same reading as `SkipLine`, collecting the
      characters other than carriage returns. The text is not pushed. */
  function DocLine(st: LexState, doc: string): (r: (LexState, string))
    ensures Reads(st, r.0)
    decreases |st.rest|
  {
    if st.rest == [] then (st, doc)
    else if st.rest[0] == '\n' then (NextChar(st), doc)
    else if st.rest[0] == '\r' then DocLine(NextChar(st), doc)
    else DocLine(NextChar(st), doc + [st.rest[0]])
  }

  /** The `//` branch of `lex_slash` once both slashes are read: a third slash makes it a
      doc comment. */
  function LineComment(st: LexState): (r: LexState)
    ensures Reads(st, r)
  {
    if st.rest != [] && st.rest[0] == '/' then DocLine(NextChar(st), "").0 else SkipLine(st)
  }

  /** The loop of a block comment: read until a `*` immediately followed by `/`; running
      out of input at either peek is Lex004. */
  function BlockComment(st: LexState): (r: Result<LexState, LexError>)
    ensures r.Ok? ==> Reads(st, r.value)
    ensures r.Err? ==> r.error.errorCode == Lex004
    decreases |st.rest|
  {
    var c :- PeekChar(st);
    var st1 := NextChar(st);
    if c == '*' then
      var d :- PeekChar(st1);
      if d == '/' then Ok(NextChar(st1)) else BlockComment(st1)
    else BlockComment(st1)
  }

  /** `lex_slash`: `//` and `///` comments and block comments push nothing; a lone `/` is
      the division operator at the location of the slash. A slash at the end of input is
      Lex004. */
  function LexSlash(st: LexState): (r: Result<LexState, LexError>)
    ensures r.Ok? ==> Extends(st, r.value) && |r.value.tokens| <= |st.tokens| + 1
    ensures r.Ok? && st.rest != [] ==> |r.value.rest| < |st.rest|
    ensures r.Err? ==> r.error.errorCode == Lex004
  {
    var st1 := NextChar(st);
    var c :- PeekChar(st1);
    var st2 := NextChar(st1);
    ReadsTwice(st, st1, st2);
    if c == '/' then
      var comment := LineComment(st2);
      ReadsTwice(st, st2, comment);
      ReadExtends(st, comment);
      Ok(comment)
    else if c == '*' then
      var comment :- BlockComment(st2);
      ReadsTwice(st, st2, comment);
      ReadExtends(st, comment);
      Ok(comment)
    else
      ReadThenPush(st, st1, ArithmeticOperator(Divide), st.row, st.col);
      Ok(PushTokenAt(st1, ArithmeticOperator(ArithmeticFromStr("/").value), st.row, st.col))
  }

  // ---------------------------------------------------------------- operators

  /** `lex_equal`: `==` is the equality comparison, pushed at the location of its second
      character; a lone `=` is assignment, pushed at the location after it. */
  function LexEqual(st: LexState): (r: Result<LexState, LexError>)
    ensures r.Ok? ==> Extends(st, r.value) && |r.value.tokens| == |st.tokens| + 1
    ensures r.Ok? && st.rest != [] ==> |r.value.rest| < |st.rest|
    ensures r.Err? ==> r.error.errorCode == Lex004
  {
    var st1 := NextChar(st);
    var c :- PeekChar(st1);
    if c == '=' then Ok(NextChar(PushToken(st1, CompareOperator(ComparisonFromStr("==").value))))
    else Ok(PushToken(st1, Equal))
  }

  /** `lex_exclamation`: `!=` is the inequality comparison; a lone `!` is Lex005. */
  function LexExclamation(st: LexState): (r: Result<LexState, LexError>)
    ensures r.Ok? ==> Extends(st, r.value) && |r.value.tokens| == |st.tokens| + 1
    ensures r.Ok? && st.rest != [] ==> |r.value.rest| < |st.rest|
    ensures r.Err? ==> r.error.errorCode in {Lex004, Lex005}
  {
    var st1 := NextChar(st);
    var c :- PeekChar(st1);
    if c == '=' then Ok(NextChar(PushToken(st1, CompareOperator(ComparisonFromStr("!=").value))))
    else Err(Failure(Lex005, st1.row, st1.col, [("operator", "!")]))
  }

  /** The loop of `lex_angle`: every following `=` joins the operator; running out of
      input is Lex004. */
  function AngleEquals(st: LexState, operator: string): (r: Result<(LexState, string), LexError>)
    ensures r.Ok? ==> Reads(st, r.value.0)
    ensures r.Err? ==> r.error.errorCode == Lex004
    decreases |st.rest|
  {
    var c :- PeekChar(st);
    if c == '=' then AngleEquals(NextChar(st), operator + [c]) else Ok((st, operator))
  }

  /** `lex_angle`: only `<`, `<=`, `>` and `>=` are operators; a longer run of `=` is
      Lex005 at the column where the operator began. */
  function LexAngle(st: LexState): (r: Result<LexState, LexError>)
    ensures r.Ok? ==> Extends(st, r.value) && |r.value.tokens| == |st.tokens| + 1
    ensures r.Ok? ==> |r.value.rest| < |st.rest|
    ensures r.Err? ==> r.error.errorCode in {Lex004, Lex005}
  {
    var first :- PeekChar(st);
    var run :- AngleEquals(NextChar(st), [first]);
    var operator := run.1;
    if operator == "<=" || operator == "<" || operator == ">=" || operator == ">" then
      Ok(PushToken(run.0, CompareOperator(ComparisonFromStr(operator).value)))
    else Err(Failure(Lex005, run.0.row, st.col, [("operator", operator)]))
  }

  // ---------------------------------------------------------------- words and numbers

  predicate WordChar(cls: CharClasses, c: char) {
    cls.alphabetic(c) || cls.numeric(c) || c == '_'
  }

  /** The loop of `lex_identifier`: word characters up to the first other character; the
      end of input is Lex004. */
  function WordRun(cls: CharClasses, st: LexState, word: string): (r: Result<(LexState, string), LexError>)
    ensures r.Ok? ==> Reads(st, r.value.0)
    ensures r.Ok? && st.rest != [] && WordChar(cls, st.rest[0]) ==> |r.value.0.rest| < |st.rest|
    ensures r.Err? ==> r.error.errorCode == Lex004
    decreases |st.rest|
  {
    var c :- PeekChar(st);
    if !WordChar(cls, c) then Ok((st, word))
    else WordRun(cls, NextChar(st), word + [c])
  }

  /** The classification of a word in `lex_identifier`: each reserved family's `from_str`
      in the source's order, and any other word an identifier. */
  function WordKind(word: string): (kind: TokenKind)
    ensures Emitted(kind)
  {
    if K.BoolFromStr(word).Some? then BoolLiteral(K.BoolFromStr(word).value)
    else if LogicalFromStr(word).Some? then LogicalOperator(LogicalFromStr(word).value)
    else if K.ControlFromStr(word).Some? then ControlKeyword(K.ControlFromStr(word).value)
    else if K.DeclarationFromStr(word).Some? then DeclarationKeyword(K.DeclarationFromStr(word).value)
    else if K.TypeNameFromStr(word).Some? then TypeName(K.TypeNameFromStr(word).value)
    else if K.FunctionControlFromStr(word).Some? then FunctionControl(K.FunctionControlFromStr(word).value)
    else if K.LoopControlFromStr(word).Some? then LoopControl(K.LoopControlFromStr(word).value)
    else Identifier(word)
  }

  /** `lex_identifier`: the word is pushed at the row where it ends and the column where it
      began. */
  function LexIdentifier(cls: CharClasses, st: LexState): (r: Result<LexState, LexError>)
    ensures r.Ok? ==> Extends(st, r.value) && |r.value.tokens| == |st.tokens| + 1
    ensures r.Ok? && st.rest != [] && cls.alphabetic(st.rest[0]) ==> |r.value.rest| < |st.rest|
    ensures r.Err? ==> r.error.errorCode == Lex004
  {
    var run :- WordRun(cls, st, "");
    Ok(PushTokenAt(run.0, WordKind(run.1), run.0.row, st.col))
  }

  /** The loop of `lex_number`: numeric characters up to the first other one or the end. */
  function DigitRun(cls: CharClasses, st: LexState, digits: string): (r: (LexState, string))
    ensures Reads(st, r.0)
    decreases |st.rest|
  {
    if st.rest != [] && cls.numeric(st.rest[0]) then DigitRun(cls, NextChar(st), digits + [st.rest[0]])
    else (st, digits)
  }

  /** `lex_number`: never fails; the digits stay a string. */
  function LexNumber(cls: CharClasses, st: LexState): (r: LexState)
    ensures Extends(st, r) && |r.tokens| == |st.tokens| + 1
    ensures st.rest != [] && cls.numeric(st.rest[0]) ==> |r.rest| < |st.rest|
  {
    var run := DigitRun(cls, st, "");
    PushTokenAt(run.0, NumberLiteral(run.1), run.0.row, st.col)
  }

  // ---------------------------------------------------------------- the main loop

  /** One round of the loop in `tokenize`, dispatched on the next character. */
  function Step(cls: CharClasses, st: LexState): (r: Result<LexState, LexError>)
    requires st.rest != []
    ensures r.Ok? ==> Extends(st, r.value) && |r.value.tokens| <= |st.tokens| + 1
    ensures r.Ok? ==> |r.value.rest| < |st.rest|
    ensures r.Err? ==> r.error.errorCode in LexicalCodes
  {
    var c := st.rest[0];
    if c == ' ' || c == '\n' || c == '\r' || c == '\t' then Ok(NextChar(st))
    else if Punctuation(c).Some? then Ok(NextChar(PushToken(st, Punctuation(c).value)))
    else if c == '/' then LexSlash(st)
    else if c == '"' then LexString(st)
    else if c == '=' then LexEqual(st)
    else if c == '!' then LexExclamation(st)
    else if c == '<' || c == '>' then LexAngle(st)
    else if cls.alphabetic(c) then LexIdentifier(cls, st)
    else if cls.numeric(c) then Ok(LexNumber(cls, st))
    else Err(Failure(Lex002, st.row, st.col, [("char", [c])]))
  }

  /** The codes a lexical failure carries. */
  const LexicalCodes: set<ErrorCode> := {Lex002, Lex003, Lex004, Lex005}

  /** `tokenize`: rounds of `Step` until the input is exhausted, then the end marker at the
      final location. Every failure is one of the lexical codes, with its location. */
  function Tokenize(cls: CharClasses, st: LexState): (r: Result<seq<Token>, LexError>)
    ensures r.Err? ==> r.error.errorCode in LexicalCodes
    ensures r.Ok? ==> |r.value| > |st.tokens| && r.value[..|st.tokens|] == st.tokens
    ensures r.Ok? ==> r.value[|r.value| - 1].kind == EOF
    ensures r.Ok? ==> forall i :: |st.tokens| <= i < |r.value| - 1 ==> Emitted(r.value[i].kind)
    decreases |st.rest|, 1
  {
    if st.rest == [] then Ok(PushToken(st, EOF).tokens)
    else
      var st1 :- Step(cls, st);
      TokenizeFrom(cls, st, st1)
  }

  /** The rounds of `tokenize` after the one that led from `st` to `st1`. */
  function TokenizeFrom(cls: CharClasses, st: LexState, st1: LexState): (r: Result<seq<Token>, LexError>)
    requires Extends(st, st1) && |st1.rest| < |st.rest|
    ensures r.Err? ==> r.error.errorCode in LexicalCodes
    ensures r.Ok? ==> |r.value| > |st.tokens| && r.value[..|st.tokens|] == st.tokens
    ensures r.Ok? ==> r.value[|r.value| - 1].kind == EOF
    ensures r.Ok? ==> forall i :: |st.tokens| <= i < |r.value| - 1 ==> Emitted(r.value[i].kind)
    decreases |st.rest|, 0
  {
    var r := Tokenize(cls, st1);
    if r.Ok? then ExtendTokens(st.tokens, st1.tokens, r.value); r else r
  }

  /** One round of `tokenize` unfolded. */
  lemma TokenizeStep(cls: CharClasses, st: LexState)
    requires st.rest != []
    ensures Step(cls, st).Ok? ==> Tokenize(cls, st) == Tokenize(cls, Step(cls, st).value)
    ensures Step(cls, st).Err? ==> Tokenize(cls, st) == Err(Step(cls, st).error)
  {
  }

  /** An extension followed by an extension that ends with one more token is one. */
  lemma ExtendTokens(a: seq<Token>, b: seq<Token>, c: seq<Token>)
    requires |a| <= |b| && b[..|a|] == a && forall i :: |a| <= i < |b| ==> Emitted(b[i].kind)
    requires |c| > |b| && c[..|b|] == b && forall i :: |b| <= i < |c| - 1 ==> Emitted(c[i].kind)
    ensures c[..|a|] == a && forall i :: |a| <= i < |c| - 1 ==> Emitted(c[i].kind)
  {
    forall i | 0 <= i < |b|
      ensures c[i] == b[i]
    {
      assert c[i] == c[..|b|][i];
    }
  }

  /** `lex`. */
  function Lex(cls: CharClasses, text: string): Result<seq<Token>, LexError> {
    Tokenize(cls, Start(text))
  }
}
