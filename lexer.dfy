/** The `Lexer` struct of src/lexer/lexical_analyzer.rs: a cursor over the characters, the
    token list it appends to and the current row and column, all updated in place. Each
    method runs the source's loop and is proved to end in the state, or with the error,
    that the matching function of module `Lexing` describes. */
module Lexers {
  import opened Wrappers
  import opened Tokens
  import opened ErrorCodes
  import L = Lexing

  class Lexer {
    var chars: seq<char>
    var tokens: seq<Token>
    var row: nat
    var col: nat
    const cls: L.CharClasses

    function State(): L.LexState
      reads this
    {
      L.LexState(chars, tokens, row, col)
    }

    /** The state after a helper that succeeded, or its error. */
    function Settled(r: Result<(), L.LexError>): Result<L.LexState, L.LexError>
      reads this
    {
      if r.Ok? then Ok(State()) else Err(r.error)
    }

    /** `Lexer::new`. */
    constructor (text: string, cls: L.CharClasses)
      ensures State() == L.Start(text) && this.cls == cls
    {
      chars := text;
      tokens := [];
      row := 1;
      col := 1;
      this.cls := cls;
    }

    /** `next_char`. */
    method NextChar()
      modifies this
      ensures State() == L.NextChar(old(State()))
    {
      if chars != [] && chars[0] == '\n' {
        chars := chars[1..];
        row := row + 1;
        col := 1;
      } else {
        if chars != [] {
          chars := chars[1..];
        }
        col := col + 1;
      }
    }

    /** `peek_char`. */
    method PeekChar() returns (r: Result<char, L.LexError>)
      ensures r == L.PeekChar(State())
      ensures r.Ok? <==> chars != []
    {
      if chars == [] {
        return Err(L.Failure(Lex004, row, col, []));
      }
      return Ok(chars[0]);
    }

    /** `push_token`. */
    method PushToken(kind: TokenKind)
      modifies this
      ensures State() == L.PushToken(old(State()), kind)
    {
      tokens := tokens + [Token(kind, row, col)];
    }

    /** `push_token_with_location`. */
    method PushTokenWithLocation(kind: TokenKind, row: nat, col: nat)
      modifies this
      ensures State() == L.PushTokenAt(old(State()), kind, row, col)
    {
      tokens := tokens + [Token(kind, row, col)];
    }

    /** `lex_string`. */
    method LexString() returns (r: Result<(), L.LexError>)
      modifies this
      ensures Settled(r) == L.LexString(old(State()))
    {
      ghost var st0 := State();
      NextChar();
      ghost var st1 := State();
      var text := "";
      while chars != []
        invariant L.StringBody(st1, "") == L.StringBody(State(), text)
        decreases |chars|
      {
        var c := chars[0];
        if c == '"' || c == '\n' || c == '\r' {
          break;
        }
        text := text + [c];
        NextChar();
      }
      assert L.StringBody(st1, "") == (State(), text);
      var c :- PeekChar();
      if c != '"' {
        return Err(L.Failure(Lex003, row, col, []));
      }
      NextChar();
      PushToken(StringLiteral(text));
      return Ok(());
    }

    /** The `//` branch of `lex_slash`, after both slashes: a `///` doc comment or a plain
        comment, neither of which is pushed. */
    method LineComment()
      modifies this
      ensures State() == L.LineComment(old(State()))
    {
      ghost var st0 := State();
      if chars != [] && chars[0] == '/' {
        NextChar();
        ghost var st1 := State();
        var docComment := "";
        while chars != []
          invariant L.DocLine(st1, "") == L.DocLine(State(), docComment)
          decreases |chars|
        {
          var c := chars[0];
          NextChar();
          if c == '\n' {
            break;
          } else if c != '\r' {
            docComment := docComment + [c];
          }
        }
        assert L.DocLine(st1, "").0 == State();
      } else {
        while chars != []
          invariant L.SkipLine(st0) == L.SkipLine(State())
          decreases |chars|
        {
          var c := chars[0];
          NextChar();
          if c == '\n' {
            break;
          }
        }
      }
    }

    /** The block-comment branch of `lex_slash`, after the opening slash and star. */
    method BlockComment() returns (r: Result<(), L.LexError>)
      modifies this
      ensures Settled(r) == L.BlockComment(old(State()))
    {
      ghost var st0 := State();
      while true
        invariant L.BlockComment(st0) == L.BlockComment(State())
        decreases |chars|
      {
        var c :- PeekChar();
        NextChar();
        if c == '*' {
          var d :- PeekChar();
          if d == '/' {
            NextChar();
            break;
          }
        }
      }
      return Ok(());
    }

    /** `lex_slash`. */
    method LexSlash() returns (r: Result<(), L.LexError>)
      modifies this
      ensures Settled(r) == L.LexSlash(old(State()))
    {
      ghost var st0 := State();
      var startRow, startCol := row, col;
      NextChar();
      var c :- PeekChar();
      var kind: TokenKind;
      if c == '/' {
        NextChar();
        LineComment();
        kind := Comment;
      } else if c == '*' {
        NextChar();
        var closed :- BlockComment();
        kind := Comment;
      } else {
        kind := ArithmeticOperator(ArithmeticFromStr("/").value);
      }
      // Comments are not pushed; the operator keeps the location of the slash.
      if kind.ArithmeticOperator? {
        PushTokenWithLocation(kind, startRow, startCol);
      }
      return Ok(());
    }

    /** `lex_equal`. */
    method LexEqual() returns (r: Result<(), L.LexError>)
      modifies this
      ensures Settled(r) == L.LexEqual(old(State()))
    {
      NextChar();
      var c :- PeekChar();
      var operator := if c == '=' then "==" else "=";
      if operator == "==" {
        PushToken(CompareOperator(ComparisonFromStr(operator).value));
        NextChar();
      } else {
        PushToken(Equal);
      }
      return Ok(());
    }

    /** `lex_exclamation`. */
    method LexExclamation() returns (r: Result<(), L.LexError>)
      modifies this
      ensures Settled(r) == L.LexExclamation(old(State()))
    {
      NextChar();
      var c :- PeekChar();
      var operator := if c == '=' then "!=" else "!";
      if operator == "!=" {
        PushToken(CompareOperator(ComparisonFromStr(operator).value));
        NextChar();
      } else {
        return Err(L.Failure(Lex005, row, col, [("operator", operator)]));
      }
      return Ok(());
    }

    /** `lex_angle`. */
    method LexAngle() returns (r: Result<(), L.LexError>)
      modifies this
      ensures Settled(r) == L.LexAngle(old(State()))
    {
      ghost var st0 := State();
      var startCol := col;
      var first :- PeekChar();
      var operator := [first];
      NextChar();
      ghost var st1 := State();
      while true
        invariant L.AngleEquals(st1, [first]) == L.AngleEquals(State(), operator)
        decreases |chars|
      {
        var c :- PeekChar();
        if c == '=' {
          operator := operator + [c];
          NextChar();
        } else {
          break;
        }
      }
      assert L.AngleEquals(st1, [first]) == Ok((State(), operator));
      if operator == "<=" || operator == "<" || operator == ">=" || operator == ">" {
        PushToken(CompareOperator(ComparisonFromStr(operator).value));
      } else {
        return Err(L.Failure(Lex005, row, startCol, [("operator", operator)]));
      }
      return Ok(());
    }

    /** `lex_identifier`. */
    method LexIdentifier() returns (r: Result<(), L.LexError>)
      modifies this
      ensures Settled(r) == L.LexIdentifier(cls, old(State()))
    {
      ghost var st0 := State();
      var startCol := col;
      var word := "";
      while true
        invariant L.WordRun(cls, st0, "") == L.WordRun(cls, State(), word)
        decreases |chars|
      {
        var c :- PeekChar();
        if !cls.alphabetic(c) && !cls.numeric(c) && c != '_' {
          break;
        }
        word := word + [c];
        NextChar();
      }
      assert L.WordRun(cls, st0, "") == Ok((State(), word));
      PushTokenWithLocation(L.WordKind(word), row, startCol);
      return Ok(());
    }

    /** `lex_number`: its result is always `Ok`, so it is left out. The loop stops at the
        end of input or at the first character that is not numeric. */
    method LexNumber()
      modifies this
      ensures State() == L.LexNumber(cls, old(State()))
    {
      ghost var st0 := State();
      var startCol := col;
      var numberString := "";
      while chars != [] && cls.numeric(chars[0])
        invariant L.DigitRun(cls, st0, "") == L.DigitRun(cls, State(), numberString)
        decreases |chars|
      {
        numberString := numberString + [chars[0]];
        NextChar();
      }
      PushTokenWithLocation(NumberLiteral(numberString), row, startCol);
    }

    /** `tokenize`. */
    method Tokenize() returns (r: Result<seq<Token>, L.LexError>)
      modifies this
      ensures r == L.Tokenize(cls, old(State()))
    {
      ghost var st0 := State();
      while chars != []
        invariant L.Tokenize(cls, st0) == L.Tokenize(cls, State())
        decreases |chars|
      {
        ghost var before := State();
        L.TokenizeStep(cls, before);
        var c := chars[0];
        if c == ' ' || c == '\n' || c == '\r' || c == '\t' {
          NextChar();
        } else if L.Punctuation(c).Some? {
          PushToken(L.Punctuation(c).value);
          NextChar();
        } else if c == '/' {
          var done :- LexSlash();
        } else if c == '"' {
          var done :- LexString();
        } else if c == '=' {
          var done :- LexEqual();
        } else if c == '!' {
          var done :- LexExclamation();
        } else if c == '<' || c == '>' {
          var done :- LexAngle();
        } else if cls.alphabetic(c) {
          var done :- LexIdentifier();
        } else if cls.numeric(c) {
          LexNumber();
        } else {
          return Err(L.Failure(Lex002, row, col, [("char", [c])]));
        }
        assert L.Step(cls, before) == Ok(State());
      }
      PushToken(EOF);
      return Ok(tokens);
    }
  }

  /** `lex`. */
  method Lex(cls: L.CharClasses, text: string) returns (r: Result<seq<Token>, L.LexError>)
    ensures r == L.Lex(cls, text)
  {
    var lexer := new Lexer(text, cls);
    r := lexer.Tokenize();
  }
}
