/** The early `tokenize` of src/lexical_analyzer.rs as the loop it is: `chars` is what the
    peekable iterator has not yet produced, `tokens` the vector it pushes to. The body of
    the outer loop is `Round`, and each arm of its `match` that loops is a method of its
    own; every one is proved to do exactly what the function of the same arm in
    `EarlyLexing` describes. */
module EarlyLexer {
  import opened Wrappers
  import opened Decimal
  import L = Lexing
  import E = EarlyLexing
  import P = EarlyLexingProperties

  type Outcome = Result<(seq<char>, seq<E.Token>), E.Error>

  /** `tokenize`. */
  method Tokenize(cls: L.CharClasses, text: string) returns (r: Result<seq<E.Token>, E.Error>)
    ensures r == E.Tokenize(cls, text)
  {
    if text == [] {
      return Err("Input text is empty");
    }
    var tokens: seq<E.Token> := [];
    var chars := text;
    while chars != []
      invariant E.Scan(cls, E.ConsumesNext, chars, tokens) == E.Tokenize(cls, text)
      decreases |chars|
    {
      var round :- Round(cls, chars);
      P.ScanStep(cls, E.ConsumesNext, chars, tokens);
      tokens := tokens + round.1;
      chars := round.0;
    }
    tokens := tokens + [E.EOF];
    return Ok(tokens);
  }

  /** One round of the outer `while let`: the `match` on the peeked character. */
  method Round(cls: L.CharClasses, chars: seq<char>) returns (r: Outcome)
    requires chars != []
    ensures r == E.Step(cls, E.ConsumesNext, chars)
  {
    var c := chars[0];
    if c == ' ' || c == '\n' || c == '\r' {
      return Ok((chars[1..], []));
    } else if c == '(' {
      return Ok((chars[1..], [E.LParen]));
    } else if c == ')' {
      return Ok((chars[1..], [E.RParen]));
    } else if c == ';' {
      return Ok((chars[1..], [E.Semicolon]));
    } else if c == '"' {
      r := LexString(chars[1..]);
    } else if c == '+' {
      return Ok((chars[1..], [E.AddAndSubOperator("+")]));
    } else if c == '-' {
      return Ok((chars[1..], [E.AddAndSubOperator("-")]));
    } else if c == '*' {
      return Ok((chars[1..], [E.MulAndDivOperator("*")]));
    } else if c == '/' {
      r := LexSlash(chars[1..]);
    } else if c == '=' {
      var rest := chars[1..];
      if rest != [] && rest[0] == '=' {
        return Ok((rest[1..], [E.CompareOperator("==")]));
      }
      return Err("");
    } else if c == '!' {
      var rest := chars[1..];
      if rest != [] && rest[0] == '=' {
        return Ok((rest[1..], [E.CompareOperator("!=")]));
      }
      return Err("");
    } else if cls.alphabetic(c) {
      r := LexWord(cls, chars);
    } else if cls.numeric(c) {
      r := LexNumber(cls, chars);
    } else {
      return Err("Unexpected character: " + [c]);
    }
  }

  /** The `"` arm, after the opening quote. */
  method LexString(chars: seq<char>) returns (r: Outcome)
    ensures r == E.StringLiteral(chars)
  {
    var rest := chars;
    var literal := "";
    while rest != [] && rest[0] != '"'
      invariant E.StringRun(chars, "") == E.StringRun(rest, literal)
      decreases |rest|
    {
      literal := literal + [rest[0]];
      rest := rest[1..];
    }
    // Skipping the closing quote fails when there is none.
    if rest == [] {
      return Err("Unclosed string literal");
    }
    return Ok((rest[1..], [E.Str(literal)]));
  }

  /** The `/` arm, after the slash. */
  method LexSlash(chars: seq<char>) returns (r: Outcome)
    ensures r == E.Slash(E.ConsumesNext, chars)
  {
    if chars == [] {
      return Err("Unexpected end of input");
    }
    var rest := chars[1..];
    if chars[0] == '/' {
      if rest != [] && rest[0] == '/' {
        rest := rest[1..];
        ghost var start := rest;
        // The doc text is collected and then dropped, as in the source.
        var docComment := "";
        while rest != []
          invariant E.SkipLine(start) == E.SkipLine(rest)
          decreases |rest|
        {
          var d := rest[0];
          rest := rest[1..];
          if d == '\n' {
            break;
          } else if d != '\r' {
            docComment := docComment + [d];
          }
        }
        assert E.SkipLine(start) == rest;
      } else {
        ghost var start := rest;
        while rest != []
          invariant E.SkipLine(start) == E.SkipLine(rest)
          decreases |rest|
        {
          var d := rest[0];
          rest := rest[1..];
          if d == '\n' {
            break;
          }
        }
        assert E.SkipLine(start) == rest;
      }
      return Ok((rest, []));
    } else if chars[0] == '*' {
      ghost var start := rest;
      while rest != []
        invariant E.BlockSkip(start) == E.BlockSkip(rest)
        decreases |rest|
      {
        var d := rest[0];
        rest := rest[1..];
        if d == '*' && rest != [] && rest[0] == '/' {
          rest := rest[1..];
          break;
        }
      }
      assert E.BlockSkip(start) == rest;
      return Ok((rest, []));
    }
    // The operator is pushed and one more character is taken, as written.
    return Ok((rest, [E.MulAndDivOperator("/")]));
  }

  /** The alphabetic arm. */
  method LexWord(cls: L.CharClasses, chars: seq<char>) returns (r: Outcome)
    requires chars != [] && cls.alphabetic(chars[0])
    ensures r == E.Word(cls, chars)
  {
    var rest := chars;
    var word := "";
    while rest != [] && cls.alphabetic(rest[0])
      invariant E.AlphaRun(cls, chars, "") == E.AlphaRun(cls, rest, word)
      decreases |rest|
    {
      word := word + [rest[0]];
      rest := rest[1..];
    }
    if word == "print" {
      return Ok((rest, [E.Print]));
    } else if word == "true" {
      return Ok((rest, [E.Bool(true)]));
    } else if word == "false" {
      return Ok((rest, [E.Bool(false)]));
    }
    return Err("Unknown function: " + word);
  }

  /** The numeric arm, with its `is_float` flag. */
  method LexNumber(cls: L.CharClasses, chars: seq<char>) returns (r: Outcome)
    requires chars != [] && cls.numeric(chars[0])
    ensures r == E.Number(cls, chars)
  {
    var rest := chars;
    var numberString := "";
    var isFloat := false;
    while rest != [] && (cls.numeric(rest[0]) || rest[0] == '.')
      invariant E.NumberRun(cls, chars, false, "") == E.NumberRun(cls, rest, isFloat, numberString)
      decreases |rest|
    {
      if !cls.numeric(rest[0]) {
        if isFloat {
          return Err("Unexpected '.' in number");
        }
        isFloat := true;
      }
      numberString := numberString + [rest[0]];
      rest := rest[1..];
    }
    if isFloat {
      if E.FloatSyntax(numberString) {
        return Ok((rest, [E.Float(numberString)]));
      }
      return Err("Invalid float number: " + numberString);
    }
    var value := ParseI32(numberString);
    if value.Some? {
      return Ok((rest, [E.Int(value.value)]));
    }
    return Err("Invalid integer number: " + numberString);
  }
}
