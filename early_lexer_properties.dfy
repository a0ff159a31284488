/** What the early `tokenize` of src/lexical_analyzer.rs guarantees: each arm of its
    `match`, stated on the characters it reads, and the shape of a successful result. */
module EarlyLexingProperties {
  import opened Wrappers
  import opened Decimal
  import L = Lexing
  import LP = LexingProperties
  import opened EarlyLexing

  // ---------------------------------------------------------------- runs

  /** The number of characters before the first `c`, or the length when there is none. */
  function Before(s: seq<char>, c: char): (n: nat)
    ensures n <= |s|
  {
    if s == [] || s[0] == c then 0 else 1 + Before(s[1..], c)
  }

  lemma {:induction false} BeforeSpec(s: seq<char>, c: char)
    ensures forall j :: 0 <= j < Before(s, c) ==> s[j] != c
    ensures Before(s, c) < |s| ==> s[Before(s, c)] == c
  {
    if s != [] && s[0] != c {
      BeforeSpec(s[1..], c);
    }
  }

  /** The string loop reads everything before the next quote and stops at it. */
  lemma {:induction false} StringRunSpec(s: seq<char>, text: string)
    ensures StringRun(s, text) == (s[Before(s, '"')..], text + s[..Before(s, '"')])
  {
    if s == [] || s[0] == '"' {
      assert text + s[..0] == text;
    } else {
      var n := Before(s, '"');
      StringRunSpec(s[1..], text + [s[0]]);
      assert Before(s[1..], '"') == n - 1;
      assert s[1..][..n - 1] == s[1..n];
      assert text + [s[0]] + s[1..n] == text + s[..n];
      assert s[1..][n - 1..] == s[n..];
    }
  }

  /** A line comment ends just after the first newline, or at the end of input. */
  lemma {:induction false} SkipLineSpec(s: seq<char>)
    ensures SkipLine(s) == if Before(s, '\n') < |s| then s[Before(s, '\n') + 1..] else []
  {
    if s != [] && s[0] != '\n' {
      SkipLineSpec(s[1..]);
      assert Before(s[1..], '\n') + 1 == Before(s, '\n');
      if Before(s, '\n') < |s| {
        assert s[1..][Before(s[1..], '\n') + 1..] == s[Before(s, '\n') + 1..];
      }
    }
  }

  /** A block comment ends just after the first `*` `/`; an unclosed one silently takes
      the rest of the input. */
  lemma {:induction false} BlockSkipSpec(s: seq<char>)
    ensures BlockSkip(s) == if LP.FirstClose(s) < |s| then s[LP.FirstClose(s) + 2..] else []
  {
    if |s| >= 2 && !(s[0] == '*' && s[1] == '/') {
      BlockSkipSpec(s[1..]);
      assert LP.FirstClose(s[1..]) + 1 == LP.FirstClose(s);
      if LP.FirstClose(s) < |s| {
        assert s[1..][LP.FirstClose(s[1..]) + 2..] == s[LP.FirstClose(s) + 2..];
      }
    } else if |s| == 1 {
      assert BlockSkip(s) == BlockSkip(s[1..]);
    }
  }

  /** The length of the run of alphabetic characters at the front of `s`. */
  function AlphaLength(cls: L.CharClasses, s: seq<char>): (n: nat)
    ensures n <= |s|
  {
    if s == [] || !cls.alphabetic(s[0]) then 0 else 1 + AlphaLength(cls, s[1..])
  }

  lemma {:induction false} AlphaLengthSpec(cls: L.CharClasses, s: seq<char>)
    ensures forall j :: 0 <= j < AlphaLength(cls, s) ==> cls.alphabetic(s[j])
    ensures AlphaLength(cls, s) < |s| ==> !cls.alphabetic(s[AlphaLength(cls, s)])
  {
    if s != [] && cls.alphabetic(s[0]) {
      AlphaLengthSpec(cls, s[1..]);
    }
  }

  lemma {:induction false} AlphaRunSpec(cls: L.CharClasses, s: seq<char>, word: string)
    ensures var n := AlphaLength(cls, s);
      AlphaRun(cls, s, word) == (s[n..], word + s[..n])
  {
    if s == [] || !cls.alphabetic(s[0]) {
      assert word + s[..0] == word;
    } else {
      var n := AlphaLength(cls, s);
      AlphaRunSpec(cls, s[1..], word + [s[0]]);
      assert s[1..][..n - 1] == s[1..n];
      assert word + [s[0]] + s[1..n] == word + s[..n];
      assert s[1..][n - 1..] == s[n..];
    }
  }

  /** A `.` the number loop treats as the decimal point (it is checked after `is_numeric`). */
  predicate IsPoint(cls: L.CharClasses, c: char) {
    !cls.numeric(c) && c == '.'
  }

  /** The length of the run of numeric characters and points at the front of `s`. */
  function NumeralLength(cls: L.CharClasses, s: seq<char>): (n: nat)
    ensures n <= |s|
  {
    if s == [] || !(cls.numeric(s[0]) || s[0] == '.') then 0 else 1 + NumeralLength(cls, s[1..])
  }

  /** The number of points in `s`. */
  function Points(cls: L.CharClasses, s: seq<char>): nat {
    if s == [] then 0 else (if IsPoint(cls, s[0]) then 1 else 0) + Points(cls, s[1..])
  }

  lemma {:induction false} NumeralLengthSpec(cls: L.CharClasses, s: seq<char>)
    ensures forall j :: 0 <= j < NumeralLength(cls, s) ==> cls.numeric(s[j]) || s[j] == '.'
    ensures NumeralLength(cls, s) < |s| ==>
      !cls.numeric(s[NumeralLength(cls, s)]) && s[NumeralLength(cls, s)] != '.'
  {
    if s != [] && (cls.numeric(s[0]) || s[0] == '.') {
      NumeralLengthSpec(cls, s[1..]);
    }
  }

  /** The number loop reads the whole run of numeric characters and points, unless the
      run holds a second point, which is an error. */
  lemma {:induction false} NumberRunSpec(cls: L.CharClasses, s: seq<char>, isFloat: bool, text: string)
    ensures var n := NumeralLength(cls, s);
      var d := Points(cls, s[..n]);
      NumberRun(cls, s, isFloat, text) ==
        if (if isFloat then 1 else 0) + d >= 2 then Err("Unexpected '.' in number")
        else Ok((s[n..], isFloat || d > 0, text + s[..n]))
  {
    var n := NumeralLength(cls, s);
    if n == 0 {
      assert s[..0] == [];
      assert text + s[..0] == text;
    } else {
      var c := s[0];
      var isFloat1 := isFloat || IsPoint(cls, c);
      NumberRunSpec(cls, s[1..], isFloat1, text + [c]);
      assert NumeralLength(cls, s[1..]) == n - 1;
      assert s[1..][..n - 1] == s[..n][1..];
      assert Points(cls, s[..n]) == (if IsPoint(cls, c) then 1 else 0) + Points(cls, s[1..][..n - 1]);
      assert s[1..][n - 1..] == s[n..];
      assert text + [c] + s[1..n] == text + s[..n];
      assert s[1..][..n - 1] == s[1..n];
    }
  }

  /** For a run of ASCII digits, `parse::<i32>` is its decimal value when that fits. */
  lemma I32Numeral(text: string)
    requires text != [] && AllDigits(text)
    ensures ParseI32(text) == if DigitsValue(text) <= I32Max then Some(DigitsValue(text)) else None
  {
    assert IsDigit(text[0]);
  }

  // ---------------------------------------------------------------- the arms

  /** Empty input is refused before anything is read. */
  lemma EmptyInputRejected(cls: L.CharClasses)
    ensures Tokenize(cls, "") == Err("Input text is empty")
  {
  }

  /** On success the list ends with exactly one EOF; no doc comment is ever pushed. */
  lemma EndsWithSingleEof(cls: L.CharClasses, text: string)
    ensures Tokenize(cls, text).Ok? ==>
      var r := Tokenize(cls, text).value;
      |r| >= 1 && r[|r| - 1] == EOF
      && forall i :: 0 <= i < |r| - 1 ==> r[i] != EOF && !r[i].DocComment?
  {
  }

  /** Blanks and all three comment forms push nothing; `//` and `///` read through the
      first newline and a block comment through the first `*` `/` (or to the end). */
  lemma CommentsEmitNothing(cls: L.CharClasses, division: Division, s: seq<char>)
    requires s != []
    ensures s[0] in {' ', '\n', '\r'} ==> Step(cls, division, s) == Ok((s[1..], []))
    ensures |s| >= 2 && s[0] == '/' && s[1] == '/' ==>
      Step(cls, division, s) == Ok((SkipLine(s[2..]), []))
    ensures |s| >= 2 && s[0] == '/' && s[1] == '*' ==>
      Step(cls, division, s) == Ok((BlockSkip(s[2..]), []))
  {
    if |s| >= 3 && s[0] == '/' && s[1] == '/' && s[2] == '/' {
      assert s[1..][1..] == s[2..];
      assert SkipLine(s[2..]) == SkipLine(s[3..]);
    }
  }

  /** A string takes every character up to the next quote, line breaks included; with no
      closing quote it is an error. */
  lemma StringSpec(cls: L.CharClasses, division: Division, s: seq<char>)
    requires s != [] && s[0] == '"'
    ensures var n := Before(s[1..], '"');
      && (Step(cls, division, s).Ok? <==> n + 1 < |s|)
      && (n + 1 < |s| ==> Step(cls, division, s) == Ok((s[n + 2..], [Str(s[1..n + 1])])))
      && (n + 1 == |s| ==> Step(cls, division, s) == Err("Unclosed string literal"))
  {
    var n := Before(s[1..], '"');
    StringRunSpec(s[1..], "");
    assert "" + s[1..][..n] == s[1..n + 1];
    if n + 1 < |s| {
      assert s[1..][n..][1..] == s[n + 2..];
    }
  }

  /** `=` and `!` must be followed by `=`; otherwise the error message is empty. */
  lemma EqualitySpec(cls: L.CharClasses, division: Division, s: seq<char>)
    requires s != [] && (s[0] == '=' || s[0] == '!')
    ensures Step(cls, division, s).Ok? <==> |s| > 1 && s[1] == '='
    ensures Step(cls, division, s).Err? ==> Step(cls, division, s) == Err("")
    ensures |s| > 1 && s[1] == '=' ==>
      Step(cls, division, s) == Ok((s[2..], [CompareOperator(if s[0] == '=' then "==" else "!=")]))
  {
  }

  /** A word is the longest alphabetic run; only `print`, `true` and `false` are words
      this lexer knows, any other is an error naming it. */
  lemma WordSpec(cls: L.CharClasses, division: Division, s: seq<char>)
    requires s != [] && s[0] !in Punctuation && cls.alphabetic(s[0])
    ensures var n := AlphaLength(cls, s);
      var w := s[..n];
      && 0 < n
      && (forall j :: 0 <= j < n ==> cls.alphabetic(s[j]))
      && (n < |s| ==> !cls.alphabetic(s[n]))
      && Step(cls, division, s) ==
        if w == "print" then Ok((s[n..], [Print]))
        else if w == "true" then Ok((s[n..], [Bool(true)]))
        else if w == "false" then Ok((s[n..], [Bool(false)]))
        else Err("Unknown function: " + w)
  {
    AlphaRunSpec(cls, s, "");
    AlphaLengthSpec(cls, s);
    assert "" + s[..AlphaLength(cls, s)] == s[..AlphaLength(cls, s)];
  }

  /** A number is the longest run of numeric characters and points: a second point is an
      error, one point makes a float, none an `i32` (out of range is an error). */
  lemma NumberSpec(cls: L.CharClasses, division: Division, s: seq<char>)
    requires s != [] && s[0] !in Punctuation && !cls.alphabetic(s[0]) && cls.numeric(s[0])
    ensures var n := NumeralLength(cls, s);
      var text := s[..n];
      var d := Points(cls, text);
      && 0 < n
      && (forall j :: 0 <= j < n ==> cls.numeric(s[j]) || s[j] == '.')
      && (n < |s| ==> !cls.numeric(s[n]) && s[n] != '.')
      && Step(cls, division, s) ==
        if d >= 2 then Err("Unexpected '.' in number")
        else if d == 1 then
          if FloatSyntax(text) then Ok((s[n..], [Float(text)])) else Err("Invalid float number: " + text)
        else if ParseI32(text).Some? then Ok((s[n..], [Int(ParseI32(text).value)]))
        else Err("Invalid integer number: " + text)
  {
    NumberRunSpec(cls, s, false, "");
    NumeralLengthSpec(cls, s);
    assert "" + s[..NumeralLength(cls, s)] == s[..NumeralLength(cls, s)];
  }

  /** A run of ASCII digits with no point is an `Int` token exactly when its value fits
      in an `i32`. */
  lemma IntegerSpec(cls: L.CharClasses, division: Division, s: seq<char>)
    requires s != [] && s[0] !in Punctuation && !cls.alphabetic(s[0]) && cls.numeric(s[0])
    requires var n := NumeralLength(cls, s); Points(cls, s[..n]) == 0 && AllDigits(s[..n])
    ensures var text := s[..NumeralLength(cls, s)];
      && (Step(cls, division, s).Ok? <==> DigitsValue(text) <= I32Max)
      && (DigitsValue(text) <= I32Max ==>
          Step(cls, division, s) == Ok((s[NumeralLength(cls, s)..], [Int(DigitsValue(text))])))
  {
    NumberSpec(cls, division, s);
    I32Numeral(s[..NumeralLength(cls, s)]);
  }

  /** A `/` at the very end of the input is an error. */
  lemma SlashAtEnd(cls: L.CharClasses, division: Division)
    ensures Step(cls, division, "/") == Err("Unexpected end of input")
  {
  }

  /** Any character no arm takes is an error naming it (a tab among them). */
  lemma UnknownCharacter(cls: L.CharClasses, division: Division, s: seq<char>)
    requires s != [] && s[0] !in Punctuation && !cls.alphabetic(s[0]) && !cls.numeric(s[0])
    ensures Step(cls, division, s) == Err("Unexpected character: " + [s[0]])
    ensures Scan(cls, division, s, []) == Err("Unexpected character: " + [s[0]])
  {
  }

  /** One round of the outer loop, unfolded. */
  lemma ScanStep(cls: L.CharClasses, division: Division, s: seq<char>, acc: seq<Token>)
    requires s != [] && Step(cls, division, s).Ok?
    ensures var st := Step(cls, division, s).value;
      Scan(cls, division, s, acc) == Scan(cls, division, st.0, acc + st.1)
  {
  }

  // ---------------------------------------------------------------- the division operator

  /** Letters and ASCII digits, enough to spell out one input. */
  const Ascii: L.CharClasses :=
    L.CharClasses(c => 'a' <= c <= 'z' || 'A' <= c <= 'Z', c => '0' <= c <= '9')

  /** As written, a lone `/` also swallows the character after it. */
  lemma DivisionDropsNextCharacter(cls: L.CharClasses, s: seq<char>)
    requires |s| >= 2 && s[0] == '/' && s[1] != '/' && s[1] != '*'
    ensures Step(cls, ConsumesNext, s) == Ok((s[2..], [MulAndDivOperator("/")]))
  {
    assert s[1..][1..] == s[2..];
  }

  /** So `1/2` loses its divisor. */
  lemma DivisionExample()
    ensures Tokenize(Ascii, "1/2") == Ok([Int(1), MulAndDivOperator("/"), EOF])
  {
    calc {
      Tokenize(Ascii, "1/2");
      Scan(Ascii, ConsumesNext, "1/2", []);
      { ExampleFront(ConsumesNext); }
      Scan(Ascii, ConsumesNext, "/2", [Int(1)]);
      { ExampleDrop([Int(1)]); }
      Ok([Int(1)] + [MulAndDivOperator("/")] + [EOF]);
      { assert [Int(1)] + [MulAndDivOperator("/")] + [EOF] == [Int(1), MulAndDivOperator("/"), EOF]; }
      Ok([Int(1), MulAndDivOperator("/"), EOF]);
    }
  }

  /** The first round on `1/2` gives the token `1`. */
  lemma ExampleFront(division: Division)
    ensures Scan(Ascii, division, "1/2", []) == Scan(Ascii, division, "/2", [Int(1)])
  {
    assert "1/2"[1..] == "/2";
    DigitExample(division, "1/2", "/2");
    ScanStep(Ascii, division, "1/2", []);
    assert [] + [Int(1)] == [Int(1)];
  }

  /** As written, the round on `/2` takes the `2` with the slash. */
  lemma ExampleDrop(acc: seq<Token>)
    ensures Scan(Ascii, ConsumesNext, "/2", acc) == Ok(acc + [MulAndDivOperator("/")] + [EOF])
  {
    DivisionDropsNextCharacter(Ascii, "/2");
    ScanStep(Ascii, ConsumesNext, "/2", acc);
    assert "/2"[2..] == [];
  }

  /** A single digit `s[0]` followed by a character that is not part of a number. */
  lemma DigitExample(division: Division, s: seq<char>, rest: seq<char>)
    requires |s| >= 1 && '0' <= s[0] <= '9' && s[1..] == rest
    requires rest == [] || !('0' <= rest[0] <= '9' || rest[0] == '.')
    ensures Step(Ascii, division, s) == Ok((rest, [Int(s[0] as int - '0' as int)]))
  {
    var text := [s[0]];
    assert Ascii.numeric(s[0]) && !Ascii.alphabetic(s[0]);
    assert NumberRun(Ascii, rest, false, text) == Ok((rest, false, text));
    assert "" + [s[0]] == text;
    assert NumberRun(Ascii, s, false, "") == Ok((rest, false, text));
    assert DigitsValue(text) == s[0] as int - '0' as int by {
      assert text[..0] == [];
    }
    assert ParseI32(text) == Some(s[0] as int - '0' as int);
  }

  /** Intended: a lone `/` consumes only itself, so the text after it is lexed as if the
      division operator had been pushed in its place. */
  lemma DivisionKeepsNextCharacter(cls: L.CharClasses, s: seq<char>, acc: seq<Token>)
    requires |s| >= 2 && s[0] == '/' && s[1] != '/' && s[1] != '*'
    ensures Step(cls, KeepsNext, s) == Ok((s[1..], [MulAndDivOperator("/")]))
    ensures Scan(cls, KeepsNext, s, acc) == Scan(cls, KeepsNext, s[1..], acc + [MulAndDivOperator("/")])
  {
  }

  /** With the intended rule `1/2` keeps both operands. */
  lemma DivisionExampleIntended()
    ensures TokenizeIntended(Ascii, "1/2") == Ok([Int(1), MulAndDivOperator("/"), Int(2), EOF])
  {
    var b := [Int(1)] + [MulAndDivOperator("/")];
    calc {
      TokenizeIntended(Ascii, "1/2");
      Scan(Ascii, KeepsNext, "1/2", []);
      { ExampleFront(KeepsNext); }
      Scan(Ascii, KeepsNext, "/2", [Int(1)]);
      { ExampleKeep([Int(1)]); }
      Scan(Ascii, KeepsNext, "2", b);
      { ExampleBack(b); }
      Ok(b + [Int(2), EOF]);
      { assert b + [Int(2), EOF] == [Int(1), MulAndDivOperator("/"), Int(2), EOF]; }
      Ok([Int(1), MulAndDivOperator("/"), Int(2), EOF]);
    }
  }

  /** With the intended rule the round on `/2` leaves the `2` for the next round. */
  lemma ExampleKeep(acc: seq<Token>)
    ensures Scan(Ascii, KeepsNext, "/2", acc) == Scan(Ascii, KeepsNext, "2", acc + [MulAndDivOperator("/")])
  {
    DivisionKeepsNextCharacter(Ascii, "/2", acc);
    assert "/2"[1..] == "2";
  }

  /** The last round on `1/2`, when the `2` is still there. */
  lemma ExampleBack(acc: seq<Token>)
    ensures Scan(Ascii, KeepsNext, "2", acc) == Ok(acc + [Int(2), EOF])
  {
    assert "2"[1..] == [];
    DigitExample(KeepsNext, "2", []);
    ScanStep(Ascii, KeepsNext, "2", acc);
    assert acc + [Int(2)] + [EOF] == acc + [Int(2), EOF];
  }
}
