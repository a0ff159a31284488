/** What the lexer of src/lexer/lexical_analyzer.rs promises, proved about the functions of
    module `Lexing`: the single end marker, silent comments, position tracking, maximal
    munch for words and numbers, the two-character operators, string literals and the
    characters it refuses. */
module LexingProperties {
  import opened Wrappers
  import opened Tokens
  import K = Keywords
  import O = Operators
  import opened ErrorCodes
  import opened Lexing

  predicate AllEmitted(tokens: seq<Token>) {
    forall i :: 0 <= i < |tokens| ==> Emitted(tokens[i].kind)
  }

  function Last(tokens: seq<Token>): Token
    requires tokens != []
  {
    tokens[|tokens| - 1]
  }

  // ---------------------------------------------------------------- the end marker

  /** On success the token list ends with the end marker, which occurs nowhere else, and
      no comment token ever reaches the list. */
  lemma LexEndsWithSingleEof(cls: CharClasses, text: string)
    ensures var r := Lex(cls, text);
      r.Ok? ==> r.value != [] && Last(r.value).kind == EOF
                && forall i :: 0 <= i < |r.value| - 1 ==>
                     !r.value[i].kind.EOF? && !r.value[i].kind.Comment? && !r.value[i].kind.DocComment?
  {
  }

  // ---------------------------------------------------------------- positions

  /** The location after reading `consumed` from row 1, column 1, applying `next_char`'s
      rule to each character in turn. */
  function Locate(consumed: seq<char>): (nat, nat)
    decreases |consumed|
  {
    if consumed == [] then (1, 1)
    else
      var before := Locate(consumed[..|consumed| - 1]);
      if consumed[|consumed| - 1] == '\n' then (before.0 + 1, 1) else (before.0, before.1 + 1)
  }

  function NewlineCount(s: seq<char>): nat {
    if s == [] then 0 else (if s[0] == '\n' then 1 else 0) + NewlineCount(s[1..])
  }

  /** The state has read a prefix of `text` and its location is where that prefix ends. */
  predicate Located(text: string, st: LexState) {
    Suffix(st.rest, text) && (st.row, st.col) == Locate(text[..|text| - |st.rest|])
  }

  /** `next_char` keeps the location honest: reading one more character moves the row and
      column exactly as `Locate` says. */
  lemma NextCharKeepsLocation(text: string, st: LexState)
    requires Located(text, st) && st.rest != []
    ensures Located(text, NextChar(st))
  {
    var n := |text| - |st.rest|;
    var consumed := text[..n + 1];
    assert consumed[..|consumed| - 1] == text[..n];
    assert consumed[|consumed| - 1] == st.rest[0];
  }

  lemma {:induction false} NewlineCountAppend(s: seq<char>, c: char)
    ensures NewlineCount(s + [c]) == NewlineCount(s) + (if c == '\n' then 1 else 0)
    decreases |s|
  {
    if s != [] {
      assert (s + [c])[1..] == s[1..] + [c];
      NewlineCountAppend(s[1..], c);
    }
  }

  /** The row is one more than the number of newlines read; before the first newline the
      column is one more than the number of characters read. */
  lemma {:induction false} LocateCounts(consumed: seq<char>)
    ensures Locate(consumed).0 == 1 + NewlineCount(consumed)
    ensures NewlineCount(consumed) == 0 ==> Locate(consumed).1 == 1 + |consumed|
    decreases |consumed|
  {
    if consumed != [] {
      var init := consumed[..|consumed| - 1];
      assert consumed == init + [consumed[|consumed| - 1]];
      NewlineCountAppend(init, consumed[|consumed| - 1]);
      LocateCounts(init);
    }
  }

  // ---------------------------------------------------------------- comments and blanks

  /** A `//` comment reads through the first newline, or to the end when there is none. */
  lemma {:induction false} SkipLineSpec(st: LexState)
    ensures var k := |st.rest| - |SkipLine(st).rest|;
      (forall j :: 0 <= j < k - 1 ==> st.rest[j] != '\n')
      && ((0 < k && st.rest[k - 1] == '\n') || k == |st.rest|)
    decreases |st.rest|
  {
    if st.rest != [] && st.rest[0] != '\n' {
      SkipLineSpec(NextChar(st));
    }
  }

  /** A `///` doc comment reads exactly what a plain comment reads; its text keeps the
      earlier text and adds no line break. */
  lemma {:induction false} DocLineReadsLikeComment(st: LexState, doc: string)
    ensures DocLine(st, doc).0 == SkipLine(st)
    ensures |DocLine(st, doc).1| >= |doc| && DocLine(st, doc).1[..|doc|] == doc
    ensures forall c <- DocLine(st, doc).1[|doc|..] :: c != '\n' && c != '\r'
    decreases |st.rest|
  {
    if st.rest == [] || st.rest[0] == '\n' {
      assert DocLine(st, doc).1 == doc;
    } else {
      var c := st.rest[0];
      var next := if c == '\r' then doc else doc + [c];
      var st1 := NextChar(st);
      assert DocLine(st, doc) == DocLine(st1, next);
      assert SkipLine(st) == SkipLine(st1);
      DocLineReadsLikeComment(st1, next);
      var t := DocLine(st1, next).1;
      assert t[..|doc|] == t[..|next|][..|doc|];
      assert t[|doc|..] == next[|doc|..] + t[|next|..];
    }
  }

  /** A `*` followed by `/` at position `k`. */
  predicate CloseAt(s: seq<char>, k: int) {
    0 <= k && k + 1 < |s| && s[k] == '*' && s[k + 1] == '/'
  }

  /** The index of the first closing `*` `/`, or the length when there is none. */
  function FirstClose(s: seq<char>): (k: nat)
    ensures k == |s| || k + 1 < |s|
  {
    if |s| < 2 then |s| else if s[0] == '*' && s[1] == '/' then 0 else 1 + FirstClose(s[1..])
  }

  /** `FirstClose` finds the first close, and only a close. */
  lemma {:induction false} FirstCloseSpec(s: seq<char>)
    ensures FirstClose(s) < |s| ==> CloseAt(s, FirstClose(s))
    ensures forall j :: 0 <= j < FirstClose(s) ==> !CloseAt(s, j)
  {
    if |s| >= 2 && !(s[0] == '*' && s[1] == '/') {
      FirstCloseSpec(s[1..]);
      forall j | 0 < j < FirstClose(s)
        ensures !CloseAt(s, j)
      {
        assert !CloseAt(s[1..], j - 1);
      }
    }
  }

  lemma {:induction false} BlockCommentReads(st: LexState)
    ensures BlockComment(st).Ok? <==> FirstClose(st.rest) < |st.rest|
    ensures BlockComment(st).Ok? ==> BlockComment(st).value.rest == st.rest[FirstClose(st.rest) + 2..]
    decreases |st.rest|
  {
    if |st.rest| < 2 {
      if st.rest != [] {
        assert BlockComment(st) == BlockComment(NextChar(st));
      }
    } else if st.rest[0] == '*' && st.rest[1] == '/' {
      assert BlockComment(st) == Ok(NextChar(NextChar(st)));
    } else {
      var st1 := NextChar(st);
      assert BlockComment(st) == BlockComment(st1);
      BlockCommentReads(st1);
      assert FirstClose(st1.rest) + 1 == FirstClose(st.rest);
      if BlockComment(st1).Ok? {
        assert st1.rest[FirstClose(st1.rest) + 2..] == st.rest[FirstClose(st.rest) + 2..];
      }
    }
  }

  /** A block comment succeeds exactly when a closing `*` `/` follows; it then reads
      through the first one. Otherwise it is Lex004. */
  lemma BlockCommentSpec(st: LexState)
    ensures BlockComment(st).Ok? <==> exists k :: CloseAt(st.rest, k)
    ensures BlockComment(st).Ok? ==>
      var k := |st.rest| - |BlockComment(st).value.rest| - 2;
      CloseAt(st.rest, k) && forall j :: 0 <= j < k ==> !CloseAt(st.rest, j)
    ensures BlockComment(st).Err? ==> BlockComment(st).error.errorCode == Lex004
  {
    BlockCommentReads(st);
    FirstCloseSpec(st.rest);
    if exists k :: CloseAt(st.rest, k) {
      var k :| CloseAt(st.rest, k);
      assert FirstClose(st.rest) < |st.rest|;
    }
  }

  /** Blanks, `//` and `///` comments and block comments push no token. */
  lemma CommentsEmitNothing(cls: CharClasses, st: LexState)
    requires st.rest != []
    requires st.rest[0] in {' ', '\n', '\r', '\t'}
             || (|st.rest| >= 2 && st.rest[0] == '/' && (st.rest[1] == '/' || st.rest[1] == '*'))
    ensures Step(cls, st).Ok? ==> Step(cls, st).value.tokens == st.tokens
    ensures st.rest[0] in {' ', '\n', '\r', '\t'} ==> Step(cls, st) == Ok(NextChar(st))
    ensures |st.rest| >= 2 && st.rest[0] == '/' && st.rest[1] == '/' ==> Step(cls, st).Ok?
  {
    if st.rest[0] == '/' && st.rest[1] == '/' {
      var st2 := NextChar(NextChar(st));
      if st2.rest != [] && st2.rest[0] == '/' {
        DocLineReadsLikeComment(NextChar(st2), "");
      }
    }
  }

  // ---------------------------------------------------------------- words

  /** The word spellings `lex_identifier` reserves. */
  const Reserved: set<string> :=
    {"true", "false", "or", "and", "xor", "not", "if", "else", "for", "while", "match",
     "let", "function", "int", "float", "bool", "string", "return", "break", "continue"}

  /** Exactly the reserved spellings become keyword, boolean or logical tokens, and every
      word token prints back as the word it was read from. */
  lemma WordKindSpec(word: string)
    ensures WordKind(word).Identifier? <==> word !in Reserved
    ensures TokenToString(WordKind(word)) == word
  {
    var kind := WordKind(word);
    match kind
    case BoolLiteral(b) => K.BoolRoundTrip(word, b);
    case LogicalOperator(l) => OperatorFromStrRoundTrip(word, Plus, O.Equal, l);
    case ControlKeyword(k) => K.ControlRoundTrip(word, k);
    case DeclarationKeyword(k) => K.DeclarationRoundTrip(word, k);
    case TypeName(k) => K.TypeNameRoundTrip(word, k);
    case FunctionControl(k) => K.FunctionControlRoundTrip(word, k);
    case LoopControl(k) => K.LoopControlRoundTrip(word, k);
    case _ =>
  }

  /** The number of word characters at the front of `s`. */
  function WordLength(cls: CharClasses, s: seq<char>): (n: nat)
    ensures n <= |s|
  {
    if s == [] || !WordChar(cls, s[0]) then 0 else 1 + WordLength(cls, s[1..])
  }

  /** `WordLength` is the longest run: every character before it is a word character and
      the one at it, if any, is not. */
  lemma {:induction false} WordLengthSpec(cls: CharClasses, s: seq<char>)
    ensures forall j :: 0 <= j < WordLength(cls, s) ==> WordChar(cls, s[j])
    ensures WordLength(cls, s) < |s| ==> !WordChar(cls, s[WordLength(cls, s)])
  {
    if s != [] && WordChar(cls, s[0]) {
      WordLengthSpec(cls, s[1..]);
    }
  }

  lemma {:induction false} WordRunSpec(cls: CharClasses, st: LexState, word: string)
    ensures WordRun(cls, st, word).Ok? <==> WordLength(cls, st.rest) < |st.rest|
    ensures WordRun(cls, st, word).Ok? ==>
      var n := WordLength(cls, st.rest);
      WordRun(cls, st, word).value.1 == word + st.rest[..n]
      && WordRun(cls, st, word).value.0.rest == st.rest[n..]
    decreases |st.rest|
  {
    if st.rest == [] {
    } else if !WordChar(cls, st.rest[0]) {
      assert WordRun(cls, st, word) == Ok((st, word));
      assert WordLength(cls, st.rest) == 0;
      assert word + st.rest[..0] == word;
    } else {
      var st1 := NextChar(st);
      var word1 := word + [st.rest[0]];
      var r := WordRun(cls, st1, word1);
      assert WordRun(cls, st, word) == r;
      WordRunSpec(cls, st1, word1);
      var n := WordLength(cls, st.rest);
      assert WordLength(cls, st1.rest) == n - 1;
      if r.Ok? {
        assert r.value.1 == word1 + st1.rest[..n - 1];
        assert st1.rest[..n - 1] == st.rest[1..n];
        assert word1 + st.rest[1..n] == word + st.rest[..n];
        assert r.value.0.rest == st1.rest[n - 1..];
      }
    }
  }

  /** Maximal munch for words: the token is the longest run of word characters, followed
      by a character that is not one, classified by `WordKind`, at the starting column.
      A word that runs to the end of input is Lex004. */
  lemma IdentifierSpec(cls: CharClasses, st: LexState)
    ensures LexIdentifier(cls, st).Ok? <==> WordLength(cls, st.rest) < |st.rest|
    ensures LexIdentifier(cls, st).Ok? ==>
      var n := WordLength(cls, st.rest);
      var r := LexIdentifier(cls, st).value;
      r.rest == st.rest[n..] && !WordChar(cls, st.rest[n])
      && (forall j :: 0 <= j < n ==> WordChar(cls, st.rest[j]))
      && Last(r.tokens) == Token(WordKind(st.rest[..n]), r.row, st.col)
  {
    WordRunSpec(cls, st, "");
    WordLengthSpec(cls, st.rest);
    assert "" + st.rest[..WordLength(cls, st.rest)] == st.rest[..WordLength(cls, st.rest)];
  }

  // ---------------------------------------------------------------- numbers

  /** The length of the run of numeric characters at the front of `s`. */
  function NumeralLength(cls: CharClasses, s: seq<char>): (n: nat)
    ensures n <= |s|
  {
    if s == [] || !cls.numeric(s[0]) then 0 else 1 + NumeralLength(cls, s[1..])
  }

  lemma {:induction false} NumeralLengthSpec(cls: CharClasses, s: seq<char>)
    ensures forall j :: 0 <= j < NumeralLength(cls, s) ==> cls.numeric(s[j])
    ensures NumeralLength(cls, s) < |s| ==> !cls.numeric(s[NumeralLength(cls, s)])
  {
    if s != [] && cls.numeric(s[0]) {
      NumeralLengthSpec(cls, s[1..]);
    }
  }

  lemma {:induction false} DigitRunSpec(cls: CharClasses, st: LexState, digits: string)
    ensures var n := NumeralLength(cls, st.rest);
      DigitRun(cls, st, digits).1 == digits + st.rest[..n]
      && DigitRun(cls, st, digits).0.rest == st.rest[n..]
    decreases |st.rest|
  {
    if st.rest == [] || !cls.numeric(st.rest[0]) {
      assert digits + st.rest[..0] == digits;
    } else {
      var st1 := NextChar(st);
      var digits1 := digits + [st.rest[0]];
      assert DigitRun(cls, st, digits) == DigitRun(cls, st1, digits1);
      DigitRunSpec(cls, st1, digits1);
      var n := NumeralLength(cls, st.rest);
      assert NumeralLength(cls, st1.rest) == n - 1;
      assert st1.rest[..n - 1] == st.rest[1..n];
      assert digits1 + st.rest[1..n] == digits + st.rest[..n];
      assert st1.rest[n - 1..] == st.rest[n..];
    }
  }

  /** Maximal munch for numbers: the longest run of numeric characters, kept as a string,
      at the starting column. */
  lemma NumberSpec(cls: CharClasses, st: LexState)
    ensures var n := NumeralLength(cls, st.rest);
      var r := LexNumber(cls, st);
      r.rest == st.rest[n..]
      && (n == |st.rest| || !cls.numeric(st.rest[n]))
      && (forall j :: 0 <= j < n ==> cls.numeric(st.rest[j]))
      && Last(r.tokens) == Token(NumberLiteral(st.rest[..n]), r.row, st.col)
  {
    DigitRunSpec(cls, st, "");
    NumeralLengthSpec(cls, st.rest);
  }

  /** A `.` is always a token of its own; since it is not numeric, a number stops before
      it, so `1.5` is three tokens. */
  lemma DotIsSeparate(cls: CharClasses, st: LexState)
    requires !cls.numeric('.') && !cls.alphabetic('.')
    ensures st.rest != [] && st.rest[0] == '.' ==> Step(cls, st) == Ok(NextChar(PushToken(st, Dot)))
    ensures forall j :: 0 <= j < NumeralLength(cls, st.rest) ==> st.rest[j] != '.'
  {
    NumberSpec(cls, st);
  }

  // ---------------------------------------------------------------- operators

  /** `=`: followed by `=` it is the equality comparison and both characters are read; followed
      by anything else it is assignment and only itself is read; at the end it is Lex004. */
  lemma EqualSpec(st: LexState)
    requires st.rest != [] && st.rest[0] == '='
    ensures |st.rest| == 1 ==> LexEqual(st).Err? && LexEqual(st).error.errorCode == Lex004
    ensures |st.rest| >= 2 && st.rest[1] == '=' ==>
      LexEqual(st).Ok? && LexEqual(st).value.rest == st.rest[2..]
      && Last(LexEqual(st).value.tokens).kind == CompareOperator(O.Equal)
    ensures |st.rest| >= 2 && st.rest[1] != '=' ==>
      LexEqual(st).Ok? && LexEqual(st).value.rest == st.rest[1..]
      && Last(LexEqual(st).value.tokens).kind == Equal
  {
  }

  /** `!`: only `!=` is accepted; a `!` followed by anything else is Lex005 naming `!`. */
  lemma ExclamationSpec(st: LexState)
    requires st.rest != [] && st.rest[0] == '!'
    ensures |st.rest| == 1 ==> LexExclamation(st).Err? && LexExclamation(st).error.errorCode == Lex004
    ensures |st.rest| >= 2 && st.rest[1] == '=' ==>
      LexExclamation(st).Ok? && LexExclamation(st).value.rest == st.rest[2..]
      && Last(LexExclamation(st).value.tokens).kind == CompareOperator(O.NotEqual)
    ensures |st.rest| >= 2 && st.rest[1] != '=' ==>
      LexExclamation(st).Err? && LexExclamation(st).error.errorCode == Lex005
      && LexExclamation(st).error.params == [("operator", "!")]
  {
  }

  /** The number of `=` at the front of `s`. */
  function EqualsLength(s: seq<char>): (n: nat)
    ensures n <= |s|
  {
    if s == [] || s[0] != '=' then 0 else 1 + EqualsLength(s[1..])
  }

  lemma {:induction false} EqualsLengthSpec(s: seq<char>)
    ensures forall j :: 0 <= j < EqualsLength(s) ==> s[j] == '='
    ensures EqualsLength(s) < |s| ==> s[EqualsLength(s)] != '='
  {
    if s != [] && s[0] == '=' {
      EqualsLengthSpec(s[1..]);
    }
  }

  lemma {:induction false} AngleEqualsSpec(st: LexState, operator: string)
    ensures AngleEquals(st, operator).Ok? <==> EqualsLength(st.rest) < |st.rest|
    ensures AngleEquals(st, operator).Ok? ==>
      var n := EqualsLength(st.rest);
      AngleEquals(st, operator).value.1 == operator + st.rest[..n]
      && AngleEquals(st, operator).value.0.rest == st.rest[n..]
    decreases |st.rest|
  {
    if st.rest == [] {
    } else if st.rest[0] != '=' {
      assert AngleEquals(st, operator) == Ok((st, operator));
      assert operator + st.rest[..0] == operator;
    } else {
      var st1 := NextChar(st);
      var op1 := operator + ['='];
      AngleEqualsStep(st, operator);
      AngleEqualsSpec(st1, op1);
      var n := EqualsLength(st.rest);
      assert EqualsLength(st1.rest) == n - 1;
      var r := AngleEquals(st1, op1);
      if r.Ok? {
        assert st1.rest[..n - 1] == st.rest[1..n];
        assert op1 + st.rest[1..n] == operator + st.rest[..n];
        assert st1.rest[n - 1..] == st.rest[n..];
      }
    }
  }

  /** One round of the `=` loop of `lex_angle`. */
  lemma AngleEqualsStep(st: LexState, operator: string)
    requires st.rest != [] && st.rest[0] == '='
    ensures AngleEquals(st, operator) == AngleEquals(NextChar(st), operator + ['='])
    ensures NextChar(st).rest == st.rest[1..]
  {
  }


  /** `<` or `>` not followed by `=` is the strict comparison, and only it is read. */
  lemma AngleAlone(st: LexState)
    requires |st.rest| >= 2 && (st.rest[0] == '<' || st.rest[0] == '>') && st.rest[1] != '='
    ensures LexAngle(st).Ok? && LexAngle(st).value.rest == st.rest[1..]
    ensures Last(LexAngle(st).value.tokens).kind ==
            CompareOperator(if st.rest[0] == '<' then O.Less else O.Greater)
  {
    var st1 := NextChar(st);
    assert EqualsLength(st1.rest) == 0;
    AngleEqualsSpec(st1, [st.rest[0]]);
    assert [st.rest[0]] + st1.rest[..0] == [st.rest[0]];
  }

  /** `<=` or `>=` not followed by another `=` is the non-strict comparison, and both
      characters are read. */
  lemma AngleWithEqual(st: LexState)
    requires |st.rest| >= 3 && (st.rest[0] == '<' || st.rest[0] == '>')
    requires st.rest[1] == '=' && st.rest[2] != '='
    ensures LexAngle(st).Ok? && LexAngle(st).value.rest == st.rest[2..]
    ensures Last(LexAngle(st).value.tokens).kind ==
            CompareOperator(if st.rest[0] == '<' then O.LessEqual else O.GreaterEqual)
  {
    var st1 := NextChar(st);
    assert EqualsLength(st1.rest[1..]) == 0;
    assert EqualsLength(st1.rest) == 1;
    AngleEqualsSpec(st1, [st.rest[0]]);
    assert [st.rest[0]] + st1.rest[..1] == [st.rest[0], '='];
  }

  /** With two or more `=` the whole run is Lex005 naming it, at the column where it
      began; a run of `=` reaching the end of input is Lex004. */
  lemma AngleRejects(st: LexState)
    requires st.rest != [] && (st.rest[0] == '<' || st.rest[0] == '>')
    ensures var n := EqualsLength(st.rest[1..]);
      n >= 2 && n + 1 < |st.rest| ==>
        LexAngle(st).Err? && LexAngle(st).error.errorCode == Lex005
        && LexAngle(st).error.col == Some(st.col)
        && LexAngle(st).error.params == [("operator", st.rest[..n + 1])]
    ensures EqualsLength(st.rest[1..]) + 1 == |st.rest| ==>
      LexAngle(st).Err? && LexAngle(st).error.errorCode == Lex004
  {
    var st1 := NextChar(st);
    AngleEqualsSpec(st1, [st.rest[0]]);
    var n := EqualsLength(st.rest[1..]);
    var a := AngleEquals(st1, [st.rest[0]]);
    assert a.Ok? ==> a.value.1 == st.rest[..n + 1] by {
      assert st.rest[..n + 1] == [st.rest[0]] + st.rest[1..][..n];
    }
    if 2 <= n && n + 1 < |st.rest| {
      var operator := a.value.1;
      assert |operator| >= 3;
      assert operator != "<=" && operator != "<" && operator != ">=" && operator != ">";
    }
  }

  // ---------------------------------------------------------------- strings

  /** The number of characters at the front of `s` that do not end a string body. */
  function BodyLength(s: seq<char>): (n: nat)
    ensures n <= |s|
  {
    if s == [] || StringEnd(s[0]) then 0 else 1 + BodyLength(s[1..])
  }

  lemma {:induction false} BodyLengthSpec(s: seq<char>)
    ensures forall j :: 0 <= j < BodyLength(s) ==> !StringEnd(s[j])
    ensures BodyLength(s) < |s| ==> StringEnd(s[BodyLength(s)])
  {
    if s != [] && !StringEnd(s[0]) {
      BodyLengthSpec(s[1..]);
    }
  }

  lemma {:induction false} StringBodySpec(st: LexState, text: string)
    ensures var n := BodyLength(st.rest);
      StringBody(st, text).1 == text + st.rest[..n] && StringBody(st, text).0.rest == st.rest[n..]
    decreases |st.rest|
  {
    if st.rest == [] {
    } else if StringEnd(st.rest[0]) {
      assert text + st.rest[..0] == text;
    } else {
      var st1 := NextChar(st);
      var text1 := text + [st.rest[0]];
      assert StringBody(st, text) == StringBody(st1, text1);
      StringBodySpec(st1, text1);
      var n := BodyLength(st.rest);
      assert st1.rest[..n - 1] == st.rest[1..n];
      assert text1 + st.rest[1..n] == text + st.rest[..n];
    }
  }

  /** A string literal succeeds exactly when the first quote, newline or carriage return
      after the opening quote is a quote; the token holds the characters in between and
      reading resumes after the closing quote. A line break first is Lex003; no end at all
      is Lex004. */
  lemma StringSpec(st: LexState)
    requires st.rest != [] && st.rest[0] == '"'
    ensures var n := BodyLength(st.rest[1..]);
      LexString(st).Ok? <==> n + 1 < |st.rest| && st.rest[n + 1] == '"'
    ensures var n := BodyLength(st.rest[1..]);
      LexString(st).Ok? ==>
        LexString(st).value.rest == st.rest[n + 2..]
        && Last(LexString(st).value.tokens).kind == StringLiteral(st.rest[1..n + 1])
    ensures var n := BodyLength(st.rest[1..]);
      LexString(st).Err? ==>
        LexString(st).error.errorCode == (if n + 1 == |st.rest| then Lex004 else Lex003)
  {
    StringBodySpec(NextChar(st), "");
    assert "" + st.rest[1..][..BodyLength(st.rest[1..])] == st.rest[1..BodyLength(st.rest[1..]) + 1];
  }

  /** The characters of a successful literal are exactly the ones before its closing
      quote, none of which ends a string body. */
  lemma StringLiteralPlain(st: LexState)
    requires st.rest != [] && st.rest[0] == '"'
    ensures var n := BodyLength(st.rest[1..]);
      (forall j :: 1 <= j < n + 1 ==> !StringEnd(st.rest[j]))
      && (n + 1 < |st.rest| ==> StringEnd(st.rest[n + 1]))
  {
    BodyLengthSpec(st.rest[1..]);
    var n := BodyLength(st.rest[1..]);
    forall j | 1 <= j < n + 1
      ensures !StringEnd(st.rest[j])
    {
      assert st.rest[j] == st.rest[1..][j - 1];
    }
  }

  // ---------------------------------------------------------------- refused characters

  /** A character outside every class of `tokenize` stops the lexer with Lex002 naming it. */
  lemma UnknownCharacter(cls: CharClasses, st: LexState)
    requires st.rest != []
    requires var c := st.rest[0];
      c !in {' ', '\n', '\r', '\t', '(', ')', '{', '}', ':', ';', ',', '.', '+', '-', '*',
             '/', '"', '=', '!', '<', '>'}
      && !cls.alphabetic(c) && !cls.numeric(c)
    ensures Tokenize(cls, st) == Err(Failure(Lex002, st.row, st.col, [("char", [st.rest[0]])]))
  {
  }
}
