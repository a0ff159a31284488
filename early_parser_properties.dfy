/** Properties of the earliest parser. The partner of the parser is a printer, `Tokens`,
    that spells a tree out as the shortest token sequence (an implicit `+` sign left
    out); every tree of the grammar's shape is read back from its spelling, whatever
    follows it, and every tree the parser builds has that shape. */
module EarlyParsingProperties {
  import opened Wrappers
  import opened EarlyParsing

  // ---------------------------------------------------------------- the printer

  /** The tokens of one node; a program is printed by `ProgramTokens`. */
  function Tokens(n: Node): seq<Token>
    decreases n
  {
    match n.kind
    case AddAndSub(op) =>
      if |n.children| == 2
      then Tokens(n.children[0]) + [Token(AddAndSubOperator(op))] + Tokens(n.children[1])
      else []
    case MulAndDiv(op) =>
      if |n.children| == 2
      then Tokens(n.children[0]) + [Token(MulAndDivOperator(op))] + Tokens(n.children[1])
      else []
    case Unary(op) =>
      if |n.children| != 1 then []
      else if op == "+" then Tokens(n.children[0])
      else [Token(AddAndSubOperator(op))] + Tokens(n.children[0])
    case Primary =>
      if |n.children| != 1 then []
      else if n.children[0].kind.NumberNode? then Tokens(n.children[0])
      else [Token(LParen)] + Tokens(n.children[0]) + [Token(RParen)]
    case NumberNode(x) => [Token(Number(x))]
    case StringNode(v) => [Token(Str(v))]
    case BoolNode(b) => [Token(Bool(b))]
    case Compare(op) =>
      if |n.children| == 1 then Tokens(n.children[0])
      else if |n.children| == 2
      then Tokens(n.children[0]) + [Token(CompareOperator(op))] + Tokens(n.children[1])
      else []
    case Expression => if |n.children| == 1 then Tokens(n.children[0]) else []
    case Argument => if |n.children| == 1 then Tokens(n.children[0]) else []
    case FunctionCall(name) =>
      if |n.children| == 1
      then [Token(FunctionName(name)), Token(LParen)] + Tokens(n.children[0]) + [Token(RParen), Token(Semicolon)]
      else []
    case Program => []
  }

  function CallsTokens(calls: seq<Node>): seq<Token> {
    if calls == [] then [] else Tokens(calls[0]) + CallsTokens(calls[1..])
  }

  /** A program's calls, then EOF. */
  function ProgramTokens(p: Node): seq<Token> {
    CallsTokens(p.children) + [Token(EOF)]
  }

  predicate AddNext(w: seq<Token>) { w != [] && w[0].kind.AddAndSubOperator? }

  predicate MulNext(w: seq<Token>) { w != [] && w[0].kind.MulAndDivOperator? }

  predicate CompareNext(w: seq<Token>) { w != [] && w[0].kind.CompareOperator? }

  /** What may follow a value: something that neither extends the arithmetic nor starts
      a comparison, and is there to be peeked at. */
  predicate EndsValue(w: seq<Token>) {
    w != [] && !AddNext(w) && !MulNext(w) && !CompareNext(w)
  }

  /** What may follow a comparison: after one with an operator, anything that does not
      extend its right value. */
  predicate EndsCompare(c: Node, w: seq<Token>) {
    if |c.children| == 2 then !AddNext(w) && !MulNext(w) else EndsValue(w)
  }

  /** What may follow an argument: anything after a bool. */
  predicate EndsArgument(a: Node, w: seq<Token>) {
    |a.children| == 1
    && (a.children[0].kind.BoolNode?
        || (|a.children[0].children| == 1 && EndsCompare(a.children[0].children[0], w)))
  }

  // ---------------------------------------------------------------- arithmetic round trips

  lemma {:induction false} PrimaryRoundTrip(n: Node, w: seq<Token>)
    requires PrimaryForm(n)
    ensures PrimaryExpr(Tokens(n) + w) == Ok((n, w))
    decreases n, 0
  {
    var c := n.children[0];
    assert n == Node(Primary, [c]);
    if c.kind.NumberNode? {
      assert c == Node(NumberNode(c.kind.number), []);
      assert Tokens(n) + w == [Token(Number(c.kind.number))] + w;
    } else {
      var close := [Token(RParen)] + w;
      SumRoundTrip(c, close);
      assert Tokens(n) + w == [Token(LParen)] + (Tokens(c) + close);
      assert (Tokens(c) + close)[..] == ([Token(LParen)] + (Tokens(c) + close))[1..];
    }
  }

  lemma {:induction false} UnaryRoundTrip(n: Node, w: seq<Token>)
    requires UnaryForm(n)
    ensures UnaryExpr(Tokens(n) + w) == Ok((n, w))
    decreases n, 1
  {
    var p := n.children[0];
    assert n == Node(Unary(n.kind.operator), [p]);
    PrimaryRoundTrip(p, w);
    PrimaryStart(p);
    if n.kind.operator != "+" {
      assert Tokens(n) + w == [Token(AddAndSubOperator(n.kind.operator))] + (Tokens(p) + w);
    }
  }

  /** Reading a product's spelling continues the `*`/`/` loop from the whole product. */
  lemma {:induction false} MulChain(n: Node, w: seq<Token>)
    requires ProductForm(n)
    ensures MulDiv(Tokens(n) + w) == MulDivLoop(n, w)
    decreases n, 2
  {
    if n.kind.Unary? {
      UnaryRoundTrip(n, w);
    } else {
      var l, r, op := n.children[0], n.children[1], n.kind.operator;
      assert n == Node(MulAndDiv(op), [l, r]);
      var more := [Token(MulAndDivOperator(op))] + (Tokens(r) + w);
      MulChain(l, more);
      assert Tokens(n) + w == Tokens(l) + more;
      MulLink(l, op, r, w);
    }
  }

  /** One round of the `*`/`/` loop reads an operator and the factor spelled after it. */
  lemma MulLink(l: Node, op: string, r: Node, w: seq<Token>)
    requires ProductForm(l) && UnaryForm(r)
    ensures MulDivLoop(l, [Token(MulAndDivOperator(op))] + (Tokens(r) + w))
         == MulDivLoop(Node(MulAndDiv(op), [l, r]), w)
    decreases Node(MulAndDiv(op), [l, r]), 1
  {
    var more := [Token(MulAndDivOperator(op))] + (Tokens(r) + w);
    assert r in [l, r];
    UnaryRoundTrip(r, w);
    assert more[0].kind.MulAndDivOperator? && more[1..] == Tokens(r) + w;
  }

  lemma {:induction false} MulRoundTrip(n: Node, w: seq<Token>)
    requires ProductForm(n) && !MulNext(w)
    ensures MulDiv(Tokens(n) + w) == Ok((n, w))
    decreases n, 3
  {
    MulChain(n, w);
  }

  /** Reading a sum's spelling continues the `+`/`-` loop from the whole sum. */
  lemma {:induction false} AddChain(n: Node, w: seq<Token>)
    requires SumForm(n) && !MulNext(w)
    ensures AddSub(Tokens(n) + w) == AddSubLoop(n, w)
    decreases n, 4
  {
    if !n.kind.AddAndSub? {
      MulRoundTrip(n, w);
    } else {
      var l, r, op := n.children[0], n.children[1], n.kind.operator;
      assert n == Node(AddAndSub(op), [l, r]);
      var more := [Token(AddAndSubOperator(op))] + (Tokens(r) + w);
      AddChain(l, more);
      assert Tokens(n) + w == Tokens(l) + more;
      MulRoundTrip(r, w);
      assert more[1..] == Tokens(r) + w;
    }
  }

  lemma {:induction false} SumRoundTrip(n: Node, w: seq<Token>)
    requires SumForm(n) && !MulNext(w) && !AddNext(w)
    ensures AddSub(Tokens(n) + w) == Ok((n, w))
    decreases n, 5
  {
    AddChain(n, w);
  }

  /** A primary is spelled from a number or an opening parenthesis. */
  lemma PrimaryStart(n: Node)
    requires PrimaryForm(n)
    ensures Tokens(n) != [] && (Tokens(n)[0].kind.Number? || Tokens(n)[0].kind == LParen)
  {
    var c := n.children[0];
    if !c.kind.NumberNode? {
      assert Tokens(n) == [Token(LParen)] + Tokens(c) + [Token(RParen)];
    }
  }

  /** A sum is spelled from a sign, a number or an opening parenthesis. */
  lemma {:induction false} SumStart(n: Node)
    requires SumForm(n)
    ensures Tokens(n) != []
    ensures Tokens(n)[0].kind.AddAndSubOperator? || Tokens(n)[0].kind.Number? || Tokens(n)[0].kind == LParen
    decreases n
  {
    if n.kind.Unary? {
      assert ProductForm(n);
      assert UnaryForm(n);
      PrimaryStart(n.children[0]);
      if n.kind.operator != "+" {
        assert Tokens(n) == [Token(AddAndSubOperator(n.kind.operator))] + Tokens(n.children[0]);
      }
    } else {
      var l := n.children[0];
      SumStart(l);
      var op := if n.kind.AddAndSub? then Token(AddAndSubOperator(n.kind.operator))
                else Token(MulAndDivOperator(n.kind.operator));
      assert Tokens(n) == Tokens(l) + [op] + Tokens(n.children[1]);
    }
  }

  // ---------------------------------------------------------------- statement round trips

  lemma ValueRoundTrip(v: Node, w: seq<Token>)
    requires ValueForm(v) && !MulNext(w) && !AddNext(w)
    ensures Value(Tokens(v) + w) == Ok((v, w))
    ensures Tokens(v) != [] && !Tokens(v)[0].kind.Bool? && !Tokens(v)[0].kind.FunctionName?
  {
    if SumForm(v) {
      SumStart(v);
      SumRoundTrip(v, w);
    } else {
      assert v == Node(StringNode(v.kind.value), []);
    }
  }

  lemma CompareRoundTrip(c: Node, w: seq<Token>)
    requires CompareForm(c) && EndsCompare(c, w)
    ensures CompareExpr(Tokens(c) + w) == Ok((c, w))
    ensures Tokens(c) != [] && !Tokens(c)[0].kind.Bool? && !Tokens(c)[0].kind.FunctionName?
  {
    if |c.children| == 1 {
      SingleRoundTrip(c.children[0], w);
      assert c == Node(Compare(""), [c.children[0]]);
    } else {
      assert c == Node(Compare(c.kind.operator), [c.children[0], c.children[1]]);
      PairSpelling(c.children[0], c.kind.operator, c.children[1], w);
      PairRoundTrip(c.children[0], c.kind.operator, c.children[1], w);
      ValueRoundTrip(c.children[0], []);
    }
  }

  /** Without a comparison operator the compare node has the one value and no operator. */
  lemma SingleRoundTrip(v: Node, w: seq<Token>)
    requires ValueForm(v) && EndsValue(w)
    ensures CompareExpr(Tokens(v) + w) == Ok((Node(Compare(""), [v]), w))
    ensures Tokens(Node(Compare(""), [v])) == Tokens(v)
    ensures Tokens(v) != [] && !Tokens(v)[0].kind.Bool? && !Tokens(v)[0].kind.FunctionName?
  {
    ValueRoundTrip(v, w);
  }

  /** With one, it has both values and that operator. */
  lemma PairRoundTrip(v: Node, op: string, u: Node, w: seq<Token>)
    requires ValueForm(v) && ValueForm(u) && !AddNext(w) && !MulNext(w)
    ensures CompareExpr(Tokens(v) + ([Token(CompareOperator(op))] + (Tokens(u) + w)))
         == Ok((Node(Compare(op), [v, u]), w))
  {
    var more := [Token(CompareOperator(op))] + (Tokens(u) + w);
    ValueRoundTrip(v, more);
    ValueRoundTrip(u, w);
    assert more[1..] == Tokens(u) + w;
  }

  /** The spelling of a comparison with an operator. */
  lemma PairSpelling(v: Node, op: string, u: Node, w: seq<Token>)
    ensures Tokens(Node(Compare(op), [v, u])) + w
         == Tokens(v) + ([Token(CompareOperator(op))] + (Tokens(u) + w))
    ensures Tokens(v) != [] ==> Tokens(Node(Compare(op), [v, u]))[0] == Tokens(v)[0]
  {
  }

  lemma ArgumentRoundTrip(a: Node, w: seq<Token>)
    requires ArgumentForm(a) && EndsArgument(a, w)
    ensures ArgumentNode(Tokens(a) + w) == Ok((a, w))
  {
    var e := a.children[0];
    assert a == Node(Argument, [e]);
    if ExpressionForm(e) {
      var c := e.children[0];
      assert e == Node(Expression, [c]);
      CompareRoundTrip(c, w);
    } else {
      assert e == Node(BoolNode(e.kind.b), []);
    }
  }

  lemma CallRoundTrip(call: Node, w: seq<Token>)
    requires CallForm(call)
    ensures Call(Tokens(call) + w) == Ok((call, w))
  {
    var a := call.children[0];
    assert call == Node(FunctionCall(call.kind.name), [a]);
    var close := [Token(RParen), Token(Semicolon)] + w;
    ArgumentRoundTrip(a, close);
    assert Tokens(call) + w == [Token(FunctionName(call.kind.name)), Token(LParen)] + (Tokens(a) + close);
  }

  /** One round of the program loop over a well-formed call. */
  lemma ProgramStep(call: Node, rest: seq<Token>, children: seq<Node>)
    requires CallForm(call)
    ensures ProgramLoop(Tokens(call) + rest, children) == ProgramLoop(rest, children + [call])
  {
    CallRoundTrip(call, rest);
    assert (Tokens(call) + rest)[0] == Token(FunctionName(call.kind.name));
  }

  /** A run of well-formed calls in front of any tokens is read as those calls, and the
      parse goes on exactly as it would have without them: the result, or the first error. */
  lemma {:induction false} ProgramPrefix(calls: seq<Node>, ts: seq<Token>, children: seq<Node>)
    requires forall c <- calls :: CallForm(c)
    ensures ProgramLoop(CallsTokens(calls) + ts, children) == ProgramLoop(ts, children + calls)
    decreases |calls|
  {
    if calls == [] {
      assert CallsTokens(calls) + ts == ts;
      assert children + calls == children;
    } else {
      var c, more := calls[0], calls[1..];
      CallsSplit(calls, ts);
      ProgramStep(c, CallsTokens(more) + ts, children);
      ProgramPrefix(more, ts, children + [c]);
      assert children + [c] + more == children + calls;
    }
  }

  /** The spelling of a run of calls is that of its first call, then of the others. */
  lemma CallsSplit(calls: seq<Node>, ts: seq<Token>)
    requires calls != []
    ensures CallsTokens(calls) + ts == Tokens(calls[0]) + (CallsTokens(calls[1..]) + ts)
  {
  }

  /** Every well-formed program is read back from its spelling, with or without the final
      EOF, and whatever follows the EOF is left unread. */
  lemma ParsePrinted(p: Node, after: seq<Token>)
    requires ProgramForm(p)
    ensures Parse(ProgramTokens(p) + after) == Ok(p)
    ensures Parse(CallsTokens(p.children)) == Ok(p)
    ensures ProgramNode(ProgramTokens(p) + after) == Ok((p, after))
  {
    ProgramPrefix(p.children, [Token(EOF)] + after, []);
    assert ProgramTokens(p) + after == CallsTokens(p.children) + ([Token(EOF)] + after);
    ProgramPrefix(p.children, [], []);
    assert CallsTokens(p.children) + [] == CallsTokens(p.children);
    assert p == Node(Program, p.children);
  }

  /** Parsing, printing and parsing again gives the same tree. */
  lemma Reparse(ts: seq<Token>)
    requires Parse(ts).Ok?
    ensures Parse(ProgramTokens(Parse(ts).value)) == Parse(ts)
  {
    ParsePrinted(Parse(ts).value, []);
    assert ProgramTokens(Parse(ts).value) + [] == ProgramTokens(Parse(ts).value);
  }

  // ---------------------------------------------------------------- the rules one by one

  /** After any run of well-formed calls, a token that is neither a function name nor EOF
      ends the parse with the program error naming that token. */
  lemma StrayToken(calls: seq<Node>, t: Token, w: seq<Token>)
    requires forall c <- calls :: CallForm(c)
    requires !t.kind.FunctionName? && t.kind != EOF
    ensures ProgramNode(CallsTokens(calls) + [t] + w) == Err(UnexpectedToken("program", t))
  {
    ProgramPrefix(calls, [t] + w, []);
    assert CallsTokens(calls) + [t] + w == CallsTokens(calls) + ([t] + w);
  }

  /** A well-formed call cut short before its `;`, or followed by another token there. */
  lemma SemicolonRequired(name: string, a: Node, w: seq<Token>)
    requires ArgumentForm(a)
    requires w == [] || w[0].kind != Semicolon
    ensures Call([Token(FunctionName(name)), Token(LParen)] + Tokens(a) + [Token(RParen)] + w)
         == Err(Message(if w == [] then "';'が不足" else "関数呼び出しの後には';'が必要"))
  {
    ArgumentRoundTrip(a, [Token(RParen)] + w);
    assert [Token(FunctionName(name)), Token(LParen)] + Tokens(a) + [Token(RParen)] + w
        == [Token(FunctionName(name)), Token(LParen)] + (Tokens(a) + ([Token(RParen)] + w));
  }

  /** A well-formed argument followed by anything but `)`. */
  lemma CloseRequired(name: string, a: Node, rest: seq<Token>)
    requires ArgumentForm(a) && EndsArgument(a, rest) && rest != [] && rest[0].kind != RParen
    ensures Call([Token(FunctionName(name)), Token(LParen)] + (Tokens(a) + rest))
         == Err(Message("引数の後には')'が必要"))
  {
    ArgumentRoundTrip(a, rest);
    assert ([Token(FunctionName(name)), Token(LParen)] + (Tokens(a) + rest))[1..][1..] == Tokens(a) + rest;
  }

  /** A well-formed call whose argument is not closed before the `;`. */
  lemma RParenRequired(name: string, a: Node, w: seq<Token>)
    requires ArgumentForm(a)
    ensures Call([Token(FunctionName(name)), Token(LParen)] + Tokens(a) + [Token(Semicolon)] + w)
         == Err(Message("引数の後には')'が必要"))
  {
    CloseRequired(name, a, [Token(Semicolon)] + w);
    assert [Token(FunctionName(name)), Token(LParen)] + Tokens(a) + [Token(Semicolon)] + w
        == [Token(FunctionName(name)), Token(LParen)] + (Tokens(a) + ([Token(Semicolon)] + w));
  }

  /** A function name followed by anything but `(`. */
  lemma LParenRequired(name: string, t: Token, w: seq<Token>)
    requires t.kind != LParen
    ensures Call([Token(FunctionName(name))]) == Err(Message("'('が不足"))
    ensures Call([Token(FunctionName(name)), t] + w) == Err(Message("関数名の後には'('が必要"))
  {
    assert ([Token(FunctionName(name)), t] + w)[1..][0] == t;
  }

  /** A comparison followed by a second comparison operator is read as an argument that
      stops in front of that operator. */
  lemma ChainedArgument(v: Node, u: Node, op1: string, op2: string, w: seq<Token>)
    requires ValueForm(v) && ValueForm(u)
    ensures ArgumentNode(Tokens(v) + [Token(CompareOperator(op1))] + Tokens(u) + [Token(CompareOperator(op2))] + w)
         == Ok((Node(Argument, [Node(Expression, [Node(Compare(op1), [v, u])])]), [Token(CompareOperator(op2))] + w))
  {
    var c := Node(Compare(op1), [v, u]);
    var a := Node(Argument, [Node(Expression, [c])]);
    var rest := [Token(CompareOperator(op2))] + w;
    assert Tokens(a) == Tokens(c) == Tokens(v) + [Token(CompareOperator(op1))] + Tokens(u);
    assert ArgumentForm(a) && EndsArgument(a, rest);
    ArgumentRoundTrip(a, rest);
    assert Tokens(v) + [Token(CompareOperator(op1))] + Tokens(u) + [Token(CompareOperator(op2))] + w
        == Tokens(a) + rest;
  }

  /** A second comparison operator ends the argument, and the call then misses its `)`. */
  lemma ChainedComparisonRejected(name: string, v: Node, u: Node, op1: string, op2: string, w: seq<Token>)
    requires ValueForm(v) && ValueForm(u)
    ensures Call([Token(FunctionName(name)), Token(LParen)]
                 + (Tokens(v) + [Token(CompareOperator(op1))] + Tokens(u) + [Token(CompareOperator(op2))] + w))
         == Err(Message("引数の後には')'が必要"))
  {
    var z := Tokens(v) + [Token(CompareOperator(op1))] + Tokens(u) + [Token(CompareOperator(op2))] + w;
    ChainedArgument(v, u, op1, op2, w);
    assert ([Token(FunctionName(name)), Token(LParen)] + z)[1..][1..] == z;
  }

  /** The spelling of `a op1 b op2 c`, grouped to the left, as a sum. */
  lemma SumSpelling(a: Node, b: Node, c: Node, op1: string, op2: string, w: seq<Token>)
    requires ProductForm(a) && ProductForm(b) && ProductForm(c)
    ensures SumForm(Node(AddAndSub(op2), [Node(AddAndSub(op1), [a, b]), c]))
    ensures Tokens(Node(AddAndSub(op2), [Node(AddAndSub(op1), [a, b]), c])) + w
         == Tokens(a) + [Token(AddAndSubOperator(op1))] + Tokens(b)
            + [Token(AddAndSubOperator(op2))] + Tokens(c) + w
  {
    var m := Node(AddAndSub(op1), [a, b]);
    var n := Node(AddAndSub(op2), [m, c]);
    assert SumForm(a);
    assert SumForm(m);
    assert Tokens(m) == Tokens(a) + [Token(AddAndSubOperator(op1))] + Tokens(b);
    assert Tokens(n) == Tokens(m) + [Token(AddAndSubOperator(op2))] + Tokens(c);
  }

  /** `+` and `-` group to the left. */
  lemma SumLeftAssociative(a: Node, b: Node, c: Node, op1: string, op2: string, w: seq<Token>)
    requires ProductForm(a) && ProductForm(b) && ProductForm(c) && !AddNext(w) && !MulNext(w)
    ensures AddSub(Tokens(a) + [Token(AddAndSubOperator(op1))] + Tokens(b)
                   + [Token(AddAndSubOperator(op2))] + Tokens(c) + w)
         == Ok((Node(AddAndSub(op2), [Node(AddAndSub(op1), [a, b]), c]), w))
  {
    SumSpelling(a, b, c, op1, op2, w);
    SumRoundTrip(Node(AddAndSub(op2), [Node(AddAndSub(op1), [a, b]), c]), w);
  }

  /** The spelling of `a op1 b op2 c`, grouped to the left, as a product. */
  lemma ProductSpelling(a: Node, b: Node, c: Node, op1: string, op2: string, w: seq<Token>)
    requires UnaryForm(a) && UnaryForm(b) && UnaryForm(c)
    ensures ProductForm(Node(MulAndDiv(op2), [Node(MulAndDiv(op1), [a, b]), c]))
    ensures Tokens(Node(MulAndDiv(op2), [Node(MulAndDiv(op1), [a, b]), c])) + w
         == Tokens(a) + [Token(MulAndDivOperator(op1))] + Tokens(b)
            + [Token(MulAndDivOperator(op2))] + Tokens(c) + w
  {
    var m := Node(MulAndDiv(op1), [a, b]);
    var n := Node(MulAndDiv(op2), [m, c]);
    assert Tokens(m) == Tokens(a) + [Token(MulAndDivOperator(op1))] + Tokens(b);
    assert Tokens(n) == Tokens(m) + [Token(MulAndDivOperator(op2))] + Tokens(c);
  }

  /** `*` and `/` group to the left. */
  lemma ProductLeftAssociative(a: Node, b: Node, c: Node, op1: string, op2: string, w: seq<Token>)
    requires UnaryForm(a) && UnaryForm(b) && UnaryForm(c) && !MulNext(w)
    ensures MulDiv(Tokens(a) + [Token(MulAndDivOperator(op1))] + Tokens(b)
                   + [Token(MulAndDivOperator(op2))] + Tokens(c) + w)
         == Ok((Node(MulAndDiv(op2), [Node(MulAndDiv(op1), [a, b]), c]), w))
  {
    ProductSpelling(a, b, c, op1, op2, w);
    MulRoundTrip(Node(MulAndDiv(op2), [Node(MulAndDiv(op1), [a, b]), c]), w);
  }

  /** The spelling of `a op1 b op2 c` with the product on the right, as a sum. */
  lemma TighterSpelling(a: Node, b: Node, c: Node, op1: string, op2: string, w: seq<Token>)
    requires UnaryForm(a) && UnaryForm(b) && UnaryForm(c)
    ensures SumForm(Node(AddAndSub(op1), [a, Node(MulAndDiv(op2), [b, c])]))
    ensures Tokens(Node(AddAndSub(op1), [a, Node(MulAndDiv(op2), [b, c])])) + w
         == Tokens(a) + [Token(AddAndSubOperator(op1))] + Tokens(b)
            + [Token(MulAndDivOperator(op2))] + Tokens(c) + w
  {
    var m := Node(MulAndDiv(op2), [b, c]);
    var n := Node(AddAndSub(op1), [a, m]);
    assert ProductForm(a) && SumForm(a) && ProductForm(b) && ProductForm(m);
    assert Tokens(m) == Tokens(b) + [Token(MulAndDivOperator(op2))] + Tokens(c);
    assert Tokens(n) == Tokens(a) + [Token(AddAndSubOperator(op1))] + Tokens(m);
  }

  /** `*` and `/` bind tighter than a `+` or `-` on their left. */
  lemma ProductBindsTighter(a: Node, b: Node, c: Node, op1: string, op2: string, w: seq<Token>)
    requires UnaryForm(a) && UnaryForm(b) && UnaryForm(c) && !AddNext(w) && !MulNext(w)
    ensures AddSub(Tokens(a) + [Token(AddAndSubOperator(op1))] + Tokens(b)
                   + [Token(MulAndDivOperator(op2))] + Tokens(c) + w)
         == Ok((Node(AddAndSub(op1), [a, Node(MulAndDiv(op2), [b, c])]), w))
  {
    TighterSpelling(a, b, c, op1, op2, w);
    SumRoundTrip(Node(AddAndSub(op1), [a, Node(MulAndDiv(op2), [b, c])]), w);
  }

  /** `*` and `/` bind tighter than a `+` or `-` on their right. */
  lemma ProductBindsTighterLeft(a: Node, b: Node, c: Node, op1: string, op2: string, w: seq<Token>)
    requires UnaryForm(a) && UnaryForm(b) && UnaryForm(c) && !AddNext(w) && !MulNext(w)
    ensures AddSub(Tokens(a) + [Token(MulAndDivOperator(op2))] + Tokens(b)
                   + [Token(AddAndSubOperator(op1))] + Tokens(c) + w)
         == Ok((Node(AddAndSub(op1), [Node(MulAndDiv(op2), [a, b]), c]), w))
  {
    var m := Node(MulAndDiv(op2), [a, b]);
    var n := Node(AddAndSub(op1), [m, c]);
    assert ProductForm(a) && ProductForm(m) && SumForm(m) && ProductForm(c);
    assert Tokens(m) == Tokens(a) + [Token(MulAndDivOperator(op2))] + Tokens(b);
    assert Tokens(n) == Tokens(m) + [Token(AddAndSubOperator(op1))] + Tokens(c);
    SumRoundTrip(n, w);
    assert Tokens(a) + [Token(MulAndDivOperator(op2))] + Tokens(b)
           + [Token(AddAndSubOperator(op1))] + Tokens(c) + w == Tokens(n) + w;
  }

  /** A bare primary becomes unary `+`; a sign in front of it becomes the operator, so an
      explicit `+` and none give the same tree. */
  lemma UnarySigns(p: Node, op: string, w: seq<Token>)
    requires PrimaryForm(p)
    ensures UnaryExpr(Tokens(p) + w) == Ok((Node(Unary("+"), [p]), w))
    ensures UnaryExpr([Token(AddAndSubOperator(op))] + Tokens(p) + w) == Ok((Node(Unary(op), [p]), w))
  {
    PrimaryRoundTrip(p, w);
    PrimaryStart(p);
    assert [Token(AddAndSubOperator(op))] + Tokens(p) + w == [Token(AddAndSubOperator(op))] + (Tokens(p) + w);
  }

  /** An opening parenthesis whose sum is not followed by `)`: at the end of the tokens,
      or before another token. */
  lemma ParenthesisMustClose(s: Node, t: Token, w: seq<Token>)
    requires SumForm(s)
    requires !t.kind.AddAndSubOperator? && !t.kind.MulAndDivOperator? && t.kind != RParen
    ensures PrimaryExpr([Token(LParen)] + Tokens(s)) == Err(Message("トークンが空"))
    ensures PrimaryExpr([Token(LParen)] + Tokens(s) + [t] + w) == Err(Message("計算式の')'が必要"))
  {
    SumRoundTrip(s, []);
    assert ([Token(LParen)] + Tokens(s))[1..] == Tokens(s) + [];
    SumRoundTrip(s, [t] + w);
    assert ([Token(LParen)] + Tokens(s) + [t] + w)[1..] == Tokens(s) + ([t] + w);
  }

  /** A bool is never an operand: after a sum, `+ true` fails in the unary rule. */
  lemma BoolNotOperand(s: Node, op: string, b: bool, w: seq<Token>)
    requires SumForm(s)
    ensures AddSub(Tokens(s) + [Token(AddAndSubOperator(op)), Token(Bool(b))] + w)
         == Err(UnexpectedToken("unary", Token(Bool(b))))
  {
    var more := [Token(AddAndSubOperator(op)), Token(Bool(b))] + w;
    AddChain(s, more);
    assert Tokens(s) + [Token(AddAndSubOperator(op)), Token(Bool(b))] + w == Tokens(s) + more;
    assert more[1..] == [Token(Bool(b))] + w;
    assert UnaryExpr([Token(Bool(b))] + w) == Err(UnexpectedToken("unary", Token(Bool(b))));
    assert MulDiv(more[1..]) == Err(UnexpectedToken("unary", Token(Bool(b))));
  }

  /** A bool is only a whole argument: one followed by an operator leaves the call
      without its `)`. */
  lemma BoolOnlyWhole(name: string, op: string, b: bool, w: seq<Token>)
    ensures Call([Token(FunctionName(name)), Token(LParen), Token(Bool(b)), Token(AddAndSubOperator(op))] + w)
         == Err(Message("引数の後には')'が必要"))
  {
    var a := Node(Argument, [Node(BoolNode(b), [])]);
    ArgumentRoundTrip(a, [Token(AddAndSubOperator(op))] + w);
    assert [Token(FunctionName(name)), Token(LParen), Token(Bool(b)), Token(AddAndSubOperator(op))] + w
        == [Token(FunctionName(name)), Token(LParen)] + (Tokens(a) + ([Token(AddAndSubOperator(op))] + w));
  }
}
