/** The earliest parser, src/parser.rs: a recursive-descent parser over a peekable token
    iterator that stops at the first error. Each `parse_*` method is a function here from
    the tokens not yet taken to the node it builds and the tokens it leaves, or the error.
    The token type is the one that file imports (a `kind` per token), which is not part of
    this model beyond the kinds the parser matches on. */
module EarlyParsing {
  import opened Wrappers

  /** An `f64` is only carried from a token into a node, never computed on: its bits. */
  datatype F64 = F64(bits: bv64)

  datatype TokenKind =
    | FunctionName(name: string)
    | Str(text: string)
    | Number(number: F64)
    | Bool(b: bool)
    | AddAndSubOperator(op: string)
    | MulAndDivOperator(op: string)
    | CompareOperator(op: string)
    | LParen
    | RParen
    | Semicolon
    | EOF
    /** Any kind the parser has no arm for. */
    | Other(description: string)

  datatype Token = Token(kind: TokenKind)

  datatype NodeKind =
    | Program
    | FunctionCall(name: string)
    | Argument
    | Expression
    | Compare(operator: string)
    | AddAndSub(operator: string)
    | MulAndDiv(operator: string)
    | Unary(operator: string)
    | Primary
    | StringNode(value: string)
    | NumberNode(number: F64)
    | BoolNode(b: bool)

  datatype Node = Node(kind: NodeKind, children: seq<Node>)

  /** A fixed message, or a message that prints the offending token with `{:?}` after the
      name of the rule that met it ("program", "value", "unary", "primary"). */
  datatype ParseError = Message(text: string) | UnexpectedToken(rule: string, token: Token)

  /** A node and the tokens left after it, or the first error. */
  type Parsed = Result<(Node, seq<Token>), ParseError>

  /** A successful parse takes at least one token. */
  predicate Leaves(ts: seq<Token>, r: Parsed) {
    r.Ok? ==> |r.value.1| < |ts|
  }

  // ---------------------------------------------------------------- grammar shapes

  /** The shape `parse_add_and_sub` builds: a left-leaning chain of `AddAndSub` nodes
      whose right operands are products. */
  predicate SumForm(n: Node)
    ensures SumForm(n) ==> n.kind.AddAndSub? || n.kind.MulAndDiv? || n.kind.Unary?
    decreases n, 3
  {
    if n.kind.AddAndSub?
    then |n.children| == 2 && SumForm(n.children[0]) && ProductForm(n.children[1])
    else ProductForm(n)
  }

  /** The shape `parse_mul_and_div` builds: a left-leaning chain of `MulAndDiv` nodes
      over unary operands. */
  predicate ProductForm(n: Node)
    ensures ProductForm(n) ==> n.kind.MulAndDiv? || n.kind.Unary?
    decreases n, 2
  {
    if n.kind.MulAndDiv?
    then |n.children| == 2 && ProductForm(n.children[0]) && UnaryForm(n.children[1])
    else UnaryForm(n)
  }

  predicate UnaryForm(n: Node)
    decreases n, 1
  {
    n.kind.Unary? && |n.children| == 1 && PrimaryForm(n.children[0])
  }

  /** A number, or a parenthesised sum. */
  predicate PrimaryForm(n: Node)
    decreases n, 0
  {
    n.kind.Primary? && |n.children| == 1
    && (if n.children[0].kind.NumberNode? then n.children[0].children == [] else SumForm(n.children[0]))
  }

  /** What `parse_value` yields: a sum or a string leaf. */
  predicate ValueForm(n: Node) {
    SumForm(n) || (n.kind.StringNode? && n.children == [])
  }

  /** One value under `Compare("")`, or two values under any operator. */
  predicate CompareForm(n: Node) {
    n.kind.Compare?
    && ((|n.children| == 1 && n.kind.operator == "" && ValueForm(n.children[0]))
        || (|n.children| == 2 && ValueForm(n.children[0]) && ValueForm(n.children[1])))
  }

  predicate ExpressionForm(n: Node) {
    n.kind == Expression && |n.children| == 1 && CompareForm(n.children[0])
  }

  /** An expression, or a bool leaf standing for the whole argument. */
  predicate ArgumentForm(n: Node) {
    n.kind == Argument && |n.children| == 1
    && (ExpressionForm(n.children[0]) || (n.children[0].kind.BoolNode? && n.children[0].children == []))
  }

  predicate CallForm(n: Node) {
    n.kind.FunctionCall? && |n.children| == 1 && ArgumentForm(n.children[0])
  }

  predicate ProgramForm(n: Node) {
    n.kind == Program && forall c <- n.children :: CallForm(c)
  }

  // ---------------------------------------------------------------- leaves

  /** `parse_string`. */
  function StringLit(ts: seq<Token>): (r: Parsed)
    ensures Leaves(ts, r)
    ensures r.Ok? <==> ts != [] && ts[0].kind.Str?
    ensures r.Ok? ==> r.value == (Node(StringNode(ts[0].kind.text), []), ts[1..])
  {
    if ts == [] then Err(Message("トークンが空"))
    else if ts[0].kind.Str? then Ok((Node(StringNode(ts[0].kind.text), []), ts[1..]))
    else Err(Message("想定外のString型"))
  }

  /** `parse_number`. */
  function NumberLit(ts: seq<Token>): (r: Parsed)
    ensures Leaves(ts, r)
    ensures r.Ok? <==> ts != [] && ts[0].kind.Number?
    ensures r.Ok? ==> r.value == (Node(NumberNode(ts[0].kind.number), []), ts[1..])
  {
    if ts == [] then Err(Message("空のトークン"))
    else if ts[0].kind.Number? then Ok((Node(NumberNode(ts[0].kind.number), []), ts[1..]))
    else Err(Message("想定外のNumber型"))
  }

  /** `parse_bool`. */
  function BoolLit(ts: seq<Token>): (r: Parsed)
    ensures Leaves(ts, r)
    ensures r.Ok? <==> ts != [] && ts[0].kind.Bool?
    ensures r.Ok? ==> r.value == (Node(BoolNode(ts[0].kind.b), []), ts[1..])
  {
    if ts == [] then Err(Message("空のトークン"))
    else if ts[0].kind.Bool? then Ok((Node(BoolNode(ts[0].kind.b), []), ts[1..]))
    else Err(Message("想定外のbool型"))
  }

  // ---------------------------------------------------------------- arithmetic

  /** `parse_add_and_sub`. */
  function AddSub(ts: seq<Token>): (r: Parsed)
    ensures Leaves(ts, r)
    ensures r.Ok? ==> SumForm(r.value.0)
    decreases |ts|, 3
  {
    var (left, rest) :- MulDiv(ts);
    AddSubLoop(left, rest)
  }

  /** The `while let` of `parse_add_and_sub`: each `+`/`-` takes the tree so far as its
      left operand. */
  function AddSubLoop(left: Node, ts: seq<Token>): (r: Parsed)
    requires SumForm(left)
    ensures r.Ok? ==> |r.value.1| <= |ts|
    ensures r.Ok? ==> SumForm(r.value.0)
    decreases |ts|, 4
  {
    if ts != [] && ts[0].kind.AddAndSubOperator? then
      var right :- MulDiv(ts[1..]);
      var sum := Node(AddAndSub(ts[0].kind.op), [left, right.0]);
      assert SumForm(sum);
      AddSubLoop(sum, right.1)
    else Ok((left, ts))
  }

  /** `parse_mul_and_div`. */
  function MulDiv(ts: seq<Token>): (r: Parsed)
    ensures Leaves(ts, r)
    ensures r.Ok? ==> ProductForm(r.value.0)
    decreases |ts|, 2
  {
    var (left, rest) :- UnaryExpr(ts);
    MulDivLoop(left, rest)
  }

  /** The `while let` of `parse_mul_and_div`. */
  function MulDivLoop(left: Node, ts: seq<Token>): (r: Parsed)
    requires ProductForm(left)
    ensures r.Ok? ==> |r.value.1| <= |ts|
    ensures r.Ok? ==> ProductForm(r.value.0)
    decreases |ts|, 4
  {
    if ts != [] && ts[0].kind.MulAndDivOperator? then
      var right :- UnaryExpr(ts[1..]);
      var product := Node(MulAndDiv(ts[0].kind.op), [left, right.0]);
      assert ProductForm(product);
      MulDivLoop(product, right.1)
    else Ok((left, ts))
  }

  /** `parse_unary`: a bare primary is wrapped as unary `+`. */
  function UnaryExpr(ts: seq<Token>): (r: Parsed)
    ensures Leaves(ts, r)
    ensures r.Ok? ==> UnaryForm(r.value.0)
    decreases |ts|, 1
  {
    if ts == [] then Err(Message("空のノード"))
    else match ts[0].kind
      case Number(_) =>
        var (p, rest) :- PrimaryExpr(ts);
        Ok((Node(Unary("+"), [p]), rest))
      case LParen =>
        var (p, rest) :- PrimaryExpr(ts);
        Ok((Node(Unary("+"), [p]), rest))
      case AddAndSubOperator(op) =>
        var (p, rest) :- PrimaryExpr(ts[1..]);
        Ok((Node(Unary(op), [p]), rest))
      case _ => Err(UnexpectedToken("unary", ts[0]))
  }

  /** `parse_primary`: a number, or a parenthesised sum that must close. */
  function PrimaryExpr(ts: seq<Token>): (r: Parsed)
    ensures Leaves(ts, r)
    ensures r.Ok? ==> PrimaryForm(r.value.0)
    decreases |ts|, 0
  {
    if ts == [] then Err(Message("トークンが空"))
    else match ts[0].kind
      case Number(_) =>
        (match NumberLit(ts)
         case Ok((n, rest)) => Ok((Node(Primary, [n]), rest))
         case Err(e) => Err(e))
      case LParen =>
        var (e, rest) :- AddSub(ts[1..]);
        if rest == [] then Err(Message("トークンが空"))
        else if rest[0].kind == RParen then Ok((Node(Primary, [e]), rest[1..]))
        else Err(Message("計算式の')'が必要"))
      case _ => Err(UnexpectedToken("primary", ts[0]))
  }

  // ---------------------------------------------------------------- expressions

  /** `parse_value`: arithmetic or a string; a bool is not a value. */
  function Value(ts: seq<Token>): (r: Parsed)
    ensures Leaves(ts, r)
    ensures r.Ok? ==> ValueForm(r.value.0)
  {
    if ts == [] then Err(Message("トークンが空"))
    else match ts[0].kind
      case Number(_) => AddSub(ts)
      case AddAndSubOperator(_) => AddSub(ts)
      case LParen => AddSub(ts)
      case Str(_) => StringLit(ts)
      case _ => Err(UnexpectedToken("value", ts[0]))
  }

  /** `parse_compare`: at most one comparison operator. */
  function CompareExpr(ts: seq<Token>): (r: Parsed)
    ensures Leaves(ts, r)
    ensures r.Ok? ==> CompareForm(r.value.0)
  {
    var (left, rest) :- Value(ts);
    if rest == [] then Err(Message("トークンが空"))
    else if rest[0].kind.CompareOperator? then
      var (right, rest2) :- Value(rest[1..]);
      Ok((Node(Compare(rest[0].kind.op), [left, right]), rest2))
    else Ok((Node(Compare(""), [left]), rest))
  }

  /** `parse_expression`. */
  function ExpressionNode(ts: seq<Token>): (r: Parsed)
    ensures Leaves(ts, r)
    ensures r.Ok? ==> ExpressionForm(r.value.0)
  {
    var (c, rest) :- CompareExpr(ts);
    Ok((Node(Expression, [c]), rest))
  }

  /** `parse_argument`: an expression, or a bool on its own. */
  function ArgumentNode(ts: seq<Token>): (r: Parsed)
    ensures Leaves(ts, r)
    ensures r.Ok? ==> ArgumentForm(r.value.0)
  {
    if ts == [] then Err(Message("トークンが空"))
    else match ts[0].kind
      case Str(_) =>
        var (e, rest) :- ExpressionNode(ts);
        Ok((Node(Argument, [e]), rest))
      case Number(_) =>
        var (e, rest) :- ExpressionNode(ts);
        Ok((Node(Argument, [e]), rest))
      case AddAndSubOperator(_) =>
        var (e, rest) :- ExpressionNode(ts);
        Ok((Node(Argument, [e]), rest))
      case LParen =>
        var (e, rest) :- ExpressionNode(ts);
        Ok((Node(Argument, [e]), rest))
      case Bool(_) =>
        (match BoolLit(ts)
         case Ok((b, rest)) => Ok((Node(Argument, [b]), rest))
         case Err(e) => Err(e))
      case _ => Err(Message("引数は(string, number, bool)のみ"))
  }

  // ---------------------------------------------------------------- statements

  /** `parse_function_call`: name, `(`, argument, `)`, `;`, each with its own error. */
  function Call(ts: seq<Token>): (r: Parsed)
    ensures Leaves(ts, r)
    ensures r.Ok? ==> CallForm(r.value.0)
  {
    if ts == [] then Err(Message("トークンが不足"))
    else if !ts[0].kind.FunctionName? then Err(Message("想定外の関数呼び出し"))
    else
      var ts1 := ts[1..];
      if ts1 == [] then Err(Message("'('が不足"))
      else if ts1[0].kind != LParen then Err(Message("関数名の後には'('が必要"))
      else
        var (argument, ts2) :- ArgumentNode(ts1[1..]);
        if ts2 == [] then Err(Message("')'が不足"))
        else if ts2[0].kind != RParen then Err(Message("引数の後には')'が必要"))
        else
          var ts3 := ts2[1..];
          if ts3 == [] then Err(Message("';'が不足"))
          else if ts3[0].kind != Semicolon then Err(Message("関数呼び出しの後には';'が必要"))
          else Ok((Node(FunctionCall(ts[0].kind.name), [argument]), ts3[1..]))
  }

  /** The loop of `parse_program`: calls until EOF (consumed) or the end of the tokens. */
  function ProgramLoop(ts: seq<Token>, children: seq<Node>): (r: Parsed)
    ensures r.Ok? ==> r.value.0.kind == Program && |r.value.0.children| >= |children|
    ensures r.Ok? ==> r.value.0.children[..|children|] == children
    ensures r.Ok? && (forall c <- children :: CallForm(c)) ==> ProgramForm(r.value.0)
    decreases |ts|
  {
    if ts == [] then Ok((Node(Program, children), ts))
    else match ts[0].kind
      case FunctionName(_) =>
        var (call, rest) :- Call(ts);
        var r := ProgramLoop(rest, children + [call]);
        if r.Ok? then
          assert r.value.0.children[..|children|] == r.value.0.children[..|children| + 1][..|children|];
          r
        else r
      case EOF => Ok((Node(Program, children), ts[1..]))
      case _ => Err(UnexpectedToken("program", ts[0]))
  }

  /** `parse_program`. */
  function ProgramNode(ts: seq<Token>): (r: Parsed)
    ensures r.Ok? ==> ProgramForm(r.value.0)
  {
    ProgramLoop(ts, [])
  }

  /** `parse`: the tree of every successful parse has the shape the grammar describes. */
  function Parse(tokens: seq<Token>): (r: Result<Node, ParseError>)
    ensures r.Ok? ==> ProgramForm(r.value)
  {
    var (node, _) :- ProgramNode(tokens);
    Ok(node)
  }
}
