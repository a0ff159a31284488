/** src/utils/ast_to_json.rs: the summary of a parsed program that the crate writes out as
    JSON. Each function and coroutine gets a `Definition` (its name, its kind and its doc
    comment), and the walk of its block collects a stack of `Data` entries: one per call of
    a function other than `print`, and one per doc comment inside the body. The walk and
    the collection update their objects in place, as the source does; the functions below
    say what they leave, and the lemmas what that means. */
module AstJson {
  import opened Wrappers
  import opened LateSyntax
  import Semantics

  /** `Definition`: `type` is `kind` here. */
  datatype Definition = Definition(name: string, kind: string, doc: string)

  /** The one-field object `serde_json::json!({key: value})` that each entry carries. */
  datatype JsonField = JsonField(key: string, value: string)

  /** `Data` (built by `Data::new`): `type` is `kind` here. */
  datatype Data = Data(kind: string, data: JsonField)

  /** `Definition::new`: an absent doc comment is written as the empty string. */
  function NewDefinition(name: string, kind: string, doc: Option<string>): Definition {
    Definition(name, kind, match doc case Some(text) => text case None => "")
  }

  /** The entry pushed for a call of `target`. */
  function CallEntry(target: string): Data {
    Data("function_call", JsonField("target", target))
  }

  /** The entry pushed for a doc comment inside a body. */
  function DocEntry(text: string): Data {
    Data("doc", JsonField("string", text))
  }

  /** The only entries the walk ever pushes: a call of something other than `print`, or a
      doc comment. */
  predicate Recorded(d: Data) {
    (d.kind == "function_call" && d.data.key == "target" && d.data.value != "print")
    || (d.kind == "doc" && d.data.key == "string")
  }

  predicate AllRecorded(ds: seq<Data>) {
    forall i :: 0 <= i < |ds| ==> Recorded(ds[i])
  }

  // The walk, as values.

  /** What `analyze_ast` pushes for one node. */
  function NodeEntries(n: PrivateNode): (r: seq<Data>)
    ensures AllRecorded(r)
    decreases Semantics.Size(n), 1
  {
    match n
    case IfStatement(_, thenBlock, elseBlock) =>
      SequenceEntries(thenBlock.statements)
      + (match elseBlock case Some(b) => SequenceEntries(b.statements) case None => [])
    case LoopStatement(_, block) => SequenceEntries(block.statements)
    case VariableDeclaration(_, _, initializer, _) =>
      (match initializer case Some(i) => NodeEntries(i) case None => [])
    case VariableAssignment(_, expression) => NodeEntries(expression)
    case FunctionCall(name, arguments, _) =>
      (if name != "print" then [CallEntry(name)] else []) + SequenceEntries(arguments)
    case ProcessComment(comment) => [DocEntry(comment)]
    case _ => []
  }

  /** What visiting `ns` in order pushes (the statements of a block, or call arguments). */
  function SequenceEntries(ns: seq<PrivateNode>): (r: seq<Data>)
    ensures AllRecorded(r)
    decreases Semantics.SeqSize(ns), 2
  {
    if |ns| == 0 then [] else NodeEntries(ns[0]) + SequenceEntries(ns[1..])
  }

  /** What `analyze_block` pushes. */
  function BlockEntries(b: BlockNode): seq<Data> {
    SequenceEntries(b.statements)
  }

  // An independent account of the walk: the nodes it visits, in order, and what each
  // one contributes on its own.

  /** The nodes `analyze_ast` reaches from `n`, in the order it reaches them. Conditions,
      operands of operators and returned values are not among them. */
  function Visited(n: PrivateNode): seq<PrivateNode>
    decreases Semantics.Size(n), 1
  {
    [n] + match n
      case IfStatement(_, thenBlock, elseBlock) =>
        VisitedAll(thenBlock.statements)
        + (match elseBlock case Some(b) => VisitedAll(b.statements) case None => [])
      case LoopStatement(_, block) => VisitedAll(block.statements)
      case VariableDeclaration(_, _, initializer, _) =>
        (match initializer case Some(i) => Visited(i) case None => [])
      case VariableAssignment(_, expression) => Visited(expression)
      case FunctionCall(_, arguments, _) => VisitedAll(arguments)
      case _ => []
  }

  function VisitedAll(ns: seq<PrivateNode>): seq<PrivateNode>
    decreases Semantics.SeqSize(ns), 2
  {
    if |ns| == 0 then [] else Visited(ns[0]) + VisitedAll(ns[1..])
  }

  /** What a visited node pushes before its children are visited. */
  function Own(n: PrivateNode): seq<Data> {
    match n
    case FunctionCall(name, _, _) => if name != "print" then [CallEntry(name)] else []
    case ProcessComment(comment) => [DocEntry(comment)]
    case _ => []
  }

  function OwnAll(ns: seq<PrivateNode>): seq<Data> {
    if |ns| == 0 then [] else Own(ns[0]) + OwnAll(ns[1..])
  }

  lemma {:induction false} OwnAllAppend(a: seq<PrivateNode>, b: seq<PrivateNode>)
    ensures OwnAll(a + b) == OwnAll(a) + OwnAll(b)
  {
    if |a| > 0 {
      assert (a + b)[1..] == a[1..] + b;
      assert (a + b)[0] == a[0];
      OwnAllAppend(a[1..], b);
    } else {
      assert a + b == b;
    }
  }

  /** The walk pushes exactly the entries of the nodes it visits, in visiting order. */
  lemma {:induction false} EntriesOfVisited(n: PrivateNode)
    ensures NodeEntries(n) == OwnAll(Visited(n))
    decreases Semantics.Size(n), 1
  {
    var children := Visited(n)[1..];
    assert Visited(n) == [n] + children;
    OwnAllAppend([n], children);
    assert OwnAll(Visited(n)) == Own(n) + OwnAll(children);
    if n.IfStatement? {
      IfEntriesOfVisited(n);
    } else if n.LoopStatement? {
      EntriesOfVisitedAll(n.block.statements);
    } else if n.VariableDeclaration? {
      if n.initializer.Some? {
        EntriesOfVisited(n.initializer.value);
      }
    } else if n.VariableAssignment? {
      EntriesOfVisited(n.expression);
    } else if n.FunctionCall? {
      EntriesOfVisitedAll(n.arguments);
    } else if !n.ProcessComment? {
      SilentNodes(n);
    }
  }

  lemma {:induction false} IfEntriesOfVisited(n: PrivateNode)
    requires n.IfStatement?
    ensures NodeEntries(n) == OwnAll(Visited(n)[1..])
    decreases Semantics.Size(n), 0
  {
    var thenNodes := VisitedAll(n.thenBlock.statements);
    EntriesOfVisitedAll(n.thenBlock.statements);
    if n.elseBlock.Some? {
      var elseNodes := VisitedAll(n.elseBlock.value.statements);
      assert Visited(n)[1..] == thenNodes + elseNodes;
      EntriesOfVisitedAll(n.elseBlock.value.statements);
      OwnAllAppend(thenNodes, elseNodes);
    } else {
      assert Visited(n)[1..] == thenNodes;
    }
  }

  lemma {:induction false} EntriesOfVisitedAll(ns: seq<PrivateNode>)
    ensures SequenceEntries(ns) == OwnAll(VisitedAll(ns))
    decreases Semantics.SeqSize(ns), 2
  {
    if |ns| > 0 {
      EntriesOfVisited(ns[0]);
      EntriesOfVisitedAll(ns[1..]);
      OwnAllAppend(Visited(ns[0]), VisitedAll(ns[1..]));
    }
  }

  /** Statements are visited in order: the entries of two runs of statements are those of
      the first followed by those of the second. */
  lemma {:induction false} SequenceEntriesAppend(a: seq<PrivateNode>, b: seq<PrivateNode>)
    ensures SequenceEntries(a + b) == SequenceEntries(a) + SequenceEntries(b)
  {
    if |a| > 0 {
      assert (a + b)[1..] == a[1..] + b;
      assert (a + b)[0] == a[0];
      SequenceEntriesAppend(a[1..], b);
    } else {
      assert a + b == b;
    }
  }

  /** A call pushes its one entry before those of its arguments; a call of `print` pushes
      none of its own. */
  lemma CallEntries(name: string, arguments: seq<PrivateNode>, returnFlg: bool)
    ensures name != "print" ==>
      NodeEntries(FunctionCall(name, arguments, returnFlg)) == [CallEntry(name)] + SequenceEntries(arguments)
    ensures name == "print" ==>
      NodeEntries(FunctionCall(name, arguments, returnFlg)) == SequenceEntries(arguments)
  {
  }

  /** Nodes outside the visited kinds push nothing, and nothing is pushed for anything
      inside them. */
  lemma SilentNodes(n: PrivateNode)
    requires !(n.IfStatement? || n.LoopStatement? || n.VariableDeclaration? || n.VariableAssignment?
               || n.FunctionCall? || n.ProcessComment?)
    ensures Visited(n) == [n] && NodeEntries(n) == []
  {
  }

  // The collection, as values.

  /** One definition the collection visits: its name, its kind, its doc comment and body. */
  datatype Item = Item(name: string, kind: string, doc: Option<string>, block: BlockNode)

  function FunctionItems(fs: seq<FunctionDefinitionNode>): seq<Item> {
    if |fs| == 0 then []
    else
      var f := fs[|fs| - 1];
      FunctionItems(fs[..|fs| - 1]) + [Item(f.name, "function", f.doc, f.block)]
  }

  function CoroutineItems(cs: seq<CoroutineDefinitionNode>): seq<Item> {
    if |cs| == 0 then []
    else
      var c := cs[|cs| - 1];
      CoroutineItems(cs[..|cs| - 1]) + [Item(c.name, "coroutine", c.doc, c.block)]
  }

  /** The order of `ast_to_json`: the functions, then the coroutines. */
  function Items(ast: RootNode): seq<Item> {
    FunctionItems(ast.functions) + CoroutineItems(ast.coroutines)
  }

  function Definitions(items: seq<Item>): seq<Definition> {
    if |items| == 0 then []
    else
      var i := items[|items| - 1];
      Definitions(items[..|items| - 1]) + [NewDefinition(i.name, i.kind, i.doc)]
  }

  /** `structures` after inserting `items` in order into `m`. */
  function Structures(m: map<string, seq<Data>>, items: seq<Item>): map<string, seq<Data>> {
    if |items| == 0 then m
    else
      var i := items[|items| - 1];
      Structures(m, items[..|items| - 1])[i.name := BlockEntries(i.block)]
  }

  /** The seed the collection starts from. */
  function Collected(ast: RootNode): (seq<Definition>, map<string, seq<Data>>) {
    (Definitions(Items(ast)), Structures(map[], Items(ast)))
  }

  lemma {:induction false} DefinitionsAt(items: seq<Item>)
    ensures |Definitions(items)| == |items|
    ensures forall i :: 0 <= i < |items| ==>
      Definitions(items)[i] == NewDefinition(items[i].name, items[i].kind, items[i].doc)
  {
    if |items| > 0 {
      DefinitionsAt(items[..|items| - 1]);
    }
  }

  lemma {:induction false} FunctionItemsAt(fs: seq<FunctionDefinitionNode>)
    ensures |FunctionItems(fs)| == |fs|
    ensures forall i :: 0 <= i < |fs| ==>
      FunctionItems(fs)[i] == Item(fs[i].name, "function", fs[i].doc, fs[i].block)
  {
    if |fs| > 0 {
      FunctionItemsAt(fs[..|fs| - 1]);
    }
  }

  lemma {:induction false} CoroutineItemsAt(cs: seq<CoroutineDefinitionNode>)
    ensures |CoroutineItems(cs)| == |cs|
    ensures forall i :: 0 <= i < |cs| ==>
      CoroutineItems(cs)[i] == Item(cs[i].name, "coroutine", cs[i].doc, cs[i].block)
  {
    if |cs| > 0 {
      CoroutineItemsAt(cs[..|cs| - 1]);
    }
  }

  /** `definitions` holds one entry per function, in source order, then one per coroutine;
      an absent doc comment becomes "". */
  lemma DefinitionsInOrder(ast: RootNode)
    ensures |Definitions(Items(ast))| == |ast.functions| + |ast.coroutines|
    ensures forall i :: 0 <= i < |ast.functions| ==>
      var d, f := Definitions(Items(ast))[i], ast.functions[i];
      d.name == f.name && d.kind == "function" && d.doc == (if f.doc.Some? then f.doc.value else "")
    ensures forall j :: 0 <= j < |ast.coroutines| ==>
      var d, c := Definitions(Items(ast))[|ast.functions| + j], ast.coroutines[j];
      d.name == c.name && d.kind == "coroutine" && d.doc == (if c.doc.Some? then c.doc.value else "")
  {
    DefinitionsAt(Items(ast));
    FunctionItemsAt(ast.functions);
    CoroutineItemsAt(ast.coroutines);
  }

  /** `structures` has a key for each definition name, and no other new key. */
  lemma {:induction false} StructureKeys(m: map<string, seq<Data>>, items: seq<Item>)
    ensures forall name :: name in Structures(m, items) <==>
      name in m || exists i :: 0 <= i < |items| && items[i].name == name
  {
    if |items| > 0 {
      var front := items[..|items| - 1];
      StructureKeys(m, front);
      assert forall i :: 0 <= i < |front| ==> front[i] == items[i];
    }
  }

  /** A name is mapped to the walk of the LAST definition carrying it: a later function or
      coroutine of the same name overwrites an earlier one. */
  lemma {:induction false} LastDefinitionWins(m: map<string, seq<Data>>, items: seq<Item>, k: nat)
    requires k < |items|
    requires forall j :: k < j < |items| ==> items[j].name != items[k].name
    ensures items[k].name in Structures(m, items)
    ensures Structures(m, items)[items[k].name] == BlockEntries(items[k].block)
  {
    var front := items[..|items| - 1];
    if k < |items| - 1 {
      assert front[k] == items[k];
      LastDefinitionWins(m, front, k);
    }
  }

  /** A name no definition carries keeps whatever `structures` held for it. */
  lemma {:induction false} UnnamedKept(m: map<string, seq<Data>>, items: seq<Item>, name: string)
    requires forall j :: 0 <= j < |items| ==> items[j].name != name
    ensures name in Structures(m, items) <==> name in m
    ensures name in m ==> Structures(m, items)[name] == m[name]
  {
    if |items| > 0 {
      var front := items[..|items| - 1];
      assert forall j :: 0 <= j < |front| ==> front[j] == items[j];
      UnnamedKept(m, front, name);
    }
  }

  /** Every entry of every structure is a non-`print` call or a doc comment. */
  lemma {:induction false} StructuresRecorded(m: map<string, seq<Data>>, items: seq<Item>)
    requires forall name :: name in m ==> AllRecorded(m[name])
    ensures forall name :: name in Structures(m, items) ==> AllRecorded(Structures(m, items)[name])
  {
    if |items| > 0 {
      StructuresRecorded(m, items[..|items| - 1]);
    }
  }

  /** Collecting two runs of definitions one after the other lists the first run's
      definitions, then the second's. */
  lemma {:induction false} DefinitionsAppend(a: seq<Item>, b: seq<Item>)
    ensures Definitions(a + b) == Definitions(a) + Definitions(b)
  {
    if |b| == 0 {
      assert a + b == a;
    } else {
      assert (a + b)[..|a + b| - 1] == a + b[..|b| - 1];
      DefinitionsAppend(a, b[..|b| - 1]);
    }
  }

  /** Inserting two runs one after the other is inserting the second into the result of
      the first. */
  lemma {:induction false} StructuresAppend(m: map<string, seq<Data>>, a: seq<Item>, b: seq<Item>)
    ensures Structures(m, a + b) == Structures(Structures(m, a), b)
  {
    if |b| == 0 {
      assert a + b == a;
    } else {
      assert (a + b)[..|a + b| - 1] == a + b[..|b| - 1];
      StructuresAppend(m, a, b[..|b| - 1]);
    }
  }

  /** Recording one more item extends both results by that item. */
  lemma AfterItem(ds: seq<Definition>, m: map<string, seq<Data>>, front: seq<Item>, items: seq<Item>)
    requires |items| > 0 && items[..|items| - 1] == front
    ensures ds + Definitions(items)
         == ds + Definitions(front) + [NewDefinition(items[|front|].name, items[|front|].kind, items[|front|].doc)]
    ensures Structures(m, items) == Structures(m, front)[items[|front|].name := BlockEntries(items[|front|].block)]
  {
  }

  // The objects.

  /** `AnalyzeAst`: the stack the walk pushes onto. */
  class AstAnalyzer {
    var stack: seq<Data>

    constructor()
      ensures stack == []
    {
      stack := [];
    }

    /** `analyze_block`. */
    method AnalyzeBlock(block: BlockNode)
      modifies this
      ensures stack == old(stack) + BlockEntries(block)
      decreases Semantics.SeqSize(block.statements), 3
    {
      AnalyzeAll(block.statements);
    }

    /** The `for` loop of `analyze_block`, shared with the argument loop of a call. */
    method AnalyzeAll(ns: seq<PrivateNode>)
      modifies this
      ensures stack == old(stack) + SequenceEntries(ns)
      decreases Semantics.SeqSize(ns), 2
    {
      for i := 0 to |ns|
        invariant stack == old(stack) + SequenceEntries(ns[..i])
      {
        Semantics.SeqSizeElement(ns, i);
        AnalyzeAst(ns[i]);
        SequenceEntriesAppend(ns[..i], [ns[i]]);
        assert ns[..i + 1] == ns[..i] + [ns[i]];
        assert SequenceEntries([ns[i]]) == NodeEntries(ns[i]) + SequenceEntries([]);
      }
      assert ns[..|ns|] == ns;
    }

    /** `analyze_ast`: the arms that descend into blocks, initialisers and right-hand sides. */
    method AnalyzeAst(n: PrivateNode)
      modifies this
      ensures stack == old(stack) + NodeEntries(n)
      decreases Semantics.Size(n), 1
    {
      if n.IfStatement? {
        AnalyzeBlock(n.thenBlock);
        if n.elseBlock.Some? {
          AnalyzeBlock(n.elseBlock.value);
        }
      } else if n.LoopStatement? {
        AnalyzeBlock(n.block);
      } else if n.VariableDeclaration? {
        if n.initializer.Some? {
          AnalyzeAst(n.initializer.value);
        }
      } else if n.VariableAssignment? {
        AnalyzeAst(n.expression);
      } else {
        AnalyzeCallOrComment(n);
      }
    }

    /** The remaining arms of `analyze_ast`: a call, a doc comment, and every other node. */
    method AnalyzeCallOrComment(n: PrivateNode)
      requires !(n.IfStatement? || n.LoopStatement? || n.VariableDeclaration? || n.VariableAssignment?)
      modifies this
      ensures stack == old(stack) + NodeEntries(n)
      decreases Semantics.Size(n), 0
    {
      if n.FunctionCall? {
        if n.name != "print" {
          stack := stack + [CallEntry(n.name)];
        }
        AnalyzeAll(n.arguments);
      } else if n.ProcessComment? {
        stack := stack + [DocEntry(n.comment)];
      } else {
        SilentNodes(n);
      }
    }
  }

  /** `AnalyzeAst::new`: the stack a fresh walk of `block` leaves. */
  method Analyze(block: BlockNode) returns (stack: seq<Data>)
    ensures stack == BlockEntries(block)
    ensures AllRecorded(stack)
  {
    var analyzer := new AstAnalyzer();
    analyzer.AnalyzeBlock(block);
    stack := analyzer.stack;
  }

  /** `JsonData`. */
  class JsonData {
    var definitions: seq<Definition>
    var structures: map<string, seq<Data>>

    constructor()
      ensures definitions == [] && structures == map[]
    {
      definitions := [];
      structures := map[];
    }

    /** One iteration of either loop of `ast_to_json`. */
    method Add(name: string, kind: string, doc: Option<string>, block: BlockNode)
      modifies this
      ensures definitions == old(definitions) + [NewDefinition(name, kind, doc)]
      ensures structures == old(structures)[name := BlockEntries(block)]
    {
      definitions := definitions + [NewDefinition(name, kind, doc)];
      var stack := Analyze(block);
      structures := structures[name := stack];
    }

    /** The collection part of `ast_to_json`: the functions, then the coroutines. */
    method AstToJson(ast: RootNode)
      modifies this
      ensures definitions == old(definitions) + Definitions(Items(ast))
      ensures structures == Structures(old(structures), Items(ast))
    {
      AddFunctions(ast.functions);
      AddCoroutines(ast.coroutines);
      DefinitionsAppend(FunctionItems(ast.functions), CoroutineItems(ast.coroutines));
      StructuresAppend(old(structures), FunctionItems(ast.functions), CoroutineItems(ast.coroutines));
    }

    /** The first loop of `ast_to_json`. */
    method AddFunctions(fs: seq<FunctionDefinitionNode>)
      modifies this
      ensures definitions == old(definitions) + Definitions(FunctionItems(fs))
      ensures structures == Structures(old(structures), FunctionItems(fs))
    {
      for i := 0 to |fs|
        invariant definitions == old(definitions) + Definitions(FunctionItems(fs[..i]))
        invariant structures == Structures(old(structures), FunctionItems(fs[..i]))
      {
        Add(fs[i].name, "function", fs[i].doc, fs[i].block);
        assert fs[..i + 1][..i] == fs[..i];
        AfterItem(old(definitions), old(structures), FunctionItems(fs[..i]), FunctionItems(fs[..i + 1]));
      }
      assert fs[..|fs|] == fs;
    }

    /** The second loop of `ast_to_json`. */
    method AddCoroutines(cs: seq<CoroutineDefinitionNode>)
      modifies this
      ensures definitions == old(definitions) + Definitions(CoroutineItems(cs))
      ensures structures == Structures(old(structures), CoroutineItems(cs))
    {
      for j := 0 to |cs|
        invariant definitions == old(definitions) + Definitions(CoroutineItems(cs[..j]))
        invariant structures == Structures(old(structures), CoroutineItems(cs[..j]))
      {
        Add(cs[j].name, "coroutine", cs[j].doc, cs[j].block);
        assert cs[..j + 1][..j] == cs[..j];
        AfterItem(old(definitions), old(structures), CoroutineItems(cs[..j]), CoroutineItems(cs[..j + 1]));
      }
      assert cs[..|cs|] == cs;
    }
  }

  /** `JsonData::new` without the output: the definitions and structures a fresh
      collection of `ast` holds. */
  method Collect(ast: RootNode) returns (definitions: seq<Definition>, structures: map<string, seq<Data>>)
    ensures (definitions, structures) == Collected(ast)
    ensures |definitions| == |ast.functions| + |ast.coroutines|
    ensures forall name :: name in structures ==> AllRecorded(structures[name])
  {
    var data := new JsonData();
    data.AstToJson(ast);
    definitions, structures := data.definitions, data.structures;
    assert definitions == Definitions(Items(ast));
    DefinitionsInOrder(ast);
    StructuresRecorded(map[], Items(ast));
  }
}
