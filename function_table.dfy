/** src/analyzer/function_table.rs: the analyzer's ordered table of function
    signatures, seeded with the built-in `print`. */
module FunctionTables {
  import opened Wrappers
  import opened Types
  import opened LateSyntax
  import opened VariableTables

  datatype FunctionInfo = FunctionInfo(name: string, doc: string, parameters: seq<ParameterNode>,
                                       returnType: Option<Type>, localVariables: VariableScope,
                                       isVariadic: bool, process: BlockNode)

  /** A missing doc comment is stored as the empty string. */
  function DocOrEmpty(doc: Option<string>): (d: string)
    ensures doc.Some? ==> d == doc.value
    ensures doc.None? ==> d == ""
  {
    match doc
    case Some(text) => text
    case None => ""
  }

  /** The entry `function_definition` stores: the given signature and body, no local
      variables yet. */
  function DefinedInfo(name: string, doc: Option<string>, parameters: seq<ParameterNode>,
                       returnType: Option<Type>, isVariadic: bool, block: BlockNode): FunctionInfo
  {
    FunctionInfo(name, DocOrEmpty(doc), parameters, returnType, NewScope(None), isVariadic, block)
  }

  /** The entry `new` seeds. */
  const PrintInfo: FunctionInfo :=
    DefinedInfo("print", None, [], None, true, BlockNode(LateSyntax.Function, []))

  /** `print` is variadic, takes no declared parameters, returns nothing, has an empty
      body and no locals. */
  lemma PrintInfoShape()
    ensures PrintInfo.name == "print" && PrintInfo.doc == ""
    ensures PrintInfo.isVariadic && PrintInfo.parameters == [] && PrintInfo.returnType == None
    ensures PrintInfo.process.statements == [] && PrintInfo.localVariables.variableInfo == []
  {
  }

  class FunctionTable {
    var table: map<string, FunctionInfo>

    /** `new`: exactly one entry, `print`. */
    constructor()
      ensures table == map["print" := PrintInfo]
    {
      table := map[];
      new;
      FunctionDefinition("print", None, [], None, true, BlockNode(LateSyntax.Function, []));
    }

    /** `function_definition`: insert or overwrite the entry for `name`. */
    method FunctionDefinition(name: string, doc: Option<string>, parameters: seq<ParameterNode>,
                              returnType: Option<Type>, isVariadic: bool, block: BlockNode)
      modifies this
      ensures table == old(table)[name := DefinedInfo(name, doc, parameters, returnType, isVariadic, block)]
    {
      var d := match doc case Some(text) => text case None => "";
      var info := FunctionInfo(name, d, parameters, returnType, NewScope(None), isVariadic, block);
      table := table[name := info];
    }

    /** `get_function_info`: a copy of the stored entry, or None. */
    function GetFunctionInfo(name: string): (r: Option<FunctionInfo>)
      reads this
      ensures r.Some? <==> name in table
      ensures r.Some? ==> r.value == table[name]
    {
      if name in table then Some(table[name]) else None
    }

    /** `get_function_info_mut`: the caller's changes through the returned reference are
        written back to the stored entry; `update` stands for those changes. Returns
        whether an entry was found. */
    method GetFunctionInfoMut(name: string, update: FunctionInfo -> FunctionInfo) returns (found: bool)
      modifies this
      ensures found <==> name in old(table)
      ensures table == if found then old(table)[name := update(old(table)[name])] else old(table)
    {
      found := name in table;
      if found {
        table := table[name := update(table[name])];
      }
    }
  }

  /** A definition is visible to the next lookup under its name, and other names are
      unaffected. */
  method DefineThenLookup(t: FunctionTable, name: string, doc: Option<string>,
                          parameters: seq<ParameterNode>, returnType: Option<Type>,
                          isVariadic: bool, block: BlockNode, other: string)
    modifies t
    ensures t.GetFunctionInfo(name) == Some(DefinedInfo(name, doc, parameters, returnType, isVariadic, block))
    ensures other != name ==> t.GetFunctionInfo(other) == old(t.GetFunctionInfo(other))
  {
    t.FunctionDefinition(name, doc, parameters, returnType, isVariadic, block);
  }

  /** A change made through `get_function_info_mut` is what the next lookup returns. */
  method MutateThenLookup(t: FunctionTable, name: string, update: FunctionInfo -> FunctionInfo)
    requires name in t.table
    modifies t
    ensures t.GetFunctionInfo(name) == Some(update(old(t.table[name])))
  {
    var found := t.GetFunctionInfoMut(name, update);
  }
}
