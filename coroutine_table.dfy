/** src/analyzer/coroutine_table.rs: the analyzer's table of coroutine definitions. */
module CoroutineTables {
  import opened Wrappers
  import opened LateSyntax
  import opened VariableTables
  import FunctionTables

  datatype CoroutineInfo = CoroutineInfo(name: string, doc: string, localVariables: VariableScope,
                                         process: BlockNode)

  /** The entry `coroutine_definition` stores. */
  function DefinedCoroutine(name: string, doc: Option<string>, process: BlockNode): CoroutineInfo {
    CoroutineInfo(name, FunctionTables.DocOrEmpty(doc), NewScope(None), process)
  }

  class CoroutineTable {
    var table: map<string, CoroutineInfo>

    /** `new`: empty. */
    constructor()
      ensures table == map[]
    {
      table := map[];
    }

    /** `coroutine_definition`: insert or overwrite the entry for `name`. */
    method CoroutineDefinition(name: string, doc: Option<string>, process: BlockNode)
      modifies this
      ensures table == old(table)[name := DefinedCoroutine(name, doc, process)]
    {
      var d := match doc case Some(text) => text case None => "";
      table := table[name := CoroutineInfo(name, d, NewScope(None), process)];
    }

    /** `get_coroutine_info`: a copy of the stored entry, or None. */
    function GetCoroutineInfo(name: string): (r: Option<CoroutineInfo>)
      reads this
      ensures r.Some? <==> name in table
      ensures r.Some? ==> r.value == table[name]
    {
      if name in table then Some(table[name]) else None
    }

    /** `get_coroutine_info_mut`: changes through the returned reference, written as
        `update`, are stored back. Returns whether an entry was found. */
    method GetCoroutineInfoMut(name: string, update: CoroutineInfo -> CoroutineInfo) returns (found: bool)
      modifies this
      ensures found <==> name in old(table)
      ensures table == if found then old(table)[name := update(old(table)[name])] else old(table)
    {
      found := name in table;
      if found {
        table := table[name := update(table[name])];
      }
    }
  }

  /** A definition is visible to the next lookup, with its doc defaulted and no locals;
      other names are unaffected. */
  method DefineThenLookup(t: CoroutineTable, name: string, doc: Option<string>, process: BlockNode,
                          other: string)
    modifies t
    ensures t.GetCoroutineInfo(name).Some?
    ensures t.GetCoroutineInfo(name).value.process == process
    ensures t.GetCoroutineInfo(name).value.doc == (if doc.Some? then doc.value else "")
    ensures t.GetCoroutineInfo(name).value.localVariables.variableInfo == []
    ensures other != name ==> t.GetCoroutineInfo(other) == old(t.GetCoroutineInfo(other))
  {
    t.CoroutineDefinition(name, doc, process);
  }
}
