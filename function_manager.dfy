/** src/interpreter/function.rs: the interpreter's table of function definitions. */
module FunctionManagers {
  import opened Wrappers
  import opened Types
  import opened NodeTree

  datatype FunctionDef = FunctionDef(name: string, parameters: seq<(string, Type)>,
                                     process: PrivateNode)

  class FunctionManager {
    var functionDefs: map<string, FunctionDef>

    /** `new`: no definitions. */
    constructor()
      ensures functionDefs == map[]
    {
      functionDefs := map[];
    }

    /** `add_def`: insert or overwrite the definition of `functionName`. */
    method AddDef(functionName: string, parameters: seq<(string, Type)>, process: PrivateNode)
      modifies this
      ensures functionDefs == old(functionDefs)[functionName := FunctionDef(functionName, parameters, process)]
    {
      functionDefs := functionDefs[functionName := FunctionDef(functionName, parameters, process)];
    }

    /** `get_function`: the stored definition, or None for a name never added. */
    function GetFunction(functionName: string): (r: Option<FunctionDef>)
      reads this
      ensures r.Some? <==> functionName in functionDefs
      ensures r.Some? ==> r.value == functionDefs[functionName]
    {
      if functionName in functionDefs then Some(functionDefs[functionName]) else None
    }
  }

  /** After `add_def(n, ps, p)`, `get_function(n)` gives a definition named `n` with
      parameters `ps` and process `p`, and every other name resolves as before. */
  method AddThenGet(m: FunctionManager, n: string, ps: seq<(string, Type)>, p: PrivateNode,
                    other: string)
    modifies m
    ensures m.GetFunction(n) == Some(FunctionDef(n, ps, p))
    ensures other != n ==> m.GetFunction(other) == old(m.GetFunction(other))
  {
    m.AddDef(n, ps, p);
  }

  /** A fresh manager knows no function. */
  method NewHasNone(n: string) returns (m: FunctionManager)
    ensures m.GetFunction(n) == None
  {
    m := new FunctionManager();
  }
}
