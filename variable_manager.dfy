/** src/interpreter/variable.rs: the newer twin of `Environment`. Its errors are built as
    `ErrorContext` values instead of message strings; the operations are the same, and
    each is specified by the same function of the `Scopes` module, so both classes have
    the same observable behaviour. */
module VariableManagers {
  import opened Wrappers
  import opened Types
  import opened Scopes

  class VariableManager {
    var scopes: seq<Scope>

    /** `new`: exactly one empty scope. */
    constructor()
      ensures scopes == [map[]]
    {
      scopes := [map[]];
    }

    /** `set_variable`. */
    method SetVariable(name: string, value: GreenValue)
      modifies this
      ensures scopes == Define(old(scopes), name, value)
    {
      if |scopes| > 0 {
        scopes := scopes[..|scopes| - 1] + [scopes[|scopes| - 1][name := value]];
      }
    }

    /** `get_variable`: a reverse scan from the innermost scope. */
    method GetVariable(name: string) returns (r: Result<LiteralValue, ScopeError>)
      ensures r == Get(scopes, name)
    {
      var i := |scopes|;
      while i > 0
        invariant 0 <= i <= |scopes|
        invariant forall j :: i <= j < |scopes| ==> name !in scopes[j]
      {
        i := i - 1;
        if name in scopes[i] {
          InnermostSkip(scopes, name, i + 1);
          return Ok(scopes[i][name].value);
        }
      }
      InnermostSpec(scopes, name);
      return Err(Unbound(name));
    }

    /** `change_variable`: a reverse scan to the nearest binding, then a typed update. */
    method ChangeVariable(name: string, value: GreenValue) returns (r: Result<(), ScopeError>)
      modifies this
      ensures Change(old(scopes), name, value).Ok? ==>
        r.Ok? && scopes == Change(old(scopes), name, value).value
      ensures Change(old(scopes), name, value).Err? ==>
        r == Err(Change(old(scopes), name, value).error) && scopes == old(scopes)
    {
      var i := |scopes|;
      while i > 0
        invariant 0 <= i <= |scopes|
        invariant forall j :: i <= j < |scopes| ==> name !in scopes[j]
      {
        i := i - 1;
        if name in scopes[i] {
          InnermostSkip(scopes, name, i + 1);
          var variable := scopes[i][name];
          if variable.valueType == value.valueType {
            scopes := scopes[i := scopes[i][name := variable.(value := value.value)]];
            return Ok(());
          } else {
            return Err(Mismatch(name, variable.valueType, value.valueType));
          }
        }
      }
      InnermostSpec(scopes, name);
      return Err(Unbound(name));
    }

    /** `push_scope`. */
    method PushScope()
      modifies this
      ensures scopes == Push(old(scopes))
    {
      scopes := scopes + [map[]];
    }

    /** `pop_scope`. */
    method PopScope()
      modifies this
      ensures scopes == Pop(old(scopes))
    {
      if |scopes| > 0 {
        scopes := scopes[..|scopes| - 1];
      }
    }
  }
}
