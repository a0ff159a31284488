/** The specification shared by src/interpreter/environment.rs and its twin
    src/interpreter/variable.rs: a stack of name-to-value maps, innermost last. */
module Scopes {
  import opened Wrappers
  import opened Types
  import opened ErrorCodes
  import opened ErrorContexts

  type Scope = map<string, GreenValue>

  type ScopeError = ErrorContext<ErrorCode>

  /** Index of the innermost scope binding `name`. */
  function Innermost(scopes: seq<Scope>, name: string): (r: Option<nat>)
    ensures r.Some? ==> r.value < |scopes| && name in scopes[r.value]
    decreases |scopes|
  {
    if |scopes| == 0 then None
    else if name in scopes[|scopes| - 1] then Some(|scopes| - 1)
    else Innermost(scopes[..|scopes| - 1], name)
  }

  /** Innermost-first lookup. */
  function Lookup(scopes: seq<Scope>, name: string): Option<GreenValue> {
    match Innermost(scopes, name)
    case None => None
    case Some(i) => Some(scopes[i][name])
  }

  function Unbound(name: string): ScopeError {
    ErrorContext(Runtime007, None, None, [("variable", name)])
  }

  function Mismatch(name: string, bound: Type, given: Type): ScopeError {
    ErrorContext(Runtime010, None, None,
                 [("variable_type", TypeToString(bound)), ("value_type", TypeToString(given)),
                  ("name", name)])
  }

  /** `set_variable`: the innermost scope gains or overwrites `name`; the other scopes are
      untouched, and an empty stack is left as it is. */
  function Define(scopes: seq<Scope>, name: string, value: GreenValue): (r: seq<Scope>)
    ensures |r| == |scopes|
    ensures forall i :: 0 <= i < |scopes| - 1 ==> r[i] == scopes[i]
    ensures |scopes| > 0 ==> r[|r| - 1] == scopes[|scopes| - 1][name := value]
  {
    if |scopes| == 0 then scopes
    else scopes[..|scopes| - 1] + [scopes[|scopes| - 1][name := value]]
  }

  /** `get_variable`: the value part of the innermost binding, or Runtime007. */
  function Get(scopes: seq<Scope>, name: string): Result<LiteralValue, ScopeError> {
    match Lookup(scopes, name)
    case Some(v) => Ok(v.value)
    case None => Err(Unbound(name))
  }

  /** `change_variable`: only the value of the nearest binding is replaced, and only when
      the stored type equals the new value's type. */
  function Change(scopes: seq<Scope>, name: string, value: GreenValue): Result<seq<Scope>, ScopeError> {
    match Innermost(scopes, name)
    case None => Err(Unbound(name))
    case Some(i) =>
      var bound := scopes[i][name];
      if bound.valueType == value.valueType then
        Ok(scopes[i := scopes[i][name := bound.(value := value.value)]])
      else Err(Mismatch(name, bound.valueType, value.valueType))
  }

  function Push(scopes: seq<Scope>): seq<Scope> {
    scopes + [map[]]
  }

  /** `Vec::pop` ignores an empty vector. */
  function Pop(scopes: seq<Scope>): seq<Scope> {
    if |scopes| == 0 then scopes else scopes[..|scopes| - 1]
  }

  /** The innermost binding is the highest-indexed scope holding the name. */
  lemma {:induction false} InnermostSpec(scopes: seq<Scope>, name: string)
    ensures Innermost(scopes, name).Some? ==>
      var i := Innermost(scopes, name).value;
      i < |scopes| && name in scopes[i] && forall j :: i < j < |scopes| ==> name !in scopes[j]
    ensures Innermost(scopes, name).None? <==> forall j :: 0 <= j < |scopes| ==> name !in scopes[j]
    decreases |scopes|
  {
    if |scopes| > 0 && name !in scopes[|scopes| - 1] {
      var prefix := scopes[..|scopes| - 1];
      InnermostSpec(prefix, name);
      assert forall j :: 0 <= j < |prefix| ==> prefix[j] == scopes[j];
    }
  }

  /** Scopes above index `k` that do not bind the name are skipped over. */
  lemma {:induction false} InnermostSkip(scopes: seq<Scope>, name: string, k: nat)
    requires k <= |scopes|
    requires forall j :: k <= j < |scopes| ==> name !in scopes[j]
    ensures Innermost(scopes, name) == Innermost(scopes[..k], name)
    decreases |scopes| - k
  {
    if k < |scopes| {
      var prefix := scopes[..|scopes| - 1];
      assert prefix[..k] == scopes[..k];
      InnermostSkip(prefix, name, k);
    } else {
      assert scopes[..k] == scopes;
    }
  }

  /** A write is seen by the next read of the same name and by no other name. */
  lemma LookupAfterDefine(scopes: seq<Scope>, name: string, other: string, value: GreenValue)
    requires |scopes| > 0
    ensures Lookup(Define(scopes, name, value), name) == Some(value)
    ensures other != name ==> Lookup(Define(scopes, name, value), other) == Lookup(scopes, other)
  {
    var r := Define(scopes, name, value);
    assert r[..|r| - 1] == scopes[..|scopes| - 1];
  }

  /** Inner bindings shadow outer ones. */
  lemma LookupShadowing(scopes: seq<Scope>, inner: Scope, name: string)
    ensures Lookup(scopes + [inner], name) ==
            (if name in inner then Some(inner[name]) else Lookup(scopes, name))
  {
    assert (scopes + [inner])[..|scopes|] == scopes;
  }

  /** Push then pop is the identity, whatever was defined in between; a fresh scope hides
      nothing, so every outer binding stays visible while it is in place. */
  lemma PushPop(scopes: seq<Scope>, name: string, value: GreenValue, other: string)
    ensures Pop(Push(scopes)) == scopes
    ensures Pop(Define(Push(scopes), name, value)) == scopes
    ensures Lookup(Push(scopes), other) == Lookup(scopes, other)
  {
    LookupShadowing(scopes, map[], other);
    assert Define(Push(scopes), name, value)[..|scopes|] == scopes;
  }

  /** A successful change keeps the scope count, every scope's key set and every stored
      type, updates the nearest binding's value and nothing else; a failed one reports
      Runtime007 exactly for an unbound name and Runtime010 exactly for a type mismatch. */
  lemma ChangeSpec(scopes: seq<Scope>, name: string, value: GreenValue)
    ensures Change(scopes, name, value).Ok? ==>
      var r := Change(scopes, name, value).value;
      var i := Innermost(scopes, name).value;
      && |r| == |scopes|
      && (forall j :: 0 <= j < |r| ==> r[j].Keys == scopes[j].Keys)
      && (forall j, n :: 0 <= j < |r| && n in r[j] ==> r[j][n].valueType == scopes[j][n].valueType)
      && (forall j, n :: 0 <= j < |r| && n in r[j] && (j != i || n != name) ==> r[j][n] == scopes[j][n])
      && Lookup(r, name) == Some(value)
    ensures Change(scopes, name, value) == Err(Unbound(name)) <==> Lookup(scopes, name).None?
    ensures Change(scopes, name, value).Err? && Lookup(scopes, name).Some? ==>
      Lookup(scopes, name).value.valueType != value.valueType
      && Change(scopes, name, value)
         == Err(Mismatch(name, Lookup(scopes, name).value.valueType, value.valueType))
    ensures Lookup(scopes, name).Some? && Lookup(scopes, name).value.valueType == value.valueType
      ==> Change(scopes, name, value).Ok?
  {
    InnermostSpec(scopes, name);
    if Change(scopes, name, value).Ok? {
      var r := Change(scopes, name, value).value;
      var i := Innermost(scopes, name).value;
      assert forall j :: 0 <= j < |r| && j != i ==> r[j] == scopes[j];
      forall j | i < j < |r|
        ensures name !in r[j]
      {
      }
      InnermostSkip(r, name, i + 1);
      InnermostSkip(scopes, name, i + 1);
      assert r[..i + 1][..i] == r[..i];
    }
  }
}
