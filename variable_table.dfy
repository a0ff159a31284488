/** src/analyzer/variable_table.rs: the analyzer's variable scopes. A scope is a list of
    declarations with an optional parent index; the table is a vector of scopes linked
    into a tree by those indices. */
module VariableTables {
  import opened Wrappers
  import opened Types

  datatype VariableInfo = VariableInfo(name: string, variableType: Type)

  /** Index of the first declaration of `name`. */
  function FirstIndex(infos: seq<VariableInfo>, name: string): (r: Option<nat>)
    ensures r.Some? ==> r.value < |infos| && infos[r.value].name == name &&
                        forall j :: 0 <= j < r.value ==> infos[j].name != name
    ensures r.None? ==> forall j :: 0 <= j < |infos| ==> infos[j].name != name
  {
    if |infos| == 0 then None
    else if infos[0].name == name then Some(0)
    else match FirstIndex(infos[1..], name)
      case None => None
      case Some(k) => Some(k + 1)
  }

  /** One scope. Rust mutates a scope in place through `&mut self`; here a declaration
      yields the updated scope value. */
  datatype VariableScope = VariableScope(variableInfo: seq<VariableInfo>, parentPointer: Option<nat>) {

    /** `variable_declare`: append one declaration; nothing else changes. */
    function Declare(name: string, t: Type): (s: VariableScope)
      ensures s.variableInfo == variableInfo + [VariableInfo(name, t)]
      ensures s.parentPointer == parentPointer
    {
      VariableScope(variableInfo + [VariableInfo(name, t)], parentPointer)
    }

    /** The reported type of `name`: that of its first declaration. */
    function TypeOf(name: string): Option<Type> {
      match FirstIndex(variableInfo, name)
      case None => None
      case Some(j) => Some(variableInfo[j].variableType)
    }

    /** `get_type`: a forward scan returning at the first declaration of `name`. */
    method GetType(name: string) returns (r: Option<Type>)
      ensures r == TypeOf(name)
    {
      var i := 0;
      while i < |variableInfo|
        invariant 0 <= i <= |variableInfo|
        invariant forall k :: 0 <= k < i ==> variableInfo[k].name != name
      {
        if variableInfo[i].name == name {
          FirstIndexAt(variableInfo, name, i);
          return Some(variableInfo[i].variableType);
        }
        i := i + 1;
      }
      return None;
    }
  }

  lemma {:induction false} FirstIndexAt(infos: seq<VariableInfo>, name: string, i: nat)
    requires i < |infos| && infos[i].name == name
    requires forall k :: 0 <= k < i ==> infos[k].name != name
    ensures FirstIndex(infos, name) == Some(i)
  {
    if i > 0 {
      FirstIndexAt(infos[1..], name, i - 1);
    }
  }

  /** A scope reports a type for `name` exactly when it declares `name`, and the type
      reported is that of the first declaration. */
  lemma TypeOfFirst(s: VariableScope, name: string)
    ensures s.TypeOf(name).None? <==>
      forall j :: 0 <= j < |s.variableInfo| ==> s.variableInfo[j].name != name
    ensures s.TypeOf(name).Some? ==>
      exists j :: 0 <= j < |s.variableInfo| && s.variableInfo[j].name == name &&
        s.variableInfo[j].variableType == s.TypeOf(name).value &&
        forall k :: 0 <= k < j ==> s.variableInfo[k].name != name
  {
  }

  /** `VariableScope::new`. */
  function NewScope(parentPointer: Option<nat>): VariableScope {
    VariableScope([], parentPointer)
  }

  /** Redeclaring a name in the same scope leaves its reported type as it was; declaring
      a new name makes it report the declared type; other names are unaffected. */
  lemma DeclareThenType(s: VariableScope, name: string, t: Type, other: string)
    ensures s.TypeOf(name).Some? ==> s.Declare(name, t).TypeOf(name) == s.TypeOf(name)
    ensures s.TypeOf(name).None? ==> s.Declare(name, t).TypeOf(name) == Some(t)
    ensures other != name ==> s.Declare(name, t).TypeOf(other) == s.TypeOf(other)
  {
    var d := s.Declare(name, t).variableInfo;
    match FirstIndex(s.variableInfo, name) {
      case Some(j) =>
        FirstIndexAt(d, name, j);
      case None =>
        FirstIndexAt(d, name, |s.variableInfo|);
    }
    if other != name {
      match FirstIndex(s.variableInfo, other) {
        case Some(j) =>
          FirstIndexAt(d, other, j);
        case None =>
          assert forall j :: 0 <= j < |d| ==> d[j].name != other by {
            forall j | 0 <= j < |d| ensures d[j].name != other {
              if j < |s.variableInfo| {
                assert d[j] == s.variableInfo[j];
              } else {
                assert d[j] == VariableInfo(name, t);
              }
            }
          }
      }
    }
  }

  /** Every parent index points to an earlier scope, so parent chains end at a root. */
  predicate ParentsEarlier(table: seq<VariableScope>) {
    forall i :: 0 <= i < |table| && table[i].parentPointer.Some? ==> table[i].parentPointer.value < i
  }

  /** Indices visited from scope `i` up to its root, nearest first. */
  function Ancestors(table: seq<VariableScope>, i: nat): (a: seq<nat>)
    requires i < |table| && ParentsEarlier(table)
    ensures |a| >= 1 && a[0] == i
    ensures forall k :: 0 <= k < |a| ==> a[k] < |table|
    ensures table[a[|a| - 1]].parentPointer.None?
    decreases i
  {
    match table[i].parentPointer
    case None => [i]
    case Some(p) => [i] + Ancestors(table, p)
  }

  /** The type `get_type` finds starting from scope `i`. */
  function ChainType(table: seq<VariableScope>, i: nat, name: string): Option<Type>
    requires i < |table| && ParentsEarlier(table)
    decreases i
  {
    match table[i].TypeOf(name)
    case Some(t) => Some(t)
    case None =>
      match table[i].parentPointer
      case None => None
      case Some(p) => ChainType(table, p, name)
  }

  /** The chain lookup reports nothing exactly when no scope on the path from `i` to
      its root declares `name`. */
  lemma {:induction false} ChainTypeNone(table: seq<VariableScope>, i: nat, name: string)
    requires i < |table| && ParentsEarlier(table)
    ensures ChainType(table, i, name).None? <==>
      forall k :: 0 <= k < |Ancestors(table, i)| ==> table[Ancestors(table, i)[k]].TypeOf(name).None?
    decreases i
  {
    match table[i].parentPointer {
      case None =>
        assert Ancestors(table, i) == [i];
      case Some(p) =>
        ChainTypeNone(table, p, name);
        assert ChainType(table, p, name).None? ==> table[Ancestors(table, p)[0]].TypeOf(name).None?;
        var a, b := Ancestors(table, i), Ancestors(table, p);
        assert a == [i] + b;
        if table[i].TypeOf(name).None? {
          assert ChainType(table, i, name) == ChainType(table, p, name);
          if forall k :: 0 <= k < |b| ==> table[b[k]].TypeOf(name).None? {
            forall k | 0 <= k < |a| ensures table[a[k]].TypeOf(name).None? {
              if k > 0 {
                assert a[k] == b[k - 1];
              }
            }
          } else {
            var k :| 0 <= k < |b| && table[b[k]].TypeOf(name).Some?;
            assert a[k + 1] == b[k];
            assert !(forall j :: 0 <= j < |a| ==> table[a[j]].TypeOf(name).None?);
            assert !(forall j :: 0 <= j < |b| ==> table[b[j]].TypeOf(name).None?);
            assert !ChainType(table, p, name).None?;
          }
        } else {
          assert a[0] == i;
        }
    }
  }

  /** When the chain lookup reports a type, it is the type declared by the nearest scope
      on the path from `i` to its root that declares `name`. */
  lemma {:induction false} ChainTypeNearest(table: seq<VariableScope>, i: nat, name: string)
    requires i < |table| && ParentsEarlier(table)
    requires ChainType(table, i, name).Some?
    ensures exists k :: (0 <= k < |Ancestors(table, i)| &&
      table[Ancestors(table, i)[k]].TypeOf(name) == ChainType(table, i, name) &&
      forall m :: 0 <= m < k ==> table[Ancestors(table, i)[m]].TypeOf(name).None?)
    decreases i
  {
    var a := Ancestors(table, i);
    if table[i].TypeOf(name).Some? {
      assert table[a[0]].TypeOf(name) == ChainType(table, i, name);
    } else {
      var p := table[i].parentPointer.value;
      ChainTypeNearest(table, p, name);
      var b := Ancestors(table, p);
      assert a == [i] + b;
      var k :| 0 <= k < |b| && table[b[k]].TypeOf(name) == ChainType(table, p, name) &&
        forall m :: 0 <= m < k ==> table[b[m]].TypeOf(name).None?;
      assert table[a[k + 1]].TypeOf(name) == ChainType(table, i, name);
      assert forall m :: 0 <= m < k + 1 ==> table[a[m]].TypeOf(name).None? by {
        forall m | 0 <= m < k + 1 ensures table[a[m]].TypeOf(name).None? {
          if m > 0 {
            assert a[m] == b[m - 1];
          }
        }
      }
    }
  }

  class VariableTable {
    var table: seq<VariableScope>
    var currentPointer: nat
    var maxPointer: nat

    /** `max_pointer` is the last index, `current_pointer` indexes a scope, and every
        parent index points to an earlier scope. */
    predicate Valid()
      reads this
    {
      |table| >= 1 && maxPointer == |table| - 1 && currentPointer < |table| &&
      ParentsEarlier(table)
    }

    /** `new`: one root scope with no parent; both pointers 0. */
    constructor()
      ensures Valid()
      ensures table == [NewScope(None)] && currentPointer == 0 && maxPointer == 0
    {
      table := [NewScope(None)];
      currentPointer := 0;
      maxPointer := 0;
    }

    /** `variable_declare`: only the current scope changes. */
    method VariableDeclare(name: string, t: Type)
      requires Valid()
      modifies this
      ensures Valid()
      ensures table == old(table)[old(currentPointer) := old(table)[old(currentPointer)].Declare(name, t)]
      ensures currentPointer == old(currentPointer) && maxPointer == old(maxPointer)
    {
      table := table[currentPointer := table[currentPointer].Declare(name, t)];
    }

    /** `get_type`: walk the parent chain from the current scope. */
    method GetType(name: string) returns (r: Option<Type>)
      requires Valid()
      ensures r == ChainType(table, currentPointer, name)
    {
      var parentPointer := table[currentPointer].parentPointer;
      var current: nat := currentPointer;
      while true
        invariant current < |table| && parentPointer == table[current].parentPointer
        invariant ChainType(table, current, name) == ChainType(table, currentPointer, name)
        decreases current
      {
        var found := table[current].GetType(name);
        match found {
          case Some(variableType) =>
            return Some(variableType);
          case None =>
            match parentPointer {
              case Some(pointer) =>
                current := pointer;
                parentPointer := table[current].parentPointer;
              case None =>
                return None;
            }
        }
      }
    }

    /** `push_scope`: append a scope and make it current. The source does not check the
        parent index; an index that is not an earlier scope would make `get_type` fail or
        loop, so one is required. */
    method PushScope(parentPointer: Option<nat>)
      requires Valid()
      requires parentPointer.Some? ==> parentPointer.value < |table|
      modifies this
      ensures Valid()
      ensures table == old(table) + [NewScope(parentPointer)]
      ensures maxPointer == old(maxPointer) + 1 && currentPointer == maxPointer
    {
      table := table + [NewScope(parentPointer)];
      maxPointer := maxPointer + 1;
      currentPointer := maxPointer;
    }

    /** `pop_scope`: move to the parent without removing anything; a parentless current
        scope panics in the source, so a parent is required. */
    method PopScope()
      requires Valid()
      requires table[currentPointer].parentPointer.Some?
      modifies this
      ensures Valid()
      ensures currentPointer == old(table[currentPointer].parentPointer.value)
      ensures table == old(table) && maxPointer == old(maxPointer)
    {
      currentPointer := table[currentPointer].parentPointer.value;
    }
  }
}
