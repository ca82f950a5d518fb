/** The variable store of the older `platformer` package, and the binding
    rule it shares with the platform: the map is created on first write,
    and a later binding of a name replaces an earlier one. */
module Platformer {
  import opened Wrappers

  /** The map behind a possibly nil map: a nil map reads as empty. */
  function Contents<V>(vars: Option<map<string, V>>): map<string, V>
  {
    if vars.Some? then vars.value else map[]
  }

  /** The variables after binding every entry of `vs` one by one: nothing
      happens for an empty `vs` (a nil map stays nil); otherwise the map
      exists afterwards and holds `vs` over what was there. */
  function Bound<V>(vars: Option<map<string, V>>, vs: map<string, V>): Option<map<string, V>>
  {
    if |vs| == 0 then vars else Some(Contents(vars) + vs)
  }

  class Platformer {
    /** `vars`; `None` is the nil map. */
    var vars: Option<map<string, string>>

    constructor ()
      ensures vars == None
    {
      vars := None;
    }

    /** `IsVarSet`. */
    predicate IsVarSet(name: string)
      reads this
      ensures IsVarSet(name) ==> vars.Some?
    {
      name in Contents(vars)
    }

    /** `GetVar`: the value stored for a name that is set (the type
        assertion of the source panics on a name that is not). */
    function GetVar(name: string): (value: string)
      reads this
      requires IsVarSet(name)
      ensures vars.Some? && name in vars.value && vars.value[name] == value
    {
      Contents(vars)[name]
    }

    /** `Vars`: the map itself. */
    function Vars(): (r: Option<map<string, string>>)
      reads this
      ensures forall n :: IsVarSet(n) <==> (r.Some? && n in r.value)
    {
      vars
    }

    /** `Var`: creates the map when it is empty, then stores the value; no
        other name changes. */
    method Var(name: string, value: string)
      modifies this
      ensures vars == Some(Contents(old(vars))[name := value])
      ensures IsVarSet(name) && GetVar(name) == value
      ensures forall n | n != name :: IsVarSet(n) == (n in Contents(old(vars)))
    {
      var m := if vars.None? || |vars.value| == 0 then map[] else vars.value;
      vars := Some(m[name := value]);
    }

    /** `BindVars`: every entry is stored, in the map's own order. */
    method BindVars(vs: map<string, string>)
      modifies this
      ensures vars == Bound(old(vars), vs)
    {
      if |vs| == 0 {
        return;
      }
      var base := Contents(vars);
      var rest := vs.Keys;
      var done: map<string, string> := map[];
      while rest != {}
        invariant rest <= vs.Keys
        invariant done.Keys == vs.Keys - rest && forall k | k in done :: done[k] == vs[k]
        invariant done == map[] ==> vars == old(vars)
        invariant done != map[] ==> vars == Some(base + done)
        decreases rest
      {
        var name :| name in rest;
        ghost var before := Contents(vars);
        Var(name, vs[name]);
        MergeUpdate(base, done, name, vs[name]);
        assert before == base + done;
        done := done[name := vs[name]];
        rest := rest - {name};
      }
      assert done == vs;
    }
  }

  lemma MergeUpdate<V>(base: map<string, V>, done: map<string, V>, k: string, v: V)
    ensures (base + done)[k := v] == base + done[k := v]
  {
  }

  // ---------------------------------------------------------------------
  // Properties

  /** Binding the same name twice keeps the later value. */
  lemma LastBindingWins<V>(vars: Option<map<string, V>>, a: map<string, V>, b: map<string, V>, k: string)
    requires k in b
    ensures Bound(Bound(vars, a), b).Some? && Contents(Bound(Bound(vars, a), b))[k] == b[k]
  {
  }

  /** Binding maps with disjoint names accumulates their union and keeps
      every earlier entry that is not rebound. */
  lemma DisjointBindingsAccumulate<V>(a: map<string, V>, b: map<string, V>)
    requires a.Keys !! b.Keys
    ensures Contents(Bound(Bound(None, a), b)).Keys == a.Keys + b.Keys
    ensures forall k | k in a :: Contents(Bound(Bound(None, a), b))[k] == a[k]
    ensures forall k | k in b :: Contents(Bound(Bound(None, a), b))[k] == b[k]
  {
  }

  /** Binding an empty map leaves a nil map nil. */
  lemma EmptyBindingKeepsNil<V>(vars: Option<map<string, V>>)
    ensures Bound(vars, map[]) == vars
  {
  }

  /** Binding touches only the names it binds. */
  lemma BindingKeepsOthers<V>(vars: Option<map<string, V>>, vs: map<string, V>, k: string)
    requires k !in vs
    ensures (k in Contents(Bound(vars, vs))) == (k in Contents(vars))
    ensures k in Contents(vars) ==> Contents(Bound(vars, vs))[k] == Contents(vars)[k]
  {
  }
}
