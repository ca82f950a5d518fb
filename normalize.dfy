/** The value reconciler of the legacy provider adapter (`normalizeNullValues`):
    a freshly produced value `dst` is reconciled with a prior value `src`,
    resolving the null / empty / unknown disagreements the legacy SDK
    introduces, differently in plan mode (`apply == false`) and apply mode. */
module Normalize {
  import opened Cty

  /** `normalizeNullValues(dst, src, apply)`. The guards are taken in the
      source's order; the case analysis then dispatches on `dst`'s type. Where
      `src` does not have the shape `dst`'s type calls for (a panic in the
      source, never reached by callers, who pass two values of one schema
      type), `dst` is returned. */
  function NormalizeNullValues(dst: Value, src: Value, apply: bool): Value
    decreases src, 2
  {
    var ty := TypeOf(dst);
    if !src.Null? && !IsKnown(src) then
      // keep unknown placeholders during plan; never during apply
      if dst.Null? && !apply then src else dst
    else if ty.IsCollectionType() && apply
         && ((src.Null? && KnownEmpty(dst)) || (KnownEmpty(src) && dst.Null?)) then
      // a flip between null and empty prefers src during apply
      src
    else if src.Null? || !IsKnown(src) || !IsKnown(dst) then
      dst
    else if ty.TMap? || ty.TObject? then
      NormalizeMembers(dst, src, apply)
    else if ty.TSet? then
      // sets cannot be correlated element-wise after apply
      if WhollyKnown(src) && apply then src else dst
    else if ty.TList? || ty.TTuple? then
      NormalizeElements(dst, src, apply)
    else if ty.TString? then
      // the legacy SDK equates "" with unset
      if dst.Null? && src.Str? && src.s == "" then src else dst
    else
      dst
  }

  /** The map and object case: `dstMap` seeded from `dst`, members of `src`
      reconciled into it, then the map-only fix-up of spurious unknowns. */
  function NormalizeMembers(dst: Value, src: Value, apply: bool): Value
    requires TypeOf(dst).TMap? || TypeOf(dst).TObject?
    requires !src.Null? && IsKnown(src) && IsKnown(dst)
    decreases src, 1
  {
    if !(src.Map? || src.Object?) then dst
    else
      var isMap := TypeOf(dst).TMap?;
      var dstMap := if dst.Null? then map[] else dst.members;
      var srcMap := src.members;
      var merged := ReconciledMembers(dstMap, src, isMap, apply);
      if |merged| == 0 then
        if dst.Null? && WhollyKnown(src) && apply then src else dst
      else if isMap then
        Map(TypeOf(dst).elem, FixUnknownMembers(merged, srcMap))
      else
        Object(merged)
  }

  /** The loop over `srcMap`: a key missing from `dstMap` is skipped for a map
      type (in either mode) and seeded with a null of the source member's type
      for an object type; every reached key is reconciled recursively. */
  function ReconciledMembers(dstMap: map<string, Value>, src: Value,
                             isMap: bool, apply: bool): (merged: map<string, Value>)
    requires src.Map? || src.Object?
    decreases src, 0
  {
    var srcMap := src.members;
    map k | k in dstMap.Keys + (if isMap then {} else srcMap.Keys) ::
      if k in srcMap then
        NormalizeNullValues(if k in dstMap then dstMap[k] else Null(TypeOf(srcMap[k])), srcMap[k], apply)
      else dstMap[k]
  }

  /** An entry still unknown after reconciliation whose `src` entry is known
      and non-null takes the `src` entry (optional+computed maps). */
  function FixUnknownMembers(merged: map<string, Value>, srcMap: map<string, Value>): map<string, Value>
  {
    map k | k in merged ::
      if k in srcMap && !srcMap[k].Null? && IsKnown(srcMap[k]) && !merged[k].Null? && !IsKnown(merged[k])
      then srcMap[k] else merged[k]
  }

  /** The list and tuple case. */
  function NormalizeElements(dst: Value, src: Value, apply: bool): Value
    requires TypeOf(dst).TList? || TypeOf(dst).TTuple?
    requires !src.Null? && IsKnown(src) && IsKnown(dst)
    decreases src, 0
  {
    if !(src.List? || src.Tuple?) then dst
    else if dst.Null? then
      if WhollyKnown(src) && |src.elems| == 0 && apply then src
      // a null dst over only-unknown elements lost them during plan; vacuous for []
      else if !apply && !src.Null? && AllUnknown(src.elems) then src
      else dst
    else
      var srcs := src.elems;
      var dsts := dst.elems;
      if |srcs| == |dsts| && |srcs| > 0 then
        var merged := seq(|dsts|, i requires 0 <= i < |dsts| => NormalizeNullValues(dsts[i], srcs[i], apply));
        if dst.Tuple? then Tuple(merged) else List(dst.ety, merged)
      else dst
  }

  predicate AllUnknown(es: seq<Value>)
  {
    forall i | 0 <= i < |es| :: !IsKnown(es[i])
  }

  // ---------------------------------------------------------------------
  // Properties

  /** Reconciling a value with itself returns it unchanged, in both modes. */
  lemma {:induction false} NormalizeSelf(v: Value, apply: bool)
    ensures NormalizeNullValues(v, v, apply) == v
    decreases v
  {
    if v.Map? || v.Object? {
      forall k | k in v.members
        ensures NormalizeNullValues(v.members[k], v.members[k], apply) == v.members[k]
      {
        NormalizeSelf(v.members[k], apply);
      }
      var merged := ReconciledMembers(v.members, v, v.Map?, apply);
      assert merged == v.members;
      if v.Map? {
        assert FixUnknownMembers(merged, v.members) == v.members;
      }
    } else if v.List? || v.Tuple? {
      forall i | 0 <= i < |v.elems|
        ensures NormalizeNullValues(v.elems[i], v.elems[i], apply) == v.elems[i]
      {
        NormalizeSelf(v.elems[i], apply);
      }
      var es := v.elems;
      var merged := seq(|es|, i requires 0 <= i < |es| => NormalizeNullValues(es[i], es[i], apply));
      assert merged == es;
    }
  }

  /** The reconciler keeps `dst`'s type and the well-formedness of the tree
      when both inputs are well-formed values of one type. */
  lemma {:induction false} NormalizePreservesType(dst: Value, src: Value, apply: bool)
    requires WellFormed(dst) && WellFormed(src) && TypeOf(dst) == TypeOf(src)
    ensures TypeOf(NormalizeNullValues(dst, src, apply)) == TypeOf(dst)
    ensures WellFormed(NormalizeNullValues(dst, src, apply))
    decreases src, 3
  {
    var ty := TypeOf(dst);
    var r := NormalizeNullValues(dst, src, apply);
    if !src.Null? && !IsKnown(src) {
    } else if ty.IsCollectionType() && apply
              && ((src.Null? && KnownEmpty(dst)) || (KnownEmpty(src) && dst.Null?)) {
    } else if src.Null? || !IsKnown(src) || !IsKnown(dst) {
    } else if ty.TObject? {
      ObjectMembersPreserveType(dst, src, apply);
    } else if ty.TMap? {
      MapMembersPreserveType(dst, src, apply);
    } else if ty.TList? || ty.TTuple? {
      ElementsPreserveType(dst, src, apply);
    }
  }

  lemma {:induction false} MapMembersPreserveType(dst: Value, src: Value, apply: bool)
    requires WellFormed(dst) && WellFormed(src) && TypeOf(dst) == TypeOf(src)
    requires TypeOf(dst).TMap?
    requires !src.Null? && IsKnown(src) && IsKnown(dst)
    ensures TypeOf(NormalizeMembers(dst, src, apply)) == TypeOf(dst)
    ensures WellFormed(NormalizeMembers(dst, src, apply))
    decreases src, 1
  {
    var t := TypeOf(dst).elem;
    var dstMap: map<string, Value> := if dst.Null? then map[] else dst.members;
    var merged := ReconciledMembers(dstMap, src, true, apply);
    var r := NormalizeMembers(dst, src, apply);
    if |merged| != 0 {
      assert r == Map(t, FixUnknownMembers(merged, src.members));
      forall k | k in merged
        ensures TypeOf(merged[k]) == t && WellFormed(merged[k])
      {
        MapMemberPreservesType(dst, src, apply, k);
      }
      FixUnknownMembersTyped(merged, src.members, t);
    } else {
      assert r == src || r == dst;
    }
  }

  lemma {:induction false} MapMemberPreservesType(dst: Value, src: Value, apply: bool, k: string)
    requires WellFormed(dst) && WellFormed(src) && TypeOf(dst) == TypeOf(src)
    requires TypeOf(dst).TMap?
    requires !src.Null? && IsKnown(src) && IsKnown(dst)
    requires k in ReconciledMembers(if dst.Null? then map[] else dst.members, src, true, apply)
    ensures var m := ReconciledMembers(if dst.Null? then map[] else dst.members, src, true, apply);
      TypeOf(m[k]) == TypeOf(dst).elem && WellFormed(m[k])
    decreases src, 0
  {
    var dstMap: map<string, Value> := if dst.Null? then map[] else dst.members;
    assert k in dstMap;
    if k in src.members {
      NormalizePreservesType(dstMap[k], src.members[k], apply);
    }
  }

  lemma FixUnknownMembersTyped(merged: map<string, Value>, srcMap: map<string, Value>, t: Type)
    requires forall k | k in merged :: TypeOf(merged[k]) == t && WellFormed(merged[k])
    requires forall k | k in srcMap :: TypeOf(srcMap[k]) == t && WellFormed(srcMap[k])
    ensures WellFormed(Map(t, FixUnknownMembers(merged, srcMap)))
  {
  }

  /** An object value's type lists exactly its members, each with its type. */
  lemma ObjectTypeFacts(v: Value)
    requires v.Object?
    ensures TypeOf(v).attrs.Keys == v.members.Keys
    ensures forall k | k in v.members :: TypeOf(v).attrs[k] == TypeOf(v.members[k])
  {
  }

  lemma ObjectTypeFromMembers(m: map<string, Value>, attrs: map<string, Type>)
    requires m.Keys == attrs.Keys
    requires forall k | k in m :: TypeOf(m[k]) == attrs[k]
    ensures TypeOf(Object(m)) == TObject(attrs)
  {
    assert (map k | k in m :: TypeOf(m[k])) == attrs;
  }

  lemma {:induction false} ObjectMembersPreserveType(dst: Value, src: Value, apply: bool)
    requires WellFormed(dst) && WellFormed(src) && TypeOf(dst) == TypeOf(src)
    requires TypeOf(dst).TObject?
    requires !src.Null? && IsKnown(src) && IsKnown(dst)
    ensures TypeOf(NormalizeMembers(dst, src, apply)) == TypeOf(dst)
    ensures WellFormed(NormalizeMembers(dst, src, apply))
    decreases src, 2
  {
    var dstMap: map<string, Value> := if dst.Null? then map[] else dst.members;
    ObjectTypeFacts(src);
    var merged := ReconciledMembers(dstMap, src, false, apply);
    var r := NormalizeMembers(dst, src, apply);
    if |merged| != 0 {
      assert r == Object(merged);
      ReconciledObjectTyped(dst, src, apply);
    } else {
      assert r == src || r == dst;
    }
  }

  lemma {:induction false} ReconciledObjectTyped(dst: Value, src: Value, apply: bool)
    requires WellFormed(dst) && WellFormed(src) && TypeOf(dst) == TypeOf(src)
    requires TypeOf(dst).TObject?
    requires !src.Null? && IsKnown(src) && IsKnown(dst) && src.Object?
    ensures var merged := ReconciledMembers(if dst.Null? then map[] else dst.members, src, false, apply);
      TypeOf(Object(merged)) == TypeOf(dst) && WellFormed(Object(merged))
    decreases src, 1
  {
    var attrs := TypeOf(dst).attrs;
    var dstMap: map<string, Value> := if dst.Null? then map[] else dst.members;
    ObjectTypeFacts(src);
    if dst.Object? { ObjectTypeFacts(dst); }
    var merged := ReconciledMembers(dstMap, src, false, apply);
    assert merged.Keys == attrs.Keys;
    forall k | k in merged
      ensures TypeOf(merged[k]) == attrs[k] && WellFormed(merged[k])
    {
      ObjectMemberPreservesType(dst, src, apply, k);
    }
    ObjectTypeFromMembers(merged, attrs);
  }

  lemma {:induction false} ObjectMemberPreservesType(dst: Value, src: Value, apply: bool, k: string)
    requires WellFormed(dst) && WellFormed(src) && TypeOf(dst) == TypeOf(src)
    requires TypeOf(dst).TObject?
    requires !src.Null? && IsKnown(src) && IsKnown(dst)
    requires k in ReconciledMembers(if dst.Null? then map[] else dst.members, src, false, apply)
    ensures var m := ReconciledMembers(if dst.Null? then map[] else dst.members, src, false, apply);
      k in TypeOf(dst).attrs && TypeOf(m[k]) == TypeOf(dst).attrs[k] && WellFormed(m[k])
    decreases src, 0
  {
    var dstMap: map<string, Value> := if dst.Null? then map[] else dst.members;
    ObjectTypeFacts(src);
    if dst.Object? { ObjectTypeFacts(dst); }
    assert k in src.members;
    var d := if k in dstMap then dstMap[k] else Null(TypeOf(src.members[k]));
    NormalizePreservesType(d, src.members[k], apply);
  }

  lemma {:induction false} ElementsPreserveType(dst: Value, src: Value, apply: bool)
    requires WellFormed(dst) && WellFormed(src) && TypeOf(dst) == TypeOf(src)
    requires TypeOf(dst).TList? || TypeOf(dst).TTuple?
    requires !src.Null? && IsKnown(src) && IsKnown(dst)
    ensures TypeOf(NormalizeElements(dst, src, apply)) == TypeOf(dst)
    ensures WellFormed(NormalizeElements(dst, src, apply))
    decreases src, 1
  {
    assert src.List? || src.Tuple?;
    if !dst.Null? {
      var srcs := src.elems;
      var dsts := dst.elems;
      if |srcs| == |dsts| && |srcs| > 0 {
        var merged := seq(|dsts|, i requires 0 <= i < |dsts| => NormalizeNullValues(dsts[i], srcs[i], apply));
        forall i | 0 <= i < |dsts|
          ensures TypeOf(merged[i]) == TypeOf(dsts[i]) && WellFormed(merged[i])
        {
          if dst.Tuple? {
            assert TypeOf(dst).elems[i] == TypeOf(dsts[i]);
            assert TypeOf(src).elems[i] == TypeOf(srcs[i]);
          }
          NormalizePreservesType(dsts[i], srcs[i], apply);
        }
        if dst.Tuple? {
          assert seq(|merged|, i requires 0 <= i < |merged| => TypeOf(merged[i])) == TypeOf(dst).elems;
        }
      }
    }
  }

  /** An unknown `src` survives only over a null `dst` during plan. */
  lemma NormalizeUnknownSource(dst: Value, src: Value, apply: bool)
    requires src.Unknown?
    ensures NormalizeNullValues(dst, src, apply) == if dst.Null? && !apply then src else dst
  {
  }

  /** During apply, a list, set or map flipping between null and known-empty
      keeps `src`'s side of the flip. */
  lemma NormalizeApplyNullEmptyFlip(dst: Value, src: Value)
    requires TypeOf(dst).IsCollectionType()
    requires (src.Null? && KnownEmpty(dst)) || (KnownEmpty(src) && dst.Null?)
    ensures NormalizeNullValues(dst, src, true) == src
  {
  }

  /** Without a concrete `src` (null) or with an unknown `dst`, nothing is
      reconciled and `dst` stands, apart from the apply-mode flip above. */
  lemma NormalizeNoConcreteSource(dst: Value, src: Value, apply: bool)
    requires dst.Unknown? || (src.Null? && !(TypeOf(dst).IsCollectionType() && apply && KnownEmpty(dst)))
    ensures NormalizeNullValues(dst, src, apply) == dst
  {
  }

  /** A known map keeps exactly its own keys in both modes (stale `src`
      entries are never resurrected), entries absent from `src` are untouched,
      and an entry whose `src` counterpart is known and non-null ends up
      known. */
  lemma NormalizeMapKeys(dst: Value, src: Value, apply: bool)
    requires dst.Map? && !src.Null?
    ensures var r := NormalizeNullValues(dst, src, apply);
      && r.Map? && r.ety == dst.ety && r.members.Keys == dst.members.Keys
      && (src.Map? ==> forall k | k in dst.members && k !in src.members :: r.members[k] == dst.members[k])
      && (src.Map? ==> forall k | k in dst.members && k in src.members && !src.members[k].Null? && IsKnown(src.members[k])
                         :: IsKnown(r.members[k]))
      && (src.Map? ==> forall k | k in dst.members && k in src.members ::
            var n := NormalizeNullValues(dst.members[k], src.members[k], apply);
            r.members[k] == if !src.members[k].Null? && IsKnown(src.members[k]) && !n.Null? && !IsKnown(n)
                            then src.members[k] else n)
  {
    if src.Map? {
      MapEntries(dst, src, apply);
    } else if src.Object? {
      var r := NormalizeNullValues(dst, src, apply);
      var merged := ReconciledMembers(dst.members, src, true, apply);
      assert merged.Keys == dst.members.Keys;
      assert r == NormalizeMembers(dst, src, apply);
      if |merged| != 0 {
        assert r == Map(dst.ety, FixUnknownMembers(merged, src.members));
      }
    }
  }

  /** The entries of a known map reconciled against a map. */
  lemma MapEntries(dst: Value, src: Value, apply: bool)
    requires dst.Map? && src.Map?
    ensures var r := NormalizeNullValues(dst, src, apply);
      && r.Map? && r.ety == dst.ety && r.members.Keys == dst.members.Keys
      && (forall k | k in dst.members && k !in src.members :: r.members[k] == dst.members[k])
      && (forall k | k in dst.members && k in src.members ::
            var n := NormalizeNullValues(dst.members[k], src.members[k], apply);
            r.members[k] == if !src.members[k].Null? && IsKnown(src.members[k]) && !n.Null? && !IsKnown(n)
                            then src.members[k] else n)
  {
    var r := NormalizeNullValues(dst, src, apply);
    var merged := ReconciledMembers(dst.members, src, true, apply);
    assert r == NormalizeMembers(dst, src, apply);
    if |merged| != 0 {
      assert r == Map(dst.ety, FixUnknownMembers(merged, src.members));
    } else {
      assert merged.Keys == dst.members.Keys;
    }
  }

  /** A known map over a null `dst` is taken over from `src` only during
      apply and only when wholly known; otherwise the null stands. */
  lemma NormalizeNullMap(dst: Value, src: Value, apply: bool)
    requires dst.Null? && dst.ty.TMap? && src.Map?
    ensures NormalizeNullValues(dst, src, apply) == if apply && WhollyKnown(src) then src else dst
  {
    var merged := ReconciledMembers(map[], src, true, apply);
    assert merged == map[];
  }

  /** Two known objects reconcile to an object holding both key sets, each
      member of `src` reconciled against `dst`'s member or a typed null. */
  lemma NormalizeObjectMembers(dst: Value, src: Value, apply: bool)
    requires dst.Object? && src.Object?
    ensures var r := NormalizeNullValues(dst, src, apply);
      && r.Object? && r.members.Keys == dst.members.Keys + src.members.Keys
      && (forall k | k in src.members ::
            r.members[k] == NormalizeNullValues(
              if k in dst.members then dst.members[k] else Null(TypeOf(src.members[k])), src.members[k], apply))
      && (forall k | k in dst.members && k !in src.members :: r.members[k] == dst.members[k])
  {
    var merged := ReconciledMembers(dst.members, src, false, apply);
    ObjectMembersReconciled(dst.members, src, apply);
    var r := NormalizeNullValues(dst, src, apply);
    assert r == NormalizeMembers(dst, src, apply);
    if |merged| != 0 {
      assert r == Object(merged);
    } else {
      assert r == src || r == dst;
    }
  }

  lemma ObjectMembersReconciled(dstMap: map<string, Value>, src: Value, apply: bool)
    requires src.Object?
    ensures var merged := ReconciledMembers(dstMap, src, false, apply);
      && merged.Keys == dstMap.Keys + src.members.Keys
      && (forall k | k in src.members ::
            merged[k] == NormalizeNullValues(
              if k in dstMap then dstMap[k] else Null(TypeOf(src.members[k])), src.members[k], apply))
      && (forall k | k in dstMap && k !in src.members :: merged[k] == dstMap[k])
  {
    var merged := ReconciledMembers(dstMap, src, false, apply);
    assert merged.Keys == dstMap.Keys + src.members.Keys;
  }

  /** A null object over a known object: every `src` member is seeded with a
      typed null and reconciled; with no members, apply takes `src`. */
  lemma NormalizeNullObject(dst: Value, src: Value, apply: bool)
    requires dst.Null? && dst.ty.TObject? && src.Object?
    ensures var r := NormalizeNullValues(dst, src, apply);
      && (|src.members| == 0 ==> r == if apply then src else dst)
      && (|src.members| > 0 ==>
            && r.Object? && r.members.Keys == src.members.Keys
            && forall k | k in src.members ::
                 r.members[k] == NormalizeNullValues(Null(TypeOf(src.members[k])), src.members[k], apply))
  {
    var r := NormalizeNullValues(dst, src, apply);
    assert r == NormalizeMembers(dst, src, apply);
    var merged := ReconciledMembers(map[], src, false, apply);
    ObjectMembersReconciled(map[], src, apply);
    if |src.members| == 0 {
      assert |merged| == 0;
    } else {
      assert |merged| != 0;
      assert r == Object(merged);
    }
  }

  /** A known set in apply mode replaces a known `dst` wholesale when wholly
      known; in plan mode `dst` shapes the set. */
  lemma NormalizeSet(dst: Value, src: Value, apply: bool)
    requires TypeOf(dst).TSet? && src.Set?
    ensures NormalizeNullValues(dst, src, apply) == if apply && WhollyKnown(src) && IsKnown(dst) then src else dst
  {
  }

  /** A null list or tuple over a known one: apply recovers a lost empty
      value; plan recovers a value whose elements are all unknown, which is
      vacuously the case for an empty `src`. */
  lemma NormalizeNullSequence(dst: Value, src: Value, apply: bool)
    requires dst.Null? && (dst.ty.TList? || dst.ty.TTuple?) && (src.List? || src.Tuple?)
    ensures NormalizeNullValues(dst, src, apply) ==
      if (apply && WhollyKnown(src) && |src.elems| == 0) || (!apply && AllUnknown(src.elems)) then src else dst
  {
  }

  /** The plan-mode quirk: a null list over a known empty list yields the
      empty list, although nothing unknown was lost. */
  lemma NormalizeNullOverEmptyList(t: Type, apply: bool)
    ensures NormalizeNullValues(Null(TList(t)), List(t, []), apply) == List(t, [])
  {
    NormalizeNullSequence(Null(TList(t)), List(t, []), apply);
  }

  /** A known list or tuple keeps its kind and its length; when `src` has the
      same nonzero length the elements are reconciled position by position. */
  lemma NormalizeSequenceLength(dst: Value, src: Value, apply: bool)
    requires (dst.List? || dst.Tuple?) && !src.Null?
    ensures var r := NormalizeNullValues(dst, src, apply);
      && r.List? == dst.List? && r.Tuple? == dst.Tuple?
      && |r.elems| == |dst.elems|
      && (dst.List? ==> r.ety == dst.ety)
      && ((src.List? || src.Tuple?) && |src.elems| == |dst.elems| ==>
            forall i | 0 <= i < |dst.elems| :: r.elems[i] == NormalizeNullValues(dst.elems[i], src.elems[i], apply))
  {
  }

  /** A null string over `""` becomes `""`; over any other string it stays null. */
  lemma NormalizeNullString(src: Value, apply: bool)
    requires src.Str?
    ensures NormalizeNullValues(Null(TString), src, apply) == if src.s == "" then src else Null(TString)
  {
  }


}
