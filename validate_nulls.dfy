/** `validateConfigNulls`: a null inside a list, set or tuple would reach the
    legacy SDK as a nil element and crash it, so every such null is reported
    as an error at its path before the configuration is shimmed. Null map and
    object members are harmless there and are not reported. */
module ValidateNulls {
  import opened Cty

  /** The index key cty's element iterator yields for position `i`. */
  function ElementKey(v: Value, i: nat): Value
    requires v.List? || v.Set? || v.Tuple?
    requires i < |v.elems|
  {
    if v.Set? then v.elems[i] else Num(i as real)
  }

  /** `validateConfigNulls(v, path)`: the paths of its diagnostics, all of the
      same "Null value found in list" error. A null set element has a null key,
      so its diagnostic carries the set's own path. Every diagnostic lies at
      or below `path`. */
  function ValidateConfigNulls(v: Value, path: Path): (diags: set<Path>)
    ensures forall d | d in diags :: path <= d
    decreases v
  {
    if v.Null? || v.Unknown? then {}
    else if v.List? || v.Set? || v.Tuple? then
      (set i | 0 <= i < |v.elems| && v.elems[i].Null? ::
         if v.Set? then path else path + [Index(ElementKey(v, i))])
      + (set i, d | 0 <= i < |v.elems| && !v.elems[i].Null?
                    && d in ValidateConfigNulls(v.elems[i], path + [Index(ElementKey(v, i))]) :: d)
    else if v.Map? then
      set k, d | k in v.members && d in ValidateConfigNulls(v.members[k], path + [Index(Str(k))]) :: d
    else if v.Object? then
      set k, d | k in v.members && d in ValidateConfigNulls(v.members[k], path + [GetAttr(k)]) :: d
    else {}
  }

  /** The independent statement of what is checked: no null sits directly in
      a list, set or tuple anywhere below a known, non-null value. */
  predicate NoNullElements(v: Value)
  {
    match v
    case List(_, es) => forall i | 0 <= i < |es| :: !es[i].Null? && NoNullElements(es[i])
    case Set(_, es) => forall i | 0 <= i < |es| :: !es[i].Null? && NoNullElements(es[i])
    case Tuple(es) => forall i | 0 <= i < |es| :: !es[i].Null? && NoNullElements(es[i])
    case Map(_, ms) => forall k | k in ms :: NoNullElements(ms[k])
    case Object(ms) => forall k | k in ms :: NoNullElements(ms[k])
    case _ => true
  }

  /** The check reports nothing exactly when the value holds no null element,
      whatever the starting path. */
  lemma {:induction false} ValidateConfigNullsEmptyIff(v: Value, path: Path)
    ensures ValidateConfigNulls(v, path) == {} <==> NoNullElements(v)
    decreases v
  {
    var diags := ValidateConfigNulls(v, path);
    if v.List? || v.Set? || v.Tuple? {
      forall i | 0 <= i < |v.elems|
        ensures ValidateConfigNulls(v.elems[i], path + [Index(ElementKey(v, i))]) == {}
                <==> NoNullElements(v.elems[i])
      {
        ValidateConfigNullsEmptyIff(v.elems[i], path + [Index(ElementKey(v, i))]);
      }
      if !NoNullElements(v) {
        var i :| 0 <= i < |v.elems| && (v.elems[i].Null? || !NoNullElements(v.elems[i]));
        if v.elems[i].Null? {
          assert (if v.Set? then path else path + [Index(ElementKey(v, i))]) in diags;
        } else {
          var d :| d in ValidateConfigNulls(v.elems[i], path + [Index(ElementKey(v, i))]);
          assert d in diags;
        }
      }
    } else if v.Map? || v.Object? {
      forall k | k in v.members
        ensures ValidateConfigNulls(v.members[k], path + [if v.Map? then Index(Str(k)) else GetAttr(k)]) == {}
                <==> NoNullElements(v.members[k])
      {
        ValidateConfigNullsEmptyIff(v.members[k], path + [if v.Map? then Index(Str(k)) else GetAttr(k)]);
      }
      if !NoNullElements(v) {
        var k :| k in v.members && !NoNullElements(v.members[k]);
        var d :| d in ValidateConfigNulls(v.members[k], path + [if v.Map? then Index(Str(k)) else GetAttr(k)]);
        assert d in diags;
      }
    }
  }

  /** A null element of a list or tuple is reported at its index. */
  lemma NullElementReported(v: Value, path: Path, i: nat)
    requires v.List? || v.Tuple?
    requires i < |v.elems| && v.elems[i].Null?
    ensures path + [Index(Num(i as real))] in ValidateConfigNulls(v, path)
  {
    assert ElementKey(v, i) == Num(i as real);
  }

  /** A null element of a set is reported at the set's own path. */
  lemma NullSetElementReported(v: Value, path: Path, i: nat)
    requires v.Set? && i < |v.elems| && v.elems[i].Null?
    ensures path in ValidateConfigNulls(v, path)
  {
  }

  /** A map or object whose members are all null or unknown yields nothing:
      null members are not errors. */
  lemma NullMembersNotReported(v: Value, path: Path)
    requires v.Map? || v.Object?
    requires forall k | k in v.members :: v.members[k].Null? || v.members[k].Unknown?
    ensures ValidateConfigNulls(v, path) == {}
  {
    ValidateConfigNullsEmptyIff(v, path);
  }

  /** The check descends into every member: what a member reports, the whole
      value reports under the member's step. */
  lemma MemberDiagnosticsIncluded(v: Value, path: Path, k: string)
    requires (v.Map? || v.Object?) && k in v.members
    ensures ValidateConfigNulls(v.members[k], path + [if v.Map? then Index(Str(k)) else GetAttr(k)])
            <= ValidateConfigNulls(v, path)
  {
  }
}
