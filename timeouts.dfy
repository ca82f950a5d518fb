/** `copyTimeoutValues`: the legacy SDK keeps the `timeouts` block out of the
    state, so the adapter blanks it in a freshly produced object and carries
    it over from the prior value. */
module Timeouts {
  import opened Cty

  /** `schema.TimeoutsConfigKey`. */
  const TimeoutsKey: string := "timeouts"

  /** The `timeouts` value of `from` that may be carried over: `from` is
      non-null and holds a non-null, wholly known `timeouts` member. */
  predicate HasCopyableTimeouts(from: Value)
  {
    (from.Map? || from.Object?) && TimeoutsKey in from.members
    && !from.members[TimeoutsKey].Null? && WhollyKnown(from.members[TimeoutsKey])
  }

  /** `copyTimeoutValues(to, from)`. A `to` that is not a map or object (a
      panic in the source; the callers pass object values) is returned
      unchanged, and so is a `from` that is not one treated as carrying no
      timeouts. */
  function CopyTimeoutValues(to: Value, from: Value): (r: Value)
    ensures !(to.Map? || to.Object?) ==> r == to
    ensures (to.Map? || to.Object?) ==>
      r.Object? && forall k | k in to.members && k != TimeoutsKey :: k in r.members && r.members[k] == to.members[k]
  {
    if to.Null? || !(to.Map? || to.Object?) then to
    else
      var toAttrs :=
        if TimeoutsKey in to.members
        then to.members[TimeoutsKey := Null(TypeOf(to.members[TimeoutsKey]))]
        else to.members;
      if from.Null? then Object(toAttrs)
      else if !(from.Map? || from.Object?) then Object(toAttrs)
      else if TimeoutsKey !in from.members || from.members[TimeoutsKey].Null?
              || !WhollyKnown(from.members[TimeoutsKey]) then Object(toAttrs)
      else Object(toAttrs[TimeoutsKey := from.members[TimeoutsKey]])
  }

  /** What the copy does to an object: a null `to` comes back as it is;
      otherwise every attribute but `timeouts` is untouched, and `timeouts`
      is `from`'s when that is copyable (added even where `to` lacked it) and
      a null of its own type otherwise. */
  lemma CopyTimeoutValuesSpec(to: Value, from: Value)
    requires to.Null? || to.Object?
    ensures var r := CopyTimeoutValues(to, from);
      && (to.Null? ==> r == to)
      && (to.Object? ==>
            && r.Object?
            && r.members.Keys == to.members.Keys + (if HasCopyableTimeouts(from) then {TimeoutsKey} else {})
            && (forall k | k in to.members && k != TimeoutsKey :: r.members[k] == to.members[k])
            && (HasCopyableTimeouts(from) ==> r.members[TimeoutsKey] == from.members[TimeoutsKey])
            && (!HasCopyableTimeouts(from) && TimeoutsKey in to.members ==>
                  r.members[TimeoutsKey] == Null(TypeOf(to.members[TimeoutsKey]))))
  {
  }

  /** Whatever `timeouts` the result holds is null or wholly known: an
      unknown or partly unknown block is never carried into the state. */
  lemma CopiedTimeoutsKnown(to: Value, from: Value)
    requires to.Object?
    ensures var r := CopyTimeoutValues(to, from);
      TimeoutsKey in r.members ==> r.members[TimeoutsKey].Null? || WhollyKnown(r.members[TimeoutsKey])
  {
    CopyTimeoutValuesSpec(to, from);
  }

  /** Copying twice from the same prior value changes nothing more. */
  lemma {:induction false} CopyTimeoutValuesIdempotent(to: Value, from: Value)
    requires to.Null? || to.Object?
    ensures CopyTimeoutValues(CopyTimeoutValues(to, from), from) == CopyTimeoutValues(to, from)
  {
    var once := CopyTimeoutValues(to, from);
    CopyTimeoutValuesSpec(to, from);
    if to.Object? {
      CopyTimeoutValuesSpec(once, from);
      var twice := CopyTimeoutValues(once, from);
      if TimeoutsKey in once.members && !HasCopyableTimeouts(from) {
        assert TimeoutsKey in to.members;
        assert once.members[TimeoutsKey] == Null(TypeOf(to.members[TimeoutsKey]));
        assert twice.members[TimeoutsKey] == Null(TypeOf(once.members[TimeoutsKey]));
      }
      assert twice.members == once.members;
    }
  }

  /** An object whose own `timeouts` is absent, null or wholly known is a
      fixed point of copying from itself. */
  lemma CopyTimeoutValuesSelf(v: Value)
    requires v.Object?
    requires TimeoutsKey in v.members ==> v.members[TimeoutsKey].Null? || WhollyKnown(v.members[TimeoutsKey])
    ensures CopyTimeoutValues(v, v) == v
  {
    var r := CopyTimeoutValues(v, v);
    CopyTimeoutValuesSpec(v, v);
    assert r.members == v.members;
  }
}
