/** `removeAttributes`: after a state upgrade, JSON object keys that are no
    longer attributes of the schema type are deleted, so that the state can be
    decoded against the current schema. */
module Prune {
  import opened Cty
  import opened Json

  /** The value `removeAttributes(v, ty)` leaves behind. An array is descended
      into only at a list or set type (not a tuple); a JSON object at a map
      type has its values pruned against the element type; at an object type
      it keeps only the declared attributes, each pruned against its own type;
      at the dynamic type or any other type it is left alone. */
  function Pruned(v: Json, ty: Type): (r: Json)
    ensures r.JObject? == v.JObject? && r.JArray? == v.JArray?
    ensures r.JArray? ==> |r.elems| == |v.elems|
    ensures r.JObject? ==> r.fields.Keys <= v.fields.Keys
    decreases v
  {
    match v
    case JArray(es) =>
      if ty.TList? || ty.TSet? then JArray(seq(|es|, i requires 0 <= i < |es| => Pruned(es[i], ty.elem)))
      else v
    case JObject(fs) =>
      if ty.TMap? then JObject(map k | k in fs :: Pruned(fs[k], ty.elem))
      else if ty.TObject? then JObject(map k | k in fs && k in ty.attrs :: Pruned(fs[k], ty.attrs[k]))
      else v
    case _ => v
  }

  /** What pruning establishes: along the positions pruning descends into,
      every JSON object at an object-typed position holds only attributes of
      that type. */
  predicate Conforms(v: Json, ty: Type)
    decreases v
  {
    match v
    case JArray(es) =>
      (ty.TList? || ty.TSet?) ==> forall i | 0 <= i < |es| :: Conforms(es[i], ty.elem)
    case JObject(fs) =>
      && (ty.TMap? ==> forall k | k in fs :: Conforms(fs[k], ty.elem))
      && (ty.TObject? ==> forall k | k in fs :: k in ty.attrs && Conforms(fs[k], ty.attrs[k]))
    case _ => true
  }

  /** `a` is `b` with some object keys deleted, at any depth, and nothing
      added or altered. */
  predicate DeletesOnly(a: Json, b: Json)
    decreases b
  {
    match b
    case JArray(bs) =>
      a.JArray? && |a.elems| == |bs| && forall i | 0 <= i < |bs| :: DeletesOnly(a.elems[i], bs[i])
    case JObject(bf) =>
      a.JObject? && a.fields.Keys <= bf.Keys && forall k | k in a.fields :: DeletesOnly(a.fields[k], bf[k])
    case _ => a == b
  }

  /** After pruning, the value conforms to the type. */
  lemma {:induction false} PrunedConforms(v: Json, ty: Type)
    ensures Conforms(Pruned(v, ty), ty)
    decreases v
  {
    match v
    case JArray(es) =>
      if ty.TList? || ty.TSet? {
        forall i | 0 <= i < |es| ensures Conforms(Pruned(es[i], ty.elem), ty.elem) {
          PrunedConforms(es[i], ty.elem);
        }
      }
    case JObject(fs) =>
      if ty.TMap? {
        forall k | k in fs ensures Conforms(Pruned(fs[k], ty.elem), ty.elem) {
          PrunedConforms(fs[k], ty.elem);
        }
      } else if ty.TObject? {
        forall k | k in fs && k in ty.attrs ensures Conforms(Pruned(fs[k], ty.attrs[k]), ty.attrs[k]) {
          PrunedConforms(fs[k], ty.attrs[k]);
        }
      }
    case _ =>
  }

  /** A value that already conforms is left exactly as it is. */
  lemma {:induction false} ConformingUnchanged(v: Json, ty: Type)
    requires Conforms(v, ty)
    ensures Pruned(v, ty) == v
    decreases v
  {
    match v
    case JArray(es) =>
      if ty.TList? || ty.TSet? {
        forall i | 0 <= i < |es| ensures Pruned(es[i], ty.elem) == es[i] {
          ConformingUnchanged(es[i], ty.elem);
        }
        assert Pruned(v, ty).elems == es;
      }
    case JObject(fs) =>
      if ty.TMap? {
        forall k | k in fs ensures Pruned(fs[k], ty.elem) == fs[k] {
          ConformingUnchanged(fs[k], ty.elem);
        }
        assert Pruned(v, ty).fields == fs;
      } else if ty.TObject? {
        forall k | k in fs ensures Pruned(fs[k], ty.attrs[k]) == fs[k] {
          ConformingUnchanged(fs[k], ty.attrs[k]);
        }
        assert Pruned(v, ty).fields == fs;
      }
    case _ =>
  }

  /** A second run is a no-op. */
  lemma PrunedIdempotent(v: Json, ty: Type)
    ensures Pruned(Pruned(v, ty), ty) == Pruned(v, ty)
  {
    PrunedConforms(v, ty);
    ConformingUnchanged(Pruned(v, ty), ty);
  }

  /** Pruning only deletes keys. */
  lemma {:induction false} PrunedDeletesOnly(v: Json, ty: Type)
    ensures DeletesOnly(Pruned(v, ty), v)
    decreases v
  {
    match v
    case JArray(es) =>
      if ty.TList? || ty.TSet? {
        forall i | 0 <= i < |es| ensures DeletesOnly(Pruned(es[i], ty.elem), es[i]) {
          PrunedDeletesOnly(es[i], ty.elem);
        }
      } else {
        DeletesOnlyRefl(v);
      }
    case JObject(fs) =>
      if ty.TMap? {
        forall k | k in fs ensures DeletesOnly(Pruned(fs[k], ty.elem), fs[k]) {
          PrunedDeletesOnly(fs[k], ty.elem);
        }
      } else if ty.TObject? {
        forall k | k in fs && k in ty.attrs ensures DeletesOnly(Pruned(fs[k], ty.attrs[k]), fs[k]) {
          PrunedDeletesOnly(fs[k], ty.attrs[k]);
        }
      } else {
        DeletesOnlyRefl(v);
      }
    case _ =>
  }

  lemma {:induction false} DeletesOnlyRefl(v: Json)
    ensures DeletesOnly(v, v)
    decreases v
  {
    match v
    case JArray(es) =>
      forall i | 0 <= i < |es| ensures DeletesOnly(es[i], es[i]) {
        DeletesOnlyRefl(es[i]);
      }
    case JObject(fs) =>
      forall k | k in fs ensures DeletesOnly(fs[k], fs[k]) {
        DeletesOnlyRefl(fs[k]);
      }
    case _ =>
  }

  /** At an object type, exactly the declared attributes survive; at the
      dynamic type, or a type that is neither map nor object, the JSON object
      is untouched. */
  lemma PrunedObjectKeys(v: Json, ty: Type)
    requires v.JObject?
    ensures ty.TObject? ==> Pruned(v, ty).fields.Keys == v.fields.Keys * ty.attrs.Keys
    ensures ty.TMap? ==> Pruned(v, ty).fields.Keys == v.fields.Keys
    ensures !ty.TObject? && !ty.TMap? ==> Pruned(v, ty) == v
  {
  }

  /** `removeAttributes(v, ty)`. The source deletes keys from the nested maps
      in place; here the pruned value is returned. The loops visit elements
      and keys as the source's `range` loops do. */
  method RemoveAttributes(v: Json, ty: Type) returns (r: Json)
    ensures r == Pruned(v, ty)
    decreases v
  {
    match v {
      case JArray(es) =>
        if !(ty.TList? || ty.TSet?) {
          return v;
        }
        var out: seq<Json> := [];
        var i := 0;
        while i < |es|
          invariant 0 <= i <= |es| && |out| == i
          invariant forall j | 0 <= j < i :: out[j] == Pruned(es[j], ty.elem)
        {
          var e := RemoveAttributes(es[i], ty.elem);
          out := out + [e];
          i := i + 1;
        }
        r := JArray(out);
      case JObject(fs) =>
        if !(ty.TMap? || ty.TObject?) {
          return v;
        }
        var out := fs;
        var rest := fs.Keys;
        while rest != {}
          invariant rest <= fs.Keys && out.Keys <= fs.Keys
          invariant forall k | k in rest :: k in out && out[k] == fs[k]
          invariant forall k | k in fs && k !in rest ::
            if ty.TMap? then k in out && out[k] == Pruned(fs[k], ty.elem)
            else if k in ty.attrs then k in out && out[k] == Pruned(fs[k], ty.attrs[k])
            else k !in out
          decreases rest
        {
          var k :| k in rest;
          if ty.TMap? {
            var e := RemoveAttributes(fs[k], ty.elem);
            out := out[k := e];
          } else if k !in ty.attrs {
            // no longer present in the schema
            out := out - {k};
          } else {
            var e := RemoveAttributes(fs[k], ty.attrs[k]);
            out := out[k := e];
          }
          rest := rest - {k};
        }
        r := JObject(out);
        assert r.fields == Pruned(v, ty).fields;
      case _ =>
        r := v;
    }
  }
}
