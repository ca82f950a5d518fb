/** The typed value tree the adapter exchanges with the engine (go-cty):
    types, values that carry their type, and attribute/index paths. */
module Cty {

  /** A cty type. `TDynamic` is the pseudo-type of content whose type is only
      known at run time. */
  datatype Type =
    | TString
    | TNumber
    | TBool
    | TDynamic
    | TList(elem: Type)
    | TSet(elem: Type)
    | TMap(elem: Type)
    | TTuple(elems: seq<Type>)
    | TObject(attrs: map<string, Type>)
  {
    /** cty's `IsCollectionType`: list, set and map, but not tuple or object. */
    predicate IsCollectionType() { TList? || TSet? || TMap? }
  }

  /** A cty value. Null and Unknown carry the type they stand for; a list,
      set or map carries its element type; tuples and objects get their type
      from their members. Nullness and known-ness are shallow: a list that
      holds an unknown element is itself known. A set is held as the sequence
      cty iterates it in. Numbers are arbitrary-precision in cty and only
      compared here, so `real` stands for them. */
  datatype Value =
    | Null(ty: Type)
    | Unknown(ty: Type)
    | Str(s: string)
    | Num(n: real)
    | Bool(b: bool)
    | List(ety: Type, elems: seq<Value>)
    | Set(ety: Type, elems: seq<Value>)
    | Tuple(elems: seq<Value>)
    | Map(ety: Type, members: map<string, Value>)
    | Object(members: map<string, Value>)

  /** `Value.Type()`. */
  function TypeOf(v: Value): Type
  {
    match v
    case Null(t) => t
    case Unknown(t) => t
    case Str(_) => TString
    case Num(_) => TNumber
    case Bool(_) => TBool
    case List(t, _) => TList(t)
    case Set(t, _) => TSet(t)
    case Tuple(es) => TTuple(seq(|es|, i requires 0 <= i < |es| => TypeOf(es[i])))
    case Map(t, _) => TMap(t)
    case Object(ms) => TObject(map k | k in ms :: TypeOf(ms[k]))
  }

  /** `Value.IsKnown()`: only the value itself, not what it contains. */
  predicate IsKnown(v: Value) { !v.Unknown? }

  /** `Value.IsWhollyKnown()`: no unknown anywhere in the tree. */
  predicate WhollyKnown(v: Value)
  {
    match v
    case Unknown(_) => false
    case List(_, es) => forall i | 0 <= i < |es| :: WhollyKnown(es[i])
    case Set(_, es) => forall i | 0 <= i < |es| :: WhollyKnown(es[i])
    case Tuple(es) => forall i | 0 <= i < |es| :: WhollyKnown(es[i])
    case Map(_, ms) => forall k | k in ms :: WhollyKnown(ms[k])
    case Object(ms) => forall k | k in ms :: WhollyKnown(ms[k])
    case _ => true
  }

  /** A known, non-null collection of length zero (the `dstEmpty`/`srcEmpty`
      test of the reconciler). */
  predicate KnownEmpty(v: Value)
  {
    match v
    case List(_, es) => |es| == 0
    case Set(_, es) => |es| == 0
    case Tuple(es) => |es| == 0
    case Map(_, ms) => |ms| == 0
    case Object(ms) => |ms| == 0
    case _ => false
  }

  /** The shape invariant of a well-built value: list, set and map elements
      have the declared element type, recursively. */
  predicate WellFormed(v: Value)
  {
    match v
    case List(t, es) => forall i | 0 <= i < |es| :: TypeOf(es[i]) == t && WellFormed(es[i])
    case Set(t, es) => forall i | 0 <= i < |es| :: TypeOf(es[i]) == t && WellFormed(es[i])
    case Tuple(es) => forall i | 0 <= i < |es| :: WellFormed(es[i])
    case Map(t, ms) => forall k | k in ms :: TypeOf(ms[k]) == t && WellFormed(ms[k])
    case Object(ms) => forall k | k in ms :: WellFormed(ms[k])
    case _ => true
  }

  /** One step of a `cty.Path`: an attribute name, or an index whose key is a
      value (a number for lists and tuples, a string for maps, the element
      itself for sets). */
  datatype PathStep = GetAttr(name: string) | Index(key: Value)

  type Path = seq<PathStep>
}
