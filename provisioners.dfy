/** `Provisioner`: the wrapper that lets the engine use a legacy provisioner,
    with its memoised configuration schema, and the conversion of a
    connection value into a string map. */
module Provisioners {
  import opened Wrappers
  import opened Cty
  import opened Plugin

  /** A legacy `terraform.ResourceProvisioner`: a `schema.Provisioner`, whose
      configuration schema (`CoreConfigSchema` of its attribute schemas,
      `None` when that is nil) is computed outside this model, or any other
      implementation. */
  datatype LegacyProvisioner = SchemaProvisioner(coreSchema: Option<Type>) | OtherProvisioner

  datatype GetSchemaResponse = GetSchemaResponse(provisioner: Option<Type>, diagnostics: set<Diagnostic>)

  class Provisioner {
    const coreSchema: Option<Type>
    /** The memoised schema; `None` until one has been computed. */
    var schema: Option<Type>

    constructor (coreSchema: Option<Type>)
      ensures this.coreSchema == coreSchema && schema == None
    {
      this.coreSchema := coreSchema;
      schema := None;
    }

    /** `GetSchema`: a memoised schema is returned as it is; otherwise the
        computed one is returned and memoised, or, when there is none, an
        error is reported and nothing is memoised. */
    method GetSchema() returns (resp: GetSchemaResponse)
      modifies this
      ensures old(schema).Some? ==> schema == old(schema) && resp == GetSchemaResponse(schema, {})
      ensures old(schema).None? && coreSchema.None? ==>
        schema == None && resp == GetSchemaResponse(None, {ErrorDiag("missing provisioner schema")})
      ensures old(schema).None? && coreSchema.Some? ==>
        schema == coreSchema && resp == GetSchemaResponse(coreSchema, {})
    {
      if schema.Some? {
        return GetSchemaResponse(schema, {});
      }
      resp := GetSchemaResponse(coreSchema, {});
      if resp.provisioner.None? {
        resp := resp.(diagnostics := resp.diagnostics + {ErrorDiag("missing provisioner schema")});
        return;
      }
      schema := resp.provisioner;
    }
  }

  /** `NewProvisioner`: only a `schema.Provisioner` can be wrapped; anything
      else gives nil. */
  method NewProvisioner(rp: LegacyProvisioner) returns (p: Provisioner?)
    ensures rp.OtherProvisioner? <==> p == null
    ensures p != null ==> fresh(p) && p.coreSchema == rp.coreSchema && p.schema == None
  {
    if rp.OtherProvisioner? {
      return null;
    }
    p := new Provisioner(rp.coreSchema);
  }

  /** A member `convert.Convert` can turn into a string, or one the loop
      skips: a string, a bool, a null or an unknown. */
  predicate Textual(v: Value)
  {
    v.Null? || v.Unknown? || v.Str? || v.Bool?
  }

  /** The string `convert.Convert(v, cty.String)` gives for a known,
      non-null string or bool. */
  function AsText(v: Value): (t: string)
    requires v.Str? || v.Bool?
    ensures v.Str? ==> t == v.s
    ensures v.Bool? ==> (t == "true" <==> v.b) && (t == "false" <==> !v.b)
  {
    if v.Str? then v.s else if v.b then "true" else "false"
  }

  /** The input `stringMapFromValue` accepts without panicking: a null or
      unknown value, or a map or object (a connection block) whose members
      convert to strings. */
  predicate StringMapInput(val: Value)
  {
    val.Null? || val.Unknown? || ((val.Map? || val.Object?) && forall k | k in val.members :: Textual(val.members[k]))
  }

  /** `stringMapFromValue`: the known, non-null members of a map or object,
      each converted to a string; nothing for a null or unknown value. */
  method StringMapFromValue(val: Value) returns (m: map<string, string>)
    requires StringMapInput(val)
    ensures val.Null? || val.Unknown? ==> m == map[]
    ensures val.Map? || val.Object? ==> m.Keys <= val.members.Keys
    ensures val.Map? || val.Object? ==> forall k | k in val.members ::
      (k in m <==> (IsKnown(val.members[k]) && !val.members[k].Null?))
    ensures val.Map? || val.Object? ==> forall k | k in m ::
      (val.members[k].Str? || val.members[k].Bool?) && m[k] == AsText(val.members[k])
  {
    m := map[];
    if val.Null? || !IsKnown(val) {
      return;
    }
    var rest := val.members.Keys;
    while rest != {}
      invariant rest <= val.members.Keys
      invariant m.Keys <= val.members.Keys - rest
      invariant forall k | k in val.members.Keys - rest ::
        (k in m <==> (IsKnown(val.members[k]) && !val.members[k].Null?))
      invariant forall k | k in m :: (val.members[k].Str? || val.members[k].Bool?) && m[k] == AsText(val.members[k])
      decreases rest
    {
      var name :| name in rest;
      var av := val.members[name];
      rest := rest - {name};
      if !IsKnown(av) || av.Null? {
        continue;
      }
      m := m[name := AsText(av)];
    }
  }
}
