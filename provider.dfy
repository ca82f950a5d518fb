/** The legacy provider adapter (`Provider`): it wraps a legacy plugin, caches
    its schemas, fills provider configuration defaults and upgrades stored
    resource state. */
module Adapter {
  import opened Wrappers
  import opened Cty
  import opened Json
  import opened Plugin
  import opened Upgrade
  import opened Prune
  import opened ValidateNulls

  /** `providers.Schema`: a schema version and a block, the block standing
      here for its implied type. */
  datatype Schema = Schema(version: int, block: Type)

  /** `providers.GetSchemaResponse`; `provider` is `None` while the provider
      block is nil, which is how the cache tells it is empty. */
  datatype SchemaResponse = SchemaResponse(
    provider: Option<Schema>,
    resourceTypes: map<string, Schema>,
    dataSources: map<string, Schema>)

  function SchemaOf(r: Resource): Schema
  {
    Schema(r.schemaVersion, r.implied)
  }

  /** The schemas `GetSchema` computes from the plugin: the provider block at
      version 0 (the source leaves the version unset), one entry per resource
      and per data source. */
  function ComputedSchemas(plugin: LegacyPlugin): SchemaResponse
  {
    SchemaResponse(
      Some(Schema(0, plugin.implied)),
      map n | n in plugin.resources :: SchemaOf(plugin.resources[n]),
      map n | n in plugin.dataSources :: SchemaOf(plugin.dataSources[n]))
  }

  /** What `NewProvider` is handed: a legacy `*schema.Provider`, or some other
      `terraform.ResourceProvider`. */
  datatype ResourceProvider = Legacy(plugin: LegacyPlugin) | Other

  // ---------------------------------------------------------------------
  // Default filling in PrepareProviderConfig

  /** The outcome of the transform callback on one attribute: the new value,
      the diagnostics it appended, and whether it returned an error (which
      stops the transform). */
  datatype Step = Step(val: Value, diags: set<Diagnostic>, failed: bool)

  /** Go's `%q` of an attribute name (escaping inside the name aside). */
  function Quoted(s: string): string
  {
    "\"" + s + "\""
  }

  /** Whether a top-level attribute gets a default: it is null, known to the
      provider schema, neither deprecated nor removed, and its default is
      not nil (or fails to be computed). */
  predicate Fillable(schema: map<string, AttrSchema>, name: string, val: Value)
  {
    val.Null? && name in schema && schema[name].deprecated == "" && schema[name].removed == ""
    && schema[name].default != Ok(None)
  }

  /** The transform callback at the top-level attribute `name`. */
  function FillDefault(schema: map<string, AttrSchema>, name: string, val: Value, shims: Shims): (st: Step)
    ensures !Fillable(schema, name, val) ==> st == Step(val, {}, false)
    ensures st.failed ==> exists d | d in st.diags :: d.severity == Error
  {
    if !val.Null? || name !in schema then Step(val, {}, false)
    else
      var a := schema[name];
      if a.deprecated != "" || a.removed != "" then Step(val, {}, false)
      else
        match a.default
        case Err(e) =>
          Step(val, {ErrorDiag("error getting default for " + Quoted(name) + ": " + e)}, true)
        case Ok(None) => Step(val, {}, false)
        case Ok(Some(def)) =>
          // the legacy SDK let "" stand for a bool default
          var emptyBool := TypeOf(val) == TBool && def == Str("");
          var tmp := if emptyBool then Bool(false) else def;
          var warns :=
            if emptyBool then {Diagnostic(Warning, "provider set empty string as default value for bool " + name, [])}
            else {};
          match shims.convert(tmp, TypeOf(val))
          case Err(e) => Step(val, warns + {ErrorDiag("error setting default for " + Quoted(name) + ": " + e)}, true)
          case Ok(c) => Step(c, warns, false)
  }

  /** The attributes after the transform, the diagnostics it appended and
      whether it stopped on an error. */
  datatype Filled = Filled(attrs: map<string, Value>, diags: set<Diagnostic>, failed: bool)

  /** The transform over the top-level attributes, visited in `names` order;
      the first failing attribute stops it. Attributes keep their names, and
      an attribute that is not fillable keeps its value. */
  function FillDefaults(names: seq<string>, attrs: map<string, Value>,
                        schema: map<string, AttrSchema>, shims: Shims): (f: Filled)
    ensures f.attrs.Keys == attrs.Keys
    ensures forall k | k in attrs && !Fillable(schema, k, attrs[k]) :: f.attrs[k] == attrs[k]
    ensures f.failed ==> exists d | d in f.diags :: d.severity == Error
    decreases |names|
  {
    if |names| == 0 then Filled(attrs, {}, false)
    else if names[0] !in attrs then FillDefaults(names[1..], attrs, schema, shims)
    else
      var n := names[0];
      var st := FillDefault(schema, n, attrs[n], shims);
      if st.failed then Filled(attrs, st.diags, true)
      else
        var rest := FillDefaults(names[1..], attrs[n := st.val], schema, shims);
        Filled(rest.attrs, st.diags + rest.diags, rest.failed)
  }

  /** `names` lists the attributes `keys`, each once, in whatever order the
      transform visits them (a Go map range, so no particular order). */
  predicate InIterationOrder(names: seq<string>, keys: set<string>)
  {
    (forall i | 0 <= i < |names| :: names[i] in keys)
    && (forall k | k in keys :: k in names)
    && (forall i, j | 0 <= i < j < |names| :: names[i] != names[j])
  }

  /** `providers.PrepareProviderConfigResponse`. */
  datatype PrepareResponse = PrepareResponse(prepared: Option<Value>, diagnostics: set<Diagnostic>)

  /** The diagnostics for the null elements found by `validateConfigNulls`. */
  function NullDiags(paths: set<Path>): set<Diagnostic>
  {
    set p | p in paths :: Diagnostic(Error, "Null value found in list", p)
  }

  /** `PrepareProviderConfig`: fill defaults (only a known object has
      top-level attributes), coerce to the provider block, then refuse nulls
      in list positions. */
  function PrepareConfig(plugin: LegacyPlugin, config: Value, names: seq<string>, shims: Shims): (r: PrepareResponse)
    ensures r.prepared.Some? ==> ValidateConfigNulls(r.prepared.value, []) == {}
    ensures !config.Object? ==> forall d | d in r.diagnostics :: d.severity == Error
  {
    var f := if config.Object? then FillDefaults(names, config.members, plugin.schema, shims)
             else Filled(map[], {}, false);
    var configVal := if config.Object? then Object(f.attrs) else config;
    if f.failed then PrepareResponse(None, f.diags)
    else
      match shims.coerce(configVal, plugin.implied)
      case Err(e) => PrepareResponse(None, f.diags + {ErrorDiag(e)})
      case Ok(cv) =>
        var nulls := ValidateConfigNulls(cv, []);
        if nulls != {} then PrepareResponse(None, f.diags + NullDiags(nulls))
        else PrepareResponse(Some(cv), f.diags)
  }

  /** `PrepareProviderConfig` as written, reading `tfdiags.Diagnostics.Append`
      as a type switch over diagnostics, diagnostic lists and errors whose
      other cases panic: the bool warning is appended as a plain `string`
      and the null-element diagnostics as an unnamed `[]tfdiags.Diagnostic`,
      so either append ends the call (`None`). */
  function PrepareConfigAsWritten(plugin: LegacyPlugin, config: Value, names: seq<string>, shims: Shims)
    : (r: Option<PrepareResponse>)
    ensures r.Some? ==> forall d | d in r.value.diagnostics :: d.severity == Error
    ensures r.Some? && r.value.prepared.Some? ==> ValidateConfigNulls(r.value.prepared.value, []) == {}
  {
    var f := if config.Object? then FillDefaults(names, config.members, plugin.schema, shims)
             else Filled(map[], {}, false);
    var configVal := if config.Object? then Object(f.attrs) else config;
    if exists d | d in f.diags :: d.severity == Warning then None
    else if f.failed then Some(PrepareResponse(None, f.diags))
    else
      match shims.coerce(configVal, plugin.implied)
      case Err(e) => Some(PrepareResponse(None, f.diags + {ErrorDiag(e)}))
      case Ok(cv) =>
        if ValidateConfigNulls(cv, []) != {} then None
        else Some(PrepareResponse(Some(cv), f.diags))
  }

  // ---------------------------------------------------------------------
  // UpgradeResourceState

  /** `providers.UpgradeResourceStateRequest`. */
  datatype UpgradeRequest = UpgradeRequest(typeName: string, version: int, rawStateJson: Bytes, rawStateFlatmap: Flatmap)

  /** `providers.UpgradeResourceStateResponse`. */
  datatype UpgradeResponse = UpgradeResponse(upgradedState: Option<Value>, diagnostics: set<Diagnostic>)

  /** The JSON map to upgrade and its version: from the flatmap when there is
      one, else decoded from the JSON; `None` when the request holds neither. */
  function DecodedState(req: UpgradeRequest, res: Resource, shims: Shims): Option<Result<(JsonMap, int)>>
  {
    if |req.rawStateFlatmap| > 0 then Some(FlatmapUpgrade(req.version, req.rawStateFlatmap, res, shims))
    else if |req.rawStateJson| > 0 then
      Some(match shims.unmarshal(req.rawStateJson)
           case Err(e) => Err(e)
           case Ok(jm) => Ok((jm, req.version)))
    else None
  }

  /** `UpgradeResourceState` for the resource `res`: decode, run the
      upgraders, drop attributes the schema no longer has, decode against the
      schema, coerce and normalize. Any error ends it with that one error. */
  function UpgradeResource(req: UpgradeRequest, res: Resource, shims: Shims): (r: UpgradeResponse)
    ensures r.upgradedState.Some? ==> r.diagnostics == {}
    ensures |r.diagnostics| <= 1
    ensures DecodedState(req, res, shims).None? ==> r == UpgradeResponse(None, {})
  {
    match DecodedState(req, res, shims)
    case None => UpgradeResponse(None, {})
    case Some(Err(e)) => UpgradeResponse(None, {ErrorDiag(e)})
    case Some(Ok((jm, v))) =>
      match Chain(v, jm, res.upgraders)
      case Err(e) => UpgradeResponse(None, {ErrorDiag(e)})
      case Ok((upgraded, _)) =>
        var pruned := Pruned(JObject(upgraded), res.implied).fields;
        match shims.fromJsonMap(pruned, res.implied)
        case Err(e) => UpgradeResponse(None, {ErrorDiag(e)})
        case Ok(val) =>
          match shims.coerce(val, res.implied)
          case Err(e) => UpgradeResponse(None, {ErrorDiag(e)})
          case Ok(cv) => UpgradeResponse(Some(shims.normalizeLegacy(cv, res.implied)), {})
  }

  /** `Provider`: the wrapped plugin and the schema cache. */
  class Provider {
    const plugin: LegacyPlugin
    var schemas: SchemaResponse

    /** The cache is empty or holds exactly the plugin's schemas. */
    ghost predicate Valid()
      reads this
    {
      schemas.provider.Some? ==> schemas == ComputedSchemas(plugin)
    }

    constructor (plugin: LegacyPlugin)
      ensures this.plugin == plugin && schemas == SchemaResponse(None, map[], map[])
      ensures Valid()
    {
      this.plugin := plugin;
      schemas := SchemaResponse(None, map[], map[]);
    }

    /** `GetSchema`: served from the cache once filled; otherwise computed
        from the plugin and stored. */
    method GetSchema() returns (resp: SchemaResponse)
      modifies this
      ensures old(schemas.provider.Some?) ==> resp == old(schemas) && schemas == old(schemas)
      ensures old(schemas.provider.None?) ==> resp == ComputedSchemas(plugin) && schemas == resp
      ensures old(Valid()) ==> Valid() && resp == ComputedSchemas(plugin)
    {
      if schemas.provider.Some? {
        return schemas;
      }
      var resourceTypes := SchemasOf(plugin.resources);
      var dataSources := SchemasOf(plugin.dataSources);
      resp := SchemaResponse(Some(Schema(0, plugin.implied)), resourceTypes, dataSources);
      schemas := resp;
    }

    /** `PrepareProviderConfig`, with the attribute names of an object
        `config` in whatever order the transform visits them. */
    method PrepareProviderConfig(config: Value, names: seq<string>, shims: Shims) returns (resp: PrepareResponse)
      requires config.Object? ==> InIterationOrder(names, config.members.Keys)
      modifies this
      ensures old(Valid()) ==> Valid() && schemas == ComputedSchemas(plugin)
      ensures resp == PrepareConfig(plugin, config, names, shims)
    {
      var schema := GetSchema();
      var f := Filled(map[], {}, false);
      var configVal := config;
      if config.Object? {
        f := FillDefaults(names, config.members, plugin.schema, shims);
        configVal := Object(f.attrs);
      }
      if f.failed {
        return PrepareResponse(None, f.diags);
      }
      var coerced := shims.coerce(configVal, plugin.implied);
      if coerced.Err? {
        return PrepareResponse(None, f.diags + {ErrorDiag(coerced.msg)});
      }
      var nulls := ValidateConfigNulls(coerced.value, []);
      if nulls != {} {
        return PrepareResponse(None, f.diags + NullDiags(nulls));
      }
      resp := PrepareResponse(Some(coerced.value), f.diags);
    }

    /** `UpgradeResourceState` for a resource type the plugin has. */
    method UpgradeResourceState(req: UpgradeRequest, shims: Shims) returns (resp: UpgradeResponse)
      requires req.typeName in plugin.resources
      ensures resp == UpgradeResource(req, plugin.resources[req.typeName], shims)
    {
      var res := plugin.resources[req.typeName];
      var version := req.version;
      var jsonMap: JsonMap := map[];
      if |req.rawStateFlatmap| > 0 {
        var r := UpgradeFlatmapState(version, req.rawStateFlatmap, res, shims);
        if r.Err? {
          return UpgradeResponse(None, {ErrorDiag(r.msg)});
        }
        jsonMap := r.value.0;
        version := r.value.1;
      } else if |req.rawStateJson| > 0 {
        var r := shims.unmarshal(req.rawStateJson);
        if r.Err? {
          return UpgradeResponse(None, {ErrorDiag(r.msg)});
        }
        jsonMap := r.value;
      } else {
        return UpgradeResponse(None, {});
      }
      assert DecodedState(req, res, shims) == Some(Ok((jsonMap, version)));
      var upgraded := UpgradeJSONState(version, jsonMap, res);
      if upgraded.Err? {
        return UpgradeResponse(None, {ErrorDiag(upgraded.msg)});
      }
      var pruned := RemoveAttributes(JObject(upgraded.value), res.implied);
      var val := shims.fromJsonMap(pruned.fields, res.implied);
      if val.Err? {
        return UpgradeResponse(None, {ErrorDiag(val.msg)});
      }
      var coerced := shims.coerce(val.value, res.implied);
      if coerced.Err? {
        return UpgradeResponse(None, {ErrorDiag(coerced.msg)});
      }
      resp := UpgradeResponse(Some(shims.normalizeLegacy(coerced.value, res.implied)), {});
    }
  }

  /** `NewProvider`: nil unless the provider is a legacy `*schema.Provider`;
      the cache starts empty. */
  method NewProvider(rp: ResourceProvider) returns (p: Provider?)
    ensures rp.Other? <==> p == null
    ensures p != null ==> fresh(p) && p.plugin == rp.plugin && p.schemas.provider.None? && p.Valid()
  {
    if rp.Other? {
      return null;
    }
    p := new Provider(rp.plugin);
  }

  /** The loop filling a schema map from a resource map. */
  method SchemasOf(rs: map<string, Resource>) returns (out: map<string, Schema>)
    ensures out == map n | n in rs :: SchemaOf(rs[n])
  {
    out := map[];
    var rest := rs.Keys;
    while rest != {}
      invariant rest <= rs.Keys
      invariant out == map n | n in rs.Keys - rest :: SchemaOf(rs[n])
      decreases rest
    {
      var n :| n in rest;
      out := out[n := SchemaOf(rs[n])];
      rest := rest - {n};
    }
  }

  // ---------------------------------------------------------------------
  // Properties

  /** A `""` default of a bool attribute becomes `false`, with a warning. */
  lemma EmptyBoolDefault(schema: map<string, AttrSchema>, name: string, shims: Shims)
    requires name in schema && schema[name] == AttrSchema("", "", Ok(Some(Str(""))))
    requires shims.convert(Bool(false), TBool).Ok?
    ensures FillDefault(schema, name, Null(TBool), shims)
            == Step(shims.convert(Bool(false), TBool).value,
                    {Diagnostic(Warning, "provider set empty string as default value for bool " + name, [])}, false)
  {
  }

  /** A fillable attribute with a default gets that default, converted to
      the attribute's type. */
  lemma DefaultFilled(schema: map<string, AttrSchema>, name: string, val: Value, def: Value, shims: Shims)
    requires Fillable(schema, name, val) && schema[name].default == Ok(Some(def))
    requires !(val.ty == TBool && def == Str("")) && shims.convert(def, val.ty).Ok?
    ensures FillDefault(schema, name, val, shims) == Step(shims.convert(def, val.ty).value, {}, false)
  {
  }

  /** A prepared configuration never holds a null in a list position, and a
      configuration is prepared exactly when no error was reported. */
  lemma PreparedHasNoNullElements(plugin: LegacyPlugin, config: Value, names: seq<string>, shims: Shims)
    ensures var r := PrepareConfig(plugin, config, names, shims);
      && (r.prepared.Some? ==> NoNullElements(r.prepared.value))
      && (r.prepared.None? <==> exists d | d in r.diagnostics :: d.severity == Error)
  {
    var r := PrepareConfig(plugin, config, names, shims);
    var f := if config.Object? then FillDefaults(names, config.members, plugin.schema, shims)
             else Filled(map[], {}, false);
    if r.prepared.Some? {
      ValidateConfigNullsEmptyIff(r.prepared.value, []);
    }
    assert forall d | d in f.diags :: d.severity == Error ==> f.failed by {
      FillDiagsNoErrorUnlessFailed(names, if config.Object? then config.members else map[], plugin.schema, shims);
    }
    if !f.failed {
      var configVal := if config.Object? then Object(f.attrs) else config;
      var c := shims.coerce(configVal, plugin.implied);
      if c.Ok? {
        var nulls := ValidateConfigNulls(c.value, []);
        if nulls != {} {
          var p :| p in nulls;
          assert Diagnostic(Error, "Null value found in list", p) in r.diagnostics;
        }
      } else {
        assert ErrorDiag(c.msg) in r.diagnostics;
      }
    }
  }

  /** Without a failure the transform only appends warnings. */
  lemma {:induction false} FillDiagsNoErrorUnlessFailed(names: seq<string>, attrs: map<string, Value>,
                                                       schema: map<string, AttrSchema>, shims: Shims)
    ensures var f := FillDefaults(names, attrs, schema, shims);
      !f.failed ==> forall d | d in f.diags :: d.severity == Warning
    decreases |names|
  {
    if |names| > 0 {
      if names[0] !in attrs {
        FillDiagsNoErrorUnlessFailed(names[1..], attrs, schema, shims);
      } else {
        var n := names[0];
        var st := FillDefault(schema, n, attrs[n], shims);
        if !st.failed {
          FillDiagsNoErrorUnlessFailed(names[1..], attrs[n := st.val], schema, shims);
        }
      }
    }
  }

  /** After a transform that did not stop, an attribute visited in `names`
      holds what the callback made of it, and any other its old value. */
  lemma {:induction false} FillDefaultsValues(names: seq<string>, attrs: map<string, Value>,
                                              schema: map<string, AttrSchema>, shims: Shims)
    requires forall i, j | 0 <= i < j < |names| :: names[i] != names[j]
    ensures var f := FillDefaults(names, attrs, schema, shims);
      !f.failed ==>
        forall k | k in attrs :: f.attrs[k] == (if k in names then FillDefault(schema, k, attrs[k], shims).val else attrs[k])
    decreases |names|
  {
    if |names| > 0 {
      var n := names[0];
      assert forall k | k != n :: (k in names <==> k in names[1..]);
      if n !in attrs {
        FillDefaultsValues(names[1..], attrs, schema, shims);
      } else {
        var st := FillDefault(schema, n, attrs[n], shims);
        if !st.failed {
          assert n !in names[1..];
          FillDefaultsValues(names[1..], attrs[n := st.val], schema, shims);
        }
      }
    }
  }

  /** A default that is present, is not the legacy `""` for a bool, and
      converts to the type `ty`. */
  predicate CleanDefault(schema: map<string, AttrSchema>, name: string, ty: Type, shims: Shims)
  {
    name in schema && schema[name].default.Ok? && schema[name].default.value.Some?
    && !(ty == TBool && schema[name].default.value.value == Str(""))
    && shims.convert(schema[name].default.value.value, ty).Ok?
  }

  /** When every fillable attribute the transform visits has a clean default,
      the transform neither stops nor reports anything. */
  lemma {:induction false} FillDefaultsClean(names: seq<string>, attrs: map<string, Value>,
                                             schema: map<string, AttrSchema>, shims: Shims)
    requires forall i, j | 0 <= i < j < |names| :: names[i] != names[j]
    requires forall k | k in attrs && k in names && Fillable(schema, k, attrs[k]) :: CleanDefault(schema, k, TypeOf(attrs[k]), shims)
    ensures var f := FillDefaults(names, attrs, schema, shims);
      !f.failed && f.diags == {}
    decreases |names|
  {
    if |names| > 0 {
      var n := names[0];
      if n !in attrs {
        FillDefaultsClean(names[1..], attrs, schema, shims);
      } else {
        var val := attrs[n];
        if Fillable(schema, n, val) {
          DefaultFilled(schema, n, val, schema[n].default.value.value, shims);
        }
        var st := FillDefault(schema, n, val, shims);
        assert st.diags == {} && !st.failed;
        assert forall k | k in names[1..] :: k != n by {
          forall k | k in names[1..] ensures k != n {
            var j :| 0 <= j < |names[1..]| && names[1..][j] == k;
            assert names[j + 1] == k;
          }
        }
        FillDefaultsClean(names[1..], attrs[n := st.val], schema, shims);
      }
    }
  }

  /** The clean default of `name`, converted to `ty`. */
  function ConvertedDefault(schema: map<string, AttrSchema>, name: string, ty: Type, shims: Shims): Value
    requires CleanDefault(schema, name, ty, shims)
  {
    shims.convert(schema[name].default.value.value, ty).value
  }

  /** The configuration attributes with every fillable one replaced by its
      converted default. */
  function Defaulted(schema: map<string, AttrSchema>, attrs: map<string, Value>, shims: Shims): map<string, Value>
    requires forall k | k in attrs && Fillable(schema, k, attrs[k]) :: CleanDefault(schema, k, TypeOf(attrs[k]), shims)
  {
    map k | k in attrs ::
      if Fillable(schema, k, attrs[k]) then ConvertedDefault(schema, k, TypeOf(attrs[k]), shims)
      else attrs[k]
  }

  /** A null attribute does not stand in the way of a configuration: when each
      null attribute's default converts cleanly and the configuration with
      those defaults coerces to a value without nulls in list positions, that
      value is the prepared configuration and nothing is reported. */
  lemma DefaultsPrepared(plugin: LegacyPlugin, config: Value, names: seq<string>, shims: Shims, cv: Value)
    requires config.Object? && InIterationOrder(names, config.members.Keys)
    requires forall k | k in config.members && Fillable(plugin.schema, k, config.members[k]) ::
      CleanDefault(plugin.schema, k, TypeOf(config.members[k]), shims)
    requires shims.coerce(Object(Defaulted(plugin.schema, config.members, shims)), plugin.implied) == Ok(cv)
    requires ValidateConfigNulls(cv, []) == {}
    ensures PrepareConfig(plugin, config, names, shims) == PrepareResponse(Some(cv), {})
  {
    var attrs := config.members;
    FillDefaultsClean(names, attrs, plugin.schema, shims);
    FillDefaultsValues(names, attrs, plugin.schema, shims);
    var f := FillDefaults(names, attrs, plugin.schema, shims);
    forall k | k in attrs ensures f.attrs[k] == Defaulted(plugin.schema, attrs, shims)[k] {
      if Fillable(plugin.schema, k, attrs[k]) {
        DefaultFilled(plugin.schema, k, attrs[k], plugin.schema[k].default.value.value, shims);
      }
    }
    assert f.attrs == Defaulted(plugin.schema, attrs, shims);
  }


  /** The code as written agrees with `PrepareConfig` wherever it returns,
      and never returns where `PrepareConfig` reports a warning or finds a
      null in a list position. */
  lemma AppendAbortsAsWritten(plugin: LegacyPlugin, config: Value, names: seq<string>, shims: Shims)
    ensures var r := PrepareConfig(plugin, config, names, shims);
      var w := PrepareConfigAsWritten(plugin, config, names, shims);
      var f := if config.Object? then FillDefaults(names, config.members, plugin.schema, shims)
               else Filled(map[], {}, false);
      var c := shims.coerce(if config.Object? then Object(f.attrs) else config, plugin.implied);
      && (w.Some? ==> w.value == r)
      && ((exists d | d in r.diagnostics :: d.severity == Warning) ==> w.None?)
      && (!f.failed && c.Ok? && ValidateConfigNulls(c.value, []) != {} ==> w.None? && r.prepared.None?)
  {
    var r := PrepareConfig(plugin, config, names, shims);
    var f := if config.Object? then FillDefaults(names, config.members, plugin.schema, shims)
             else Filled(map[], {}, false);
    if exists d | d in r.diagnostics :: d.severity == Warning {
      var d :| d in r.diagnostics && d.severity == Warning;
      assert d in f.diags;
    }
  }

  /** The input that shows it: a null bool attribute, visited first, whose
      default is the legacy `""`. `PrepareConfig` reports the warning; the
      code as written never returns. */
  lemma EmptyBoolAbortsAsWritten(plugin: LegacyPlugin, config: Value, names: seq<string>, shims: Shims)
    requires config.Object? && |names| > 0 && names[0] in config.members
    requires config.members[names[0]] == Null(TBool)
    requires names[0] in plugin.schema && plugin.schema[names[0]] == AttrSchema("", "", Ok(Some(Str(""))))
    ensures Diagnostic(Warning, "provider set empty string as default value for bool " + names[0], [])
              in PrepareConfig(plugin, config, names, shims).diagnostics
    ensures PrepareConfigAsWritten(plugin, config, names, shims) == None
  {
    var n := names[0];
    var warn := Diagnostic(Warning, "provider set empty string as default value for bool " + n, []);
    var f := FillDefaults(names, config.members, plugin.schema, shims);
    var st := FillDefault(plugin.schema, n, config.members[n], shims);
    assert warn in st.diags;
    assert warn in f.diags;
  }

  /** The flatmap is preferred: with one present, the JSON is never read. */
  lemma FlatmapPreferred(req: UpgradeRequest, json: Bytes, res: Resource, shims: Shims)
    requires |req.rawStateFlatmap| > 0
    ensures UpgradeResource(req, res, shims) == UpgradeResource(req.(rawStateJson := json), res, shims)
  {
  }

  /** A request with neither form of state gets an empty response. */
  lemma NoStateEmptyResponse(req: UpgradeRequest, res: Resource, shims: Shims)
    requires |req.rawStateFlatmap| == 0 && |req.rawStateJson| == 0
    ensures UpgradeResource(req, res, shims) == UpgradeResponse(None, {})
  {
  }

  /** A state is upgraded with no diagnostics, or not at all with exactly one
      error, unless there was no state. */
  lemma UpgradeOutcome(req: UpgradeRequest, res: Resource, shims: Shims)
    ensures var r := UpgradeResource(req, res, shims);
      && (r.upgradedState.Some? ==> r.diagnostics == {})
      && (r.upgradedState.None? && (|req.rawStateFlatmap| > 0 || |req.rawStateJson| > 0) ==>
            |r.diagnostics| == 1 && forall d | d in r.diagnostics :: d.severity == Error)
  {
  }

  /** A JSON state whose version no upgrader handles is decoded as it was,
      less the attributes the schema no longer has. */
  lemma JsonStateWithoutUpgraders(req: UpgradeRequest, res: Resource, shims: Shims, jm: JsonMap)
    requires |req.rawStateFlatmap| == 0 && |req.rawStateJson| > 0
    requires shims.unmarshal(req.rawStateJson) == Ok(jm)
    requires forall j | 0 <= j < |res.upgraders| :: res.upgraders[j].version != req.version
    ensures var r := UpgradeResource(req, res, shims);
      var decoded := shims.fromJsonMap(Pruned(JObject(jm), res.implied).fields, res.implied);
      && (decoded.Err? ==> r == UpgradeResponse(None, {ErrorDiag(decoded.msg)}))
      && (decoded.Ok? ==>
            r == match shims.coerce(decoded.value, res.implied)
                 case Err(e) => UpgradeResponse(None, {ErrorDiag(e)})
                 case Ok(cv) => UpgradeResponse(Some(shims.normalizeLegacy(cv, res.implied)), {}))
  {
    ChainNoMatch(req.version, jm, res.upgraders);
  }
}
