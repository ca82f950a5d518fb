/** The wrapped legacy plugin (`*schema.Provider`) as the adapter sees it, the
    library conversions the adapter calls, and diagnostics. */
module Plugin {
  import opened Wrappers
  import opened Cty
  import opened Json

  /** A legacy flatmap state (`map[string]string`). */
  type Flatmap = map<string, string>

  type Bytes = seq<bv8>

  /** `terraform.InstanceState`: the ID, the flatmap attributes and the meta
      entries the adapter sets. */
  datatype InstanceState = InstanceState(id: string, attributes: Flatmap, meta: map<string, string>)

  /** What a legacy `MigrateState` hands back: the migrated state; whether its
      attribute map is the very map it was given (mutated in place) rather
      than a new one; and the caller's map as the call left it, since the
      function may edit the map it was given before it returns a copy. */
  datatype Migrated = Migrated(state: InstanceState, aliased: bool, callerAfter: Flatmap)

  /** A returned map that is the caller's own holds what the caller's map
      holds. */
  type Migration = mg: Migrated | mg.aliased ==> mg.callerAfter == mg.state.attributes
    witness Migrated(InstanceState("", map[], map[]), false, map[])

  /** `schema.StateUpgrader`: the version it upgrades from, the schema type of
      that version and the upgrade function. */
  datatype StateUpgrader = StateUpgrader(version: int, ty: Type, upgrade: JsonMap -> Result<JsonMap>)

  /** `schema.Resource` as far as the state upgrade reads it; `implied` is the
      implied type of its current schema block (`CoreConfigSchema()`). */
  datatype Resource = Resource(
    schemaVersion: int,
    implied: Type,
    upgraders: seq<StateUpgrader>,
    migrate: Option<(int, InstanceState) -> Result<Migration>>)

  /** `schema.Schema` of a provider attribute: its deprecation and removal
      messages (empty when absent) and `DefaultValue()`, already turned into
      a cty value (`None` for no default). */
  datatype AttrSchema = AttrSchema(deprecated: string, removed: string, default: Result<Option<Value>>)

  /** `*schema.Provider`: its configuration schema, resources and data
      sources; `implied` is the implied type of its configuration block. */
  datatype LegacyPlugin = LegacyPlugin(
    schema: map<string, AttrSchema>,
    implied: Type,
    resources: map<string, Resource>,
    dataSources: map<string, Resource>)

  /** The library calls the adapter makes, uninterpreted: flatmap to value,
      value to JSON map, JSON decoding, JSON map to value, `CoerceValue`
      against a block, `NormalizeObjectFromLegacySDK` and `convert.Convert`. */
  datatype Shims = Shims(
    fromFlatmap: (Flatmap, Type) -> Result<Value>,
    toJsonMap: (Value, Type) -> Result<JsonMap>,
    unmarshal: Bytes -> Result<JsonMap>,
    fromJsonMap: (JsonMap, Type) -> Result<Value>,
    coerce: (Value, Type) -> Result<Value>,
    normalizeLegacy: (Value, Type) -> Value,
    convert: (Value, Type) -> Result<Value>)

  datatype Severity = Error | Warning

  /** A `tfdiags` diagnostic: severity, summary and the attribute path it is
      about (empty for the whole body). */
  datatype Diagnostic = Diagnostic(severity: Severity, summary: string, path: Path)

  /** An `error` appended to diagnostics. */
  function ErrorDiag(msg: string): Diagnostic
  {
    Diagnostic(Error, msg, [])
  }
}
