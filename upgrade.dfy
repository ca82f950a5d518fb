/** The state-upgrade version chain: a legacy flatmap state is first brought
    up to the last flatmap-era schema version (`upgradeFlatmapState`), then
    the JSON state is run through the resource's `StateUpgraders`
    (`upgradeJSONState`). */
module Upgrade {
  import opened Wrappers
  import opened Cty
  import opened Json
  import opened Decimal
  import opened Plugin

  // ---------------------------------------------------------------------
  // upgradeFlatmapState

  /** Whether the legacy `MigrateState` stage is due: the version is below the
      first upgrader's version or, without upgraders, below `SchemaVersion`. */
  predicate RequiresMigrate(version: int, res: Resource)
  {
    if |res.upgraders| > 0 then version < res.upgraders[0].version else version < res.schemaVersion
  }

  /** The schema type of the first upgrader registered for `version`, or
      `dflt` when there is none. */
  function UpgraderTypeAt(version: int, ups: seq<StateUpgrader>, dflt: Type): (t: Type)
    ensures (forall j | 0 <= j < |ups| :: ups[j].version != version) ==> t == dflt
    ensures (exists j | 0 <= j < |ups| :: ups[j].version == version) ==>
      exists j | 0 <= j < |ups| :: ups[j].version == version && t == ups[j].ty
                                   && forall i | 0 <= i < j :: ups[i].version != version
  {
    if |ups| == 0 then dflt
    else if ups[0].version == version then ups[0].ty
    else
      var t := UpgraderTypeAt(version, ups[1..], dflt);
      assert forall j | 1 <= j < |ups| :: ups[j] == ups[1..][j - 1];
      t
  }

  /** The loop over `StateUpgraders` that picks the schema type of the stored
      version, stopping at the first match. */
  method FindSchemaType(version: int, ups: seq<StateUpgrader>, dflt: Type) returns (t: Type)
    ensures t == UpgraderTypeAt(version, ups, dflt)
  {
    t := dflt;
    var i := 0;
    while i < |ups|
      invariant 0 <= i <= |ups|
      invariant UpgraderTypeAt(version, ups, dflt) == UpgraderTypeAt(version, ups[i..], dflt)
    {
      assert ups[i..][1..] == ups[i + 1..];
      if ups[i].version == version {
        t := ups[i].ty;
        return;
      }
      i := i + 1;
    }
  }

  /** The schema type the flatmap is read at and the version it then has. A
      due migration brings the state up to the first upgrader (with or without
      a `MigrateState`); otherwise the stored version's own upgrader type, or
      the current type, is used and the version stays. */
  function FlatmapTarget(version: int, res: Resource): (Type, int)
  {
    if RequiresMigrate(version, res) then
      if |res.upgraders| > 0 then (res.upgraders[0].ty, res.upgraders[0].version) else (res.implied, version)
    else
      (UpgraderTypeAt(version, res.upgraders, res.implied), version)
  }

  /** The flatmap that is converted. `MigrateState` runs only when due and
      present, on an instance state whose ID is the map's `id` entry (empty when
      absent). The source then writes the migrated ID into a freshly declared
      `m`, which shadows the caller's map. The caller's map is the one
      converted: it holds the migrated attributes and ID when `MigrateState`
      returned that same map, and otherwise whatever edits the function made
      to it before returning a copy, without the migrated ID. */
  function MigratedFlatmap(version: int, m: Flatmap, res: Resource): Result<Flatmap>
  {
    if RequiresMigrate(version, res) && res.migrate.Some? then
      var inst := InstanceState(if "id" in m then m["id"] else "", m, map["schema_version" := IntToString(version)]);
      match res.migrate.value(version, inst)
      case Err(e) => Err(e)
      case Ok(mg) => Ok(if mg.aliased then mg.state.attributes["id" := mg.state.id] else mg.callerAfter)
    else Ok(m)
  }

  /** `upgradeFlatmapState`: the JSON map and the version it is at. */
  function FlatmapUpgrade(version: int, m: Flatmap, res: Resource, shims: Shims): Result<(JsonMap, int)>
  {
    var (ty, upgraded) := FlatmapTarget(version, res);
    match MigratedFlatmap(version, m, res)
    case Err(e) => Err(e)
    case Ok(fm) =>
      match shims.fromFlatmap(fm, ty)
      case Err(e) => Err(e)
      case Ok(val) =>
        match shims.toJsonMap(val, ty)
        case Err(e) => Err(e)
        case Ok(jm) => Ok((jm, upgraded))
  }

  /** `upgradeFlatmapState(version, m, res)`. */
  method UpgradeFlatmapState(version: int, m: Flatmap, res: Resource, shims: Shims)
    returns (r: Result<(JsonMap, int)>)
    ensures r == FlatmapUpgrade(version, m, res, shims)
  {
    var upgradedVersion := version;
    var requiresMigrate := version < res.schemaVersion;
    var schemaType := res.implied;
    if |res.upgraders| > 0 {
      requiresMigrate := version < res.upgraders[0].version;
    }
    assert requiresMigrate == RequiresMigrate(version, res);
    var converted: Result<Flatmap> := Ok(m);
    if requiresMigrate && res.migrate.None? {
      if |res.upgraders| > 0 {
        schemaType := res.upgraders[0].ty;
        upgradedVersion := res.upgraders[0].version;
      }
      assert converted == MigratedFlatmap(version, m, res);
    } else if requiresMigrate {
      converted := MigrateFlatmap(version, m, res);
      if |res.upgraders| > 0 {
        schemaType := res.upgraders[0].ty;
        upgradedVersion := res.upgraders[0].version;
      }
    } else {
      schemaType := FindSchemaType(version, res.upgraders, schemaType);
      assert (schemaType, upgradedVersion) == FlatmapTarget(version, res);
    }
    assert (schemaType, upgradedVersion) == FlatmapTarget(version, res);
    assert converted == MigratedFlatmap(version, m, res);
    r := ConvertFlatmap(converted, schemaType, upgradedVersion, shims);
  }

  /** The call of `MigrateState` in `upgradeFlatmapState`, on an instance
      state built from the flatmap; the migrated ID is written into the map
      `MigrateState` returned, which is the one converted only when it is the
      caller's own; otherwise the caller's map, as the call left it, is. */
  method MigrateFlatmap(version: int, m: Flatmap, res: Resource) returns (converted: Result<Flatmap>)
    requires RequiresMigrate(version, res) && res.migrate.Some?
    ensures converted == MigratedFlatmap(version, m, res)
  {
    var inst := InstanceState(if "id" in m then m["id"] else "", m, map["schema_version" := IntToString(version)]);
    var out := res.migrate.value(version, inst);
    if out.Err? {
      assert MigratedFlatmap(version, m, res) == Err(out.msg);
      return Err(out.msg);
    }
    var mg := out.value;
    converted := Ok(mg.callerAfter);
    if mg.aliased {
      converted := Ok(mg.state.attributes["id" := mg.state.id]);
    }
    assert MigratedFlatmap(version, m, res) == converted;
  }

  /** The last two steps of `upgradeFlatmapState`: the flatmap is read at the
      schema type and written out as a JSON map; the first error aborts. */
  method ConvertFlatmap(converted: Result<Flatmap>, schemaType: Type, upgradedVersion: int, shims: Shims)
    returns (r: Result<(JsonMap, int)>)
    ensures converted.Err? ==> r == Err(converted.msg)
    ensures converted.Ok? && shims.fromFlatmap(converted.value, schemaType).Err? ==>
      r == Err(shims.fromFlatmap(converted.value, schemaType).msg)
    ensures converted.Ok? && shims.fromFlatmap(converted.value, schemaType).Ok? ==>
      var val := shims.fromFlatmap(converted.value, schemaType).value;
      r == (match shims.toJsonMap(val, schemaType)
            case Err(e) => Err(e)
            case Ok(jm) => Ok((jm, upgradedVersion)))
  {
    if converted.Err? {
      return Err(converted.msg);
    }
    var val := shims.fromFlatmap(converted.value, schemaType);
    if val.Err? {
      return Err(val.msg);
    }
    var jsonMap := shims.toJsonMap(val.value, schemaType);
    if jsonMap.Err? {
      return Err(jsonMap.msg);
    }
    r := Ok((jsonMap.value, upgradedVersion));
  }

  /** The version the flatmap stage reports is the stored version, or the
      first upgrader's version when a migration was due and upgraders exist. */
  lemma FlatmapVersion(version: int, m: Flatmap, res: Resource, shims: Shims)
    requires FlatmapUpgrade(version, m, res, shims).Ok?
    ensures var v := FlatmapUpgrade(version, m, res, shims).value.1;
      v == if RequiresMigrate(version, res) && |res.upgraders| > 0 then res.upgraders[0].version else version
  {
  }

  /** `MigrateState` is consulted only when a migration is due. */
  lemma MigrateOnlyWhenRequired(version: int, m: Flatmap, res: Resource, shims: Shims)
    requires !RequiresMigrate(version, res)
    ensures FlatmapUpgrade(version, m, res, shims) == FlatmapUpgrade(version, m, res.(migrate := None), shims)
  {
  }

  /** The shadowing at the migration: a `MigrateState` that returns a new
      attribute map is seen only through the edits it made to the caller's
      map. The upgrade is that of the edited map with no `MigrateState` at
      all, so the migrated attributes and ID of the copy are lost. */
  lemma CopyAfterInPlaceEdits(version: int, m: Flatmap, res: Resource, shims: Shims)
    requires RequiresMigrate(version, res) && res.migrate.Some?
    requires var inst := InstanceState(if "id" in m then m["id"] else "", m, map["schema_version" := IntToString(version)]);
      var out := res.migrate.value(version, inst);
      out.Ok? && !out.value.aliased
    ensures var inst := InstanceState(if "id" in m then m["id"] else "", m, map["schema_version" := IntToString(version)]);
      var out := res.migrate.value(version, inst).value;
      && MigratedFlatmap(version, m, res) == Ok(out.callerAfter)
      && FlatmapUpgrade(version, m, res, shims) == FlatmapUpgrade(version, out.callerAfter, res.(migrate := None), shims)
  {
  }

  /** A `MigrateState` that leaves the caller's map alone and returns a new
      one has no effect on the converted state, exactly as if the resource
      had none. */
  lemma CopiedMigrationIgnored(version: int, m: Flatmap, res: Resource, shims: Shims)
    requires RequiresMigrate(version, res) && res.migrate.Some?
    requires var inst := InstanceState(if "id" in m then m["id"] else "", m, map["schema_version" := IntToString(version)]);
      var out := res.migrate.value(version, inst);
      out.Ok? && !out.value.aliased && out.value.callerAfter == m
    ensures FlatmapUpgrade(version, m, res, shims) == FlatmapUpgrade(version, m, res.(migrate := None), shims)
  {
  }

  /** A `MigrateState` that mutated and returned the caller's map is seen,
      with the migrated ID written back; one that fails aborts the upgrade. */
  lemma MigrationOutcome(version: int, m: Flatmap, res: Resource)
    requires RequiresMigrate(version, res) && res.migrate.Some?
    ensures var inst := InstanceState(if "id" in m then m["id"] else "", m, map["schema_version" := IntToString(version)]);
      var out := res.migrate.value(version, inst);
      && (out.Err? ==> MigratedFlatmap(version, m, res).Err?)
      && (out.Ok? && out.value.aliased ==>
            MigratedFlatmap(version, m, res) == Ok(out.value.state.attributes["id" := out.value.state.id]))
  {
  }

  // ---------------------------------------------------------------------
  // upgradeJSONState

  /** The upgrader loop as a recurrence: an upgrader runs only when its
      version equals the running version, which then goes up by one; the
      first failing upgrader aborts. The result carries the final version. */
  function Chain(version: int, m: JsonMap, ups: seq<StateUpgrader>): (r: Result<(JsonMap, int)>)
    ensures r.Ok? ==> version <= r.value.1 <= version + |ups|
    decreases |ups|
  {
    if |ups| == 0 then Ok((m, version))
    else if ups[0].version != version then Chain(version, m, ups[1..])
    else
      match ups[0].upgrade(m)
      case Err(e) => Err(e)
      case Ok(m2) => Chain(version + 1, m2, ups[1..])
  }

  /** `upgradeJSONState(version, m, res)`. */
  method UpgradeJSONState(version: int, m: JsonMap, res: Resource) returns (r: Result<JsonMap>)
    ensures var c := Chain(version, m, res.upgraders);
      && (c.Err? <==> r.Err?)
      && (c.Err? ==> r.msg == c.msg)
      && (c.Ok? ==> r.value == c.value.0)
  {
    var ups := res.upgraders;
    var v := version;
    var cur := m;
    var i := 0;
    while i < |ups|
      invariant 0 <= i <= |ups|
      invariant Chain(version, m, ups) == Chain(v, cur, ups[i..])
    {
      assert ups[i..][1..] == ups[i + 1..];
      if v == ups[i].version {
        var next := ups[i].upgrade(cur);
        if next.Err? {
          return Err(next.msg);
        }
        cur := next.value;
        v := v + 1;
      }
      i := i + 1;
    }
    r := Ok(cur);
  }

  /** Where the running version can end: at the start, or one past an
      upgrader's version, never more than one step per upgrader. */
  lemma {:induction false} ChainVersionBounds(version: int, m: JsonMap, ups: seq<StateUpgrader>)
    requires Chain(version, m, ups).Ok?
    ensures var v := Chain(version, m, ups).value.1;
      && version <= v <= version + |ups|
      && (v == version || exists j | 0 <= j < |ups| :: ups[j].version == v - 1)
    decreases |ups|
  {
    if |ups| > 0 {
      var v := Chain(version, m, ups).value.1;
      assert forall j | 0 <= j < |ups| - 1 :: ups[1..][j] == ups[j + 1];
      if ups[0].version != version {
        ChainVersionBounds(version, m, ups[1..]);
      } else {
        var m2 := ups[0].upgrade(m).value;
        ChainVersionBounds(version + 1, m2, ups[1..]);
        if v == version + 1 {
          assert ups[0].version == v - 1;
        }
      }
    }
  }

  /** With no upgrader registered for the running version nothing runs. */
  lemma {:induction false} ChainNoMatch(version: int, m: JsonMap, ups: seq<StateUpgrader>)
    requires forall j | 0 <= j < |ups| :: ups[j].version != version
    ensures Chain(version, m, ups) == Ok((m, version))
    decreases |ups|
  {
    if |ups| > 0 {
      assert forall j | 0 <= j < |ups| - 1 :: ups[1..][j] == ups[j + 1];
      ChainNoMatch(version, m, ups[1..]);
    }
  }

  predicate StrictlyIncreasing(ups: seq<StateUpgrader>)
  {
    forall i, j | 0 <= i < j < |ups| :: ups[i].version < ups[j].version
  }

  /** With strictly increasing upgrader versions, no upgrader is registered
      for the version the chain ends at. */
  lemma {:induction false} ChainEndsPastUpgraders(version: int, m: JsonMap, ups: seq<StateUpgrader>)
    requires StrictlyIncreasing(ups) && Chain(version, m, ups).Ok?
    ensures forall j | 0 <= j < |ups| :: ups[j].version != Chain(version, m, ups).value.1
    decreases |ups|
  {
    if |ups| > 0 {
      var v := Chain(version, m, ups).value.1;
      var rest := ups[1..];
      assert forall j | 0 <= j < |rest| :: rest[j] == ups[j + 1];
      assert StrictlyIncreasing(rest);
      if ups[0].version != version {
        ChainEndsPastUpgraders(version, m, rest);
        ChainVersionBounds(version, m, rest);
        if v != version {
          var j :| 0 <= j < |rest| && rest[j].version == v - 1;
          assert ups[0].version < ups[j + 1].version;
        }
      } else {
        var m2 := ups[0].upgrade(m).value;
        ChainEndsPastUpgraders(version + 1, m2, rest);
        ChainVersionBounds(version + 1, m2, rest);
      }
    }
  }

  /** So, with strictly increasing versions, running the upgraders again on
      an upgraded state changes nothing. */
  lemma ChainIdempotent(version: int, m: JsonMap, ups: seq<StateUpgrader>)
    requires StrictlyIncreasing(ups) && Chain(version, m, ups).Ok?
    ensures var (m2, v2) := Chain(version, m, ups).value;
      Chain(v2, m2, ups) == Ok((m2, v2))
  {
    ChainEndsPastUpgraders(version, m, ups);
    var (m2, v2) := Chain(version, m, ups).value;
    ChainNoMatch(v2, m2, ups);
  }

  /** Every upgrader applied in order, stopping at the first failure. */
  function ApplyAll(m: JsonMap, ups: seq<StateUpgrader>): Result<JsonMap>
    decreases |ups|
  {
    if |ups| == 0 then Ok(m)
    else
      match ups[0].upgrade(m)
      case Err(e) => Err(e)
      case Ok(m2) => ApplyAll(m2, ups[1..])
  }

  /** Upgraders numbered consecutively from the stored version all run, in
      order, and leave the state at the version past the last one. */
  lemma {:induction false} ChainConsecutive(version: int, m: JsonMap, ups: seq<StateUpgrader>)
    requires forall j | 0 <= j < |ups| :: ups[j].version == version + j
    ensures var c := Chain(version, m, ups);
      && (c.Ok? <==> ApplyAll(m, ups).Ok?)
      && (c.Ok? ==> c.value == (ApplyAll(m, ups).value, version + |ups|))
    decreases |ups|
  {
    if |ups| > 0 {
      var rest := ups[1..];
      assert forall j | 0 <= j < |rest| :: rest[j].version == version + 1 + j by {
        forall j | 0 <= j < |rest| ensures rest[j].version == version + 1 + j {
          assert rest[j] == ups[j + 1];
        }
      }
      match ups[0].upgrade(m)
      case Err(_) =>
      case Ok(m2) => ChainConsecutive(version + 1, m2, rest);
    }
  }
}
