# terranova, modelled in Dafny

terranova is a Go library that runs Terraform from inside a program. A
`Platform` holds HCL code, providers, provisioners, variables, a state and
an optional log middleware. This project models the core of that library:

- the **legacy provider adapter**: the `Provider` that wraps a
  `helper/schema` provider. The model covers its schema cache, the
  filling in of configuration defaults, the rejection of nulls in lists,
  the state upgrade (flatmap migration, JSON upgraders, pruning of removed
  attributes), the null/empty reconciliation of values and the copy of
  timeouts;
- the **provisioner wrapper** (`Provisioner`) with its memoised schema,
  and the conversion of a connection value into a string map;
- the **platform**: its construction, providers, provisioners, variables,
  the middleware hook, the empty-code guards of `config` and `Export`,
  the conversion of variables into input values, the statistics and the
  reading of an output value;
- the older **provisioner registry** and **`Platformer` variable store**;
- the **logger**: the levelled `Log` and the `Middleware` that intercepts
  Terraform's standard log and re-routes each line by its tag.

Values of the go-cty library are the datatype `Cty.Value` (module `Cty`).
The JSON states the upgraders work on are `Json.Json`. Calls into code
outside the library are parameters of the operations that make them:

- the hcl2shim / helper/schema conversions, coercions and decodings
  (`Plugin.Shims`);
- `MigrateState` and the state upgraders (function-valued fields of a
  resource);
- JSON marshalling of an output value;
- loading and saving the code;
- the timestamp the standard logger prints.

Go's unspecified map iteration order is either an explicit `names`/`order`
input, or a loop that picks any remaining key (`var k :| k in rest`).
Every contract therefore holds for every order that lists each key once.

Two source files define an `AddProvisioner` on a `Platform`.
`platform.go` keeps a map of `provisioners.Factory`. `provisioner.go`
keeps a map of legacy provisioners that starts out nil, and its struct
shape does not match `platform.go`'s. They are modelled as two classes:
`Terranova.Platform` and `ProvisionerRegistry.Platform`.

Two more points follow the code rather than the struct declaration:

- The field `countHook` is used by `terranova.go` and `stats.go` but is
  not declared in `platform.go`'s struct. `Terranova.Platform` has it as
  an optional field.
- `Platform.Code` is declared a string. `saveCode` is outside this model,
  and only the string form is modelled.

## Model

| member | source | states |
|---|---|---|
| Normalize.NormalizeNullValues | provider.go:684-839 | The reconciler itself: the unknown-source, null/empty-flip and no-concrete-source guards in the source's order, then a case per type of `dst` (members, set, elements, string); a `src` of the wrong shape yields `dst` |
| Normalize.NormalizeSelf | provider.go:684-839 | Reconciling a value against itself returns it unchanged, in plan and apply mode |
| Normalize.NormalizePreservesType | provider.go:684-839 | For well-formed values of the same type, the result has that type and is well-formed |
| Normalize.NormalizeUnknownSource | provider.go:686-694 | An unknown `src` is returned only over a null `dst` during plan; otherwise `dst` stands |
| Normalize.NormalizeApplyNullEmptyFlip | provider.go:699-706 | During apply, a collection flipping between null and known-empty takes `src` |
| Normalize.NormalizeNoConcreteSource | provider.go:708-712 | A null `src` (outside the apply flip) or an unknown `dst` leaves `dst` as it is |
| Normalize.NormalizeMapKeys | provider.go:715-773 | A known map keeps exactly its own keys; entries missing from `src` are unchanged; an entry in both is reconciled recursively, and a reconciled entry left unknown takes its known, non-null `src` entry |
| Normalize.NormalizeNullMap | provider.go:743-751 | A null map over a known map becomes `src` only in apply mode and only when `src` is wholly known |
| Normalize.NormalizeObjectMembers | provider.go:715-775 | Two known objects give an object over both key sets; each `src` member is reconciled against `dst`'s member or a typed null; other `dst` members are kept |
| Normalize.NormalizeNullObject | provider.go:715-775 | A null object over a known object: each `src` member is reconciled against a typed null; with no members, apply takes `src` |
| Normalize.NormalizeSet | provider.go:777-783 | A known set is replaced by `src` exactly when applying with a wholly known `src` |
| Normalize.NormalizeNullSequence | provider.go:785-809 | A null list or tuple becomes `src` when applying an empty wholly known `src`, or when planning over an all-unknown `src`; otherwise it stays null |
| Normalize.NormalizeNullOverEmptyList | provider.go:795-805 | In plan mode a null list over an empty list becomes the empty list: "all unknown" holds vacuously |
| Normalize.NormalizeSequenceLength | provider.go:811-826 | A known list or tuple keeps its kind and length; with equal lengths, element i is the reconciliation of element i |
| Normalize.NormalizeNullString | provider.go:828-835 | A null string becomes `src` only when `src` is the empty string |
| Timeouts.CopyTimeoutValues | provider.go:844-876 | The copy itself: a value that is not a map or object comes back unchanged, and in an object every attribute but `timeouts` keeps its value |
| Timeouts.CopyTimeoutValuesSpec | provider.go:844-876 | A null `to` is returned as is; otherwise every attribute but `timeouts` is unchanged, and `timeouts` is `from`'s copyable block or a typed null |
| Timeouts.CopiedTimeoutsKnown | provider.go:866-873 | A `timeouts` block in the result is null or wholly known, never partly unknown |
| Timeouts.CopyTimeoutValuesIdempotent | provider.go:844-876 | Copying twice from the same value gives the same result as copying once |
| Timeouts.CopyTimeoutValuesSelf | provider.go:844-876 | Copying a value's own null or wholly known timeouts into itself changes nothing |
| ValidateNulls.ValidateConfigNulls | provider.go:424-476 | Every reported path extends the path passed in |
| ValidateNulls.ValidateConfigNullsEmptyIff | provider.go:424-476 | Nothing is reported if and only if no list, set or tuple anywhere in the value holds a null element |
| ValidateNulls.NullElementReported | provider.go:435-451 | A null element of a list or tuple is reported at the path extended by its index |
| ValidateNulls.NullSetElementReported | provider.go:436-442 | A null element of a set is reported at the set's own path, since its key is null |
| ValidateNulls.NullMembersNotReported | provider.go:459-473 | Null or unknown members of a map or object are not reported |
| ValidateNulls.MemberDiagnosticsIncluded | provider.go:459-472 | The reports for a member, under its index or attribute step, are among the reports for the map or object |
| Prune.Pruned | provider.go:624-671 | Pruning keeps the JSON kind and the array lengths, and never adds keys to an object |
| Prune.PrunedConforms | provider.go:624-671 | After pruning, every object reached at an object type holds only declared attributes |
| Prune.ConformingUnchanged | provider.go:624-671 | A value that already conforms is left exactly as it is |
| Prune.PrunedIdempotent | provider.go:624-671 | Pruning a second time changes nothing |
| Prune.PrunedDeletesOnly | provider.go:624-671 | Pruning only deletes object keys; nothing else changes |
| Prune.PrunedObjectKeys | provider.go:637-669 | At an object type exactly the declared keys survive; at a map type all keys are kept; at any other type the object is untouched |
| Prune.RemoveAttributes | provider.go:624-671 | The recursive walk over arrays and maps computes exactly the pruned value |
| Upgrade.UpgraderTypeAt | provider.go:584-589 | The schema type is that of the first upgrader registered for the version, or the current type when there is none |
| Upgrade.FindSchemaType | provider.go:584-589 | The loop with its early exit computes the first matching upgrader's type |
| Upgrade.UpgradeFlatmapState | provider.go:531-602 | The flatmap stage computes exactly the migration, the schema type, the conversion and the reported version |
| Upgrade.MigrateFlatmap | provider.go:555-572 | A failing `MigrateState` is an error; one that returned the caller's own map gives that map with the migrated ID; otherwise the converted map is the caller's map as the call left it, without the migrated ID |
| Upgrade.ConvertFlatmap | provider.go:595-601 | The first failing step (migration, flatmap decoding, JSON encoding) gives its error; otherwise the JSON map comes with the reported version |
| Upgrade.FlatmapVersion | provider.go:534-578 | The reported version is the stored one, or the first upgrader's version when a migration was due and upgraders exist |
| Upgrade.MigrateOnlyWhenRequired | provider.go:537-555 | `MigrateState` is consulted only when the version is older than the migration threshold |
| Upgrade.CopyAfterInPlaceEdits | provider.go:555-572 | A `MigrateState` that edits the caller's map and returns a copy is seen only through those edits: the upgrade is that of the edited map with no `MigrateState`, and the copy's attributes and ID are lost |
| Upgrade.CopiedMigrationIgnored | provider.go:564-572 | A `MigrateState` that leaves the caller's map alone and returns a fresh map has no effect on the result, because `m :=` shadows the outer map |
| Upgrade.MigrationOutcome | provider.go:564-572 | A failing `MigrateState` aborts the upgrade; one that returns the caller's own map is seen, with the migrated ID written back |
| Upgrade.Chain | provider.go:604-620 | The upgrader loop as a recurrence: an upgrader runs only at the running version, the first failure aborts, and a successful chain ends between the start version and the start plus the number of upgraders |
| Upgrade.UpgradeJSONState | provider.go:604-620 | The upgrader loop fails exactly when the recurrence fails, with the same message, and otherwise yields its state |
| Upgrade.ChainVersionBounds | provider.go:607-617 | The running version grows by at most one per upgrader, and ends at the start or just past some upgrader's version |
| Upgrade.ChainNoMatch | provider.go:607-611 | With no upgrader for the running version, nothing runs |
| Upgrade.ChainEndsPastUpgraders | provider.go:607-617 | With strictly increasing versions, no upgrader matches the final version |
| Upgrade.ChainIdempotent | provider.go:604-620 | With strictly increasing versions, running the upgraders again on an upgraded state changes nothing |
| Upgrade.ChainConsecutive | provider.go:607-617 | Upgraders numbered consecutively from the stored version all run in order, and the version ends one past the last |
| Adapter.NewProvider | provider.go:30-39 | Only a `schema.Provider` is wrapped (nil otherwise), with an empty schema cache |
| Adapter.Provider.constructor | provider.go:30-39 | A new adapter holds the plugin and an empty schema cache |
| Adapter.SchemasOf | provider.go:61-73 | Every resource or data source gets a schema with its own version and block, and no other name gets one |
| Adapter.Provider.GetSchema | provider.go:43-78 | A filled cache is returned unchanged; otherwise the schemas are computed from the plugin and stored |
| Adapter.FillDefault | provider.go:88-144 | An attribute that is not a null top-level attribute with a live schema is left alone; a failure always carries an error diagnostic |
| Adapter.FillDefaults | provider.go:88-145 | The transform keeps the attribute names, leaves non-fillable attributes unchanged, and a failure carries an error |
| Adapter.EmptyBoolDefault | provider.go:132-137 | A `""` default for a bool attribute becomes `false` with a warning |
| Adapter.DefaultFilled | provider.go:117-144 | A null attribute with a default gets the converted default and no diagnostic |
| Adapter.FillDiagsNoErrorUnlessFailed | provider.go:88-148 | A transform that does not fail reports only warnings |
| Adapter.FillDefaultsValues | provider.go:88-145 | After a transform that did not stop, every visited attribute holds what the callback made of it, and every other attribute keeps its value |
| Adapter.FillDefaultsClean | provider.go:88-145 | When every fillable attribute has a default that converts cleanly, the transform neither stops nor reports anything |
| Adapter.DefaultsPrepared | provider.go:83-166 | A configuration whose null attributes have clean defaults, and which with those defaults coerces to a value with no null in a list, is prepared as that value with no diagnostics |
| Adapter.Provider.PrepareProviderConfig | provider.go:83-166 | The response is the prepared configuration; the schema cache is filled as `GetSchema` would fill it |
| Adapter.PrepareConfig | provider.go:83-166 | Fill defaults, coerce, refuse nulls in lists, with corrected appends: a prepared configuration has no null list element, and a configuration that is not an object only ever gets errors |
| Adapter.PrepareConfigAsWritten | provider.go:83-166 | The same call as written, `None` where an append of a plain string or an unnamed diagnostics slice panics: whenever it returns, it reports only errors, and a prepared configuration has no null list element |
| Adapter.PreparedHasNoNullElements | provider.go:146-166 | A prepared configuration has no null list element, and there is one exactly when no error is reported |
| Adapter.AppendAbortsAsWritten | provider.go:132-160 | As written, the call returns what `PrepareConfig` returns, except that it never returns where a warning is reported or a null is found in a list |
| Adapter.EmptyBoolAbortsAsWritten | provider.go:132-137 | A null bool attribute visited first with the legacy `""` default gets a warning from `PrepareConfig`, and makes the code as written abort |
| Adapter.Provider.UpgradeResourceState | provider.go:211-273 | The response is the upgrade of the resource's stored state |
| Adapter.UpgradeResource | provider.go:211-273 | Decode, upgrade, prune, decode against the schema, coerce and normalize: a state is produced with no diagnostics, at most one error is reported, and a request with no stored state gets an empty response |
| Adapter.FlatmapPreferred | provider.go:220-235 | When a flatmap state is present, the JSON state is never read |
| Adapter.NoStateEmptyResponse | provider.go:236-238 | A request with neither form of state gets an empty response |
| Adapter.UpgradeOutcome | provider.go:211-273 | An upgraded state carries no diagnostics; a failed upgrade of a present state carries exactly one error |
| Adapter.JsonStateWithoutUpgraders | provider.go:230-257 | A JSON state that no upgrader matches is pruned and decoded as it is: a decode error is the only diagnostic, and a decoded state is coerced and normalized |
| Provisioners.NewProvisioner | provisioners.go:40-48 | Only a `schema.Provisioner` is wrapped (nil otherwise), with an empty schema cache |
| Provisioners.Provisioner.constructor | provisioners.go:45-47 | A new wrapper holds the provisioner's schema and no cached schema |
| Provisioners.Provisioner.GetSchema | provisioners.go:57-77 | A cached schema is returned; otherwise the computed schema is cached and returned; a missing schema gives "missing provisioner schema" and caches nothing |
| Provisioners.StringMapFromValue | provisioners.go:140-159 | A null or unknown value gives an empty map; for a map or an object such as a connection block, exactly the known non-null members are kept, each converted to a string |
| ProvisionerRegistry.DefaultProvisioners | provisioner.go:34-40 | The built-in provisioners are exactly local-exec, remote-exec and file |
| ProvisionerRegistry.Platform.constructor | provisioner.go:23-26 | The registry starts as a nil map |
| ProvisionerRegistry.Platform.UpdateProvisionersAsWritten | provisioner.go:10-20 | As written: one factory per registered name, but every factory yields the provisioner visited last |
| ProvisionerRegistry.SharedCaptureCounterexample | provisioner.go:13-17 | With two distinct provisioners, the factory for the first yields the second |
| ProvisionerRegistry.Platform.UpdateProvisioners | provisioner.go:10-20 | As intended: one factory per registered name, yielding that name's provisioner |
| ProvisionerRegistry.Platform.AddProvisioner | provisioner.go:23-32 | A nil registry first gets the built-ins; then the name is bound, and the rest of the registry is unchanged |
| ProvisionerRegistry.RegistrationOrderIrrelevant | provisioner.go:23-32 | Distinct names added in either order give the same registry; adding a name again keeps the later provisioner; other names keep their entries |
| ProvisionerRegistry.DefaultsInstalled | provisioner.go:24-27 | After the first addition the built-ins are present, unless the caller overrode one |
| Platformer.Platformer.constructor | variable.go:12-17 | A store starts as a nil map |
| Platformer.Platformer.Var | variable.go:12-17 | The value is stored under the name, the map is created if needed, and no other name changes |
| Platformer.Platformer.GetVar | variable.go:20-22 | The value stored under a set name, read from the existing map |
| Platformer.Platformer.IsVarSet | variable.go:24-28 | Whether the name is in the map; a nil map holds no name |
| Platformer.Platformer.Vars | variable.go:30-33 | The map itself, nil included, holding exactly the names that are set |
| Platformer.Platformer.BindVars | variable.go:5-9 | Binding in any order leaves the bound entries over the old ones; an empty binding leaves a nil map nil |
| Platformer.LastBindingWins | variable.go:5-17 | A later binding of a name overrides an earlier one |
| Platformer.DisjointBindingsAccumulate | variable.go:5-17 | Bindings with disjoint names accumulate their union |
| Platformer.EmptyBindingKeepsNil | variable.go:5-9 | Binding nothing keeps the map as it was, nil included |
| Platformer.BindingKeepsOthers | variable.go:5-17 | A name that is not bound keeps its presence and its value |
| Terranova.Platform.constructor | platform.go:49-60 | A new platform has the code and hooks, only the null provider, no provisioners, no variables and an empty state |
| Terranova.Platform.AddProvider | platform.go:68-71 | The name is bound to a factory for the provider; nothing else changes |
| Terranova.Platform.AddProvisioner | platform.go:78-81 | The name is bound to a factory for the provisioner; nothing else changes |
| Terranova.Platform.Var | platform.go:94-101 | The value is stored under the name, the map is created if needed, and nothing else changes |
| Terranova.Platform.BindVars | platform.go:85-91 | Every entry is bound, in any order; an empty binding changes nothing |
| Terranova.Platform.AddMiddleware | platform.go:140-143 | Only the middleware changes |
| Terranova.Platform.Variables | terranova.go:248-263 | The call succeeds exactly when every variable is declared, and an error names an undeclared variable; on success every variable becomes a caller-sourced string of its `%v` form |
| Terranova.FormatVFaithful | terranova.go:256 | The `%v` form of a string is the string; that of an integer reads back as the integer |
| Terranova.UndeclaredMessageInjective | terranova.go:252 | Different names give different error messages |
| Terranova.Platform.Config | terranova.go:151-154 | Empty code gives "no code to apply"; other code is loaded |
| Terranova.Platform.Export | terranova.go:184-187 | Empty code gives "no code to export"; other code is saved |
| Terranova.Platform.StartMiddleware | terranova.go:103-110 | With no middleware nothing happens; a middleware that is not intercepting is started; one that already is stays as it is |
| Terranova.Platform.Stats | stats.go:69-71 | Fresh statistics, not from a plan, holding the count hook's counts, or zero without a hook |
| Terranova.Platform.OutputValueAsString | output.go:12-28 | The output read on the platform's own state: no state gives the "no state found or empty state" error, and success implies the root module holds the named output |
| Statistics.Stats.constructor | stats.go:18-20 | New statistics are zero and not from a plan |
| Statistics.Stats.FromPlan | stats.go:23-48 | A plan with nothing to count leaves the receiver unchanged; otherwise the counts are those of the changes, marked as planned |
| Statistics.Stats.FromCountHook | stats.go:51-59 | A nil hook changes nothing; otherwise the applied counts replace the receiver's |
| Statistics.Stats.String | stats.go:61-66 | The three counts as text, worded "to add / to change / to destroy" for a plan and "added / changed / destroyed" otherwise (`Statistics.RenderInjective` states that the text determines them) |
| Statistics.ContributionBounds | stats.go:32-44 | One change adds at most one to each count, and never counts as both an addition and a change |
| Statistics.CountsAppend | stats.go:31-45 | Counting is additive over a split of the changes |
| Statistics.CountsPermutation | stats.go:31-45 | The counts do not depend on the order of the changes |
| Statistics.CountsBounds | stats.go:31-45 | No count is negative or exceeds the number of changes, and additions plus changes do not exceed it either |
| Statistics.ContributionZero | stats.go:32-44 | No-ops, reads and data-source deletions count nothing |
| Statistics.CountsZero | stats.go:31-45 | A change set of only no-ops, reads and data-source deletions counts zero |
| Statistics.AddTailWording | stats.go:62-65 | The wording after the first number tells planned counts from applied ones |
| Statistics.RenderInjective | stats.go:61-66 | Equal summaries come from equal counts with the same wording |
| Logging.Log.constructor | logger/log.go:52-60 | A new log has the prefix and level, and has written nothing |
| Logging.Log.Printf | logger/log.go:63-65 | One untagged line is written, at any level |
| Logging.Log.Debugf | logger/log.go:68-77 | A DEBUG line is written from the debug level; a trace entry goes through the trace gate |
| Logging.Log.Tracef | logger/log.go:80-86 | A TRACE line without the marker is written only at the trace level |
| Logging.Log.Infof | logger/log.go:89-94 | An INFO line is written from the info level |
| Logging.Log.Warnf | logger/log.go:97-102 | A WARN line is written from the warn level |
| Logging.Log.Errorf | logger/log.go:105-110 | An ERROR line is written at every level |
| Logging.Log.Output | logger/log.go:112-121 | Exactly one line is written: tag, timestamp, optional prefix, message |
| Logging.GateThreshold | logger/log.go:63-110 | A call writes if and only if the level reaches the call's threshold, and the message is the format (without a trace marker) |
| Logging.GateMonotonic | logger/log.go:63-110 | A call written at one level is written the same at every higher level |
| Logging.AlwaysWritten | logger/log.go:63-65 | Printf and Errorf write at every level, as untagged and ERROR lines |
| Logging.TraceOnlyAtTrace | logger/log.go:68-86 | A trace entry to Debugf appears only at the trace level, tagged TRACE and without its marker |
| Logging.TagWidth | logger/log.go:64-109 | Every tag is five characters wide |
| Logging.LineInjective | logger/log.go:112-121 | Under one prefix, with tags and timestamps of fixed widths, a line determines its tag, timestamp and message |
| LogMiddleware.Middleware.constructor | logger/middleware.go:50-52 | A new middleware has the logger and is not intercepting |
| LogMiddleware.NewMiddleware | logger/middleware.go:41-55 | The first logger given is used, or a new default log without a prefix at the info level; the middleware is not intercepting |
| LogMiddleware.Middleware.Start | logger/middleware.go:59-65 | The standard logger's writer is saved and the middleware becomes that writer |
| LogMiddleware.Middleware.IsEnabled | logger/middleware.go:68-72 | The middleware is intercepting exactly when it holds a saved writer |
| LogMiddleware.Middleware.Close | logger/middleware.go:76-85 | When intercepting, the saved writer is restored and forgotten; otherwise nothing changes |
| LogMiddleware.Middleware.SetLogger | logger/middleware.go:89-91 | Only the logger changes |
| LogMiddleware.Middleware.Write | logger/middleware.go:94-134 | The whole input counts as written with no error, and the logger writes the routed line |
| LogMiddleware.DispatchThreshold | logger/middleware.go:100-117 | A tagged line reaches the output if and only if the level reaches its tag's threshold |
| LogMiddleware.TraceDispatch | logger/middleware.go:113-114 | A TRACE line is written only at the trace level, tagged TRACE, with its trimmed message |
| LogMiddleware.LevelTagsKept | logger/middleware.go:105-110 | ERROR, WARN and INFO lines keep their tag and their trimmed message |
| LogMiddleware.OtherTagsPrinted | logger/middleware.go:115-116 | Any other tag is always written, untagged, with the tag in brackets before the message |
| Text.TrimPrefix | logger/log.go:84 | With the prefix present, the result is what follows it; otherwise the input |
| Text.TrimLeft | output.go:44 | The result is a suffix of the input; only the given character is dropped, and the result does not start with it |
| Text.TrimRight | logger/middleware.go:102 | The result is a prefix of the input; only the given character is dropped, and the result does not end with it |
| Text.TrimRightIdempotent | logger/middleware.go:102 | Trimming twice gives the same result as trimming once |
| Outputs.TrimQuotesSpec | output.go:44 | The result is a slice of the input that neither starts nor ends with a quote, and everything cut off is quotes |
| Outputs.TrimQuotesIdempotent | output.go:44 | Trimming twice gives the same result as trimming once |
| Outputs.UnescapeLast | output.go:45 | The last character is a newline or the input's last character |
| Outputs.UnescapeLeavesNoEscape | output.go:45 | After the replacement, no escaped newline is left |
| Outputs.UnescapeEscape | output.go:45 | The replacement undoes escaping of any text that holds no escaped newline |
| Outputs.ValueAsString | output.go:32-48 | A nil output value is the empty string; otherwise the encoder's text with edge quotes trimmed and escaped newlines restored, failing only when the encoder fails |
| Outputs.ValueAsStringShape | output.go:32-48 | The text of an output value neither starts nor ends with a quote, and holds no escaped newline |
| Outputs.OutputValueAsString | output.go:12-28 | A missing state or one with no resources and no output values, missing output values and an unknown name each give their own error; success is the value's text |
| Outputs.OutputPresentIsRead | output.go:12-28 | An output the root module holds is read whatever the resources, so a state of outputs only is not empty |
| Decimal.NatToString | terranova.go:256 | The decimal form is non-empty digits without a leading zero |
| Decimal.ParseNatToString | terranova.go:256 | Reading the decimal form back gives the number |
| Decimal.IntToString | provider.go:560 | The decimal form starts with `-` exactly for negatives and reads back as the number |

## Left out

- The conversions `hcl2shim`, `CoreConfigSchema`, `CoerceValue`,
  `JSONMapToStateValue`, `StateValueToJSONMap`, `convert.Convert`,
  `DefaultValue`, `json.Unmarshal` and `NormalizeObjectFromLegacySDK` live
  in Terraform. They are parameters (`Plugin.Shims`), and only their
  success or failure is modelled.
- cty numbers are `real` in the model. Number precision and big-float
  behaviour are not modelled.
- Diagnostics are sets, not slices. Their order and duplicates are not
  modelled, and the detail text of a diagnostic is left out.
- `ValidateNulls.ValidateConfigNulls`: it returns the reported paths.
  Go's `append` onto a shared path slice is not modelled.
- `Prune.RemoveAttributes`: the source deletes keys from the JSON maps in
  place. The model returns the pruned value instead, so aliasing between
  those maps is not captured.
- The `%q` quoting of names in messages is plain double quotes
  (`Adapter.Quoted`). Go escapes special characters inside the quotes.
- `Logging.Log` and `LogMiddleware.Middleware.Write`: printf verbs and
  arguments are not interpreted; the format string is the message. The
  standard logger's trailing newline and date format are a `stamp` input
  and are not modelled.
- The `Logger` interface is modelled only by `Log`. `EmptyLog`,
  `DiscardLog` and test loggers are not part of this model.
- `LogMiddleware.Middleware.Write`: the regular expressions are not
  modelled. The parsed line (tag and message, or date-stripped text) is
  an input. An input that matches neither pattern panics at
  `logger/middleware.go:125`, and that case is left out.
- `Logging.Log.Errorf`: the guard `level < LogLevelError` can never hold
  for an unsigned level, so the method always writes.
- Mutexes (`Provider.mu`, `Provisioner.mu`, `Middleware.mu`) are left
  out. The model is sequential.
- `Provider.getSchema` panics when `GetSchema` reports an error. The
  computed schema response never carries one, so that panic is not
  modelled.
- `ValidateResourceTypeConfig`, `ValidateDataSourceConfig`, `Configure`,
  `ReadResource`, `PlanResourceChange`, `ApplyResourceChange`,
  `ImportResourceState`, `ReadDataSource`, `Stop` and `Close` are left
  out. They pass straight through to helper/schema through
  shims outside this model, or are stubs.
- The same goes for the provisioner's `ValidateProvisionerConfig`,
  `ProvisionResource`, `Stop` and `Close`, and for `provisionersFactory`,
  which only wraps `NewProvisioner`.
- `Apply`, `Plan`, `newContext`, `saveCode` and the tfvars content of
  `Export` create Terraform contexts and write files: I/O outside this
  model. Only their empty-code guards are modelled.
- `WriteState`, `ReadState`, `WriteStateToFile` and `ReadStateFromFile`
  are I/O and are left out; `state.go` is not part of this model.
- `Statistics.Stats.FromPlan`: `Changes.Empty()` is taken as "every
  change is a no-op". Output changes are not modelled.
- `Terranova.FormatVFaithful`: `%v` is modelled for strings, integers
  and booleans, and the lemma states it for strings and integers. Other Go
  values carry their text as given.
- `ProvisionerRegistry.Platform.UpdateProvisionersAsWritten` models Go
  before 1.22, where a `range` loop shares one variable across
  iterations. From Go 1.22 each iteration has its own variable, and the
  corrected member describes that behaviour.
- `Upgrade.MigrateFlatmap`: a `MigrateState` that returns a nil state
  without an error, or a state whose `Attributes` map is nil, makes the
  source panic when it writes the ID back (provider.go:571-572). The
  model's migration result always holds a state and a map, so this panic
  path is not represented.
- `Adapter.Provider.UpgradeResourceState` requires the resource type to
  be registered. Otherwise the source panics at once: `getResourceSchemaBlock`
  (provider.go:212, 490-492) calls `CoreConfigSchema()` on a nil resource.
- `Timeouts.CopyTimeoutValues`: an unknown `to` or `from` makes
  `AsValueMap` panic in the source; the model returns `to` unchanged, or
  treats `from` as holding no timeouts.
- `Timeouts.CopyTimeoutValues`: an empty object `to` gives a nil map in the
  source, and copying a timeouts block into it panics (provider.go:872).
  The model returns an object with just that block.
- `Normalize.NormalizeNullValues`: where `src` does not have the shape of
  `dst`'s type, the source panics; the model returns `dst`.
- `Prune.RemoveAttributes`: the `log.Printf` calls for a dynamic block, an
  unexpected type and a removed attribute (provider.go:648, 655, 663) are
  logging only and are not modelled.
- `Provisioners.StringMapFromValue`: members that are numbers are not
  accepted, since the text `convert.Convert` gives a number is not
  modelled; strings and bools are.
- `Outputs.OutputValueAsString`: `states.State.Empty` is taken as "no
  module holds a resource or an output value"; Terraform's `states`
  package is not part of this model.
- `Platformer.Platformer.GetVar` requires the name to be set, because the
  source's type assertion panics on a missing name.

## Findings

| source | as written | input that shows it | evidently intended | confidence | as-written member | corrected member |
|---|---|---|---|---|---|---|
| provider.go:135-160 | the bool warning is appended to the diagnostics as a plain `string`, and the null-element diagnostics as an unnamed `[]tfdiags.Diagnostic`; `tfdiags.Diagnostics.Append` accepts neither and panics | a provider whose bool attribute defaults to `""`, left null in the configuration; or a configuration with a null list element | a warning about the `""` default, and one error per null element | not executed; rests on the type switch of `tfdiags.Diagnostics.Append`, which is not part of this model | Adapter.AppendAbortsAsWritten, Adapter.EmptyBoolAbortsAsWritten | Adapter.EmptyBoolDefault, Adapter.PreparedHasNoNullElements |
| provisioner.go:13-17 | every factory closure captures the loop's single `provisioner` variable, so after the loop all factories yield the provisioner of the name visited last | registry `{a: x, b: y}` visited in the order a, b: the factory for `a` yields `y` | each name's factory yields that name's provisioner | not executed; assumes Go before 1.22; the result is discarded at provisioner.go:29, so nothing observable goes wrong today | ProvisionerRegistry.Platform.UpdateProvisionersAsWritten, ProvisionerRegistry.SharedCaptureCounterexample | ProvisionerRegistry.Platform.UpdateProvisioners |

Two more behaviours follow the code and are proved as such. The code was
evidently written this way on purpose, so they are not findings:

- `Upgrade.CopyAfterInPlaceEdits` (provider.go:571): the migrated map is
  bound to a new variable, so of a `MigrateState` that returns a copy only
  the edits it made to the caller's map are seen.
- `Normalize.NormalizeNullOverEmptyList` (provider.go:795-805): the
  "all unknown" test holds for an empty list.
