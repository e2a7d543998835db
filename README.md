# Migration engine of keystone-adapter-knex-migrations, in Dafny

This project models the two classes at the centre of the Knex migrations
adapter for KeystoneJS, and proves properties of the model.

- `MigrationBuilder` (lib/migration_builder.js) builds the current schema
  from the registered list adapters. It loads the last schema snapshot from
  the schema-history table. It compares every list with its cached copy and
  emits a flat list of migration records: list creates, association creates,
  and field creates, updates, renames and removes.
- `MigrationExecution` (lib/migration_execution.js) sorts these records. It
  runs each one as schema statements against the database, settles the two
  sides of a referenced relationship so that only one of them issues a
  statement, and saves the new snapshot.

The database is abstract. `Db` is the log of statements sent, plus the set of
tables that exist; `hasTable` is membership in that set. A statement is
recorded with its column-builder calls (`integer`, `unsigned`, `index`,
`foreign`, `references`, `inTable`, `renameColumn`, `dropColumn`, `alter`,
and the field adapters' own calls). JavaScript values are a datatype with
`undefined`, `null`, booleans, integers, strings and ordered objects. The
model keeps the quirks the code relies on:

- `typeof null` is `"object"`;
- a missing key reads as `undefined`;
- `Object.assign` writes keys in order;
- every `TypeError` the code can throw becomes an `Error` value. Examples are
  `Object.keys(null)`, a missing list or field adapter, and a missing
  referenced-association entry.

Files:

| file | contents |
|---|---|
| `wrappers.dfy` | `Option` and `Result` |
| `js_values.dfy` | JavaScript values, `typeof`, `===`, property reads and writes, `Object.assign` |
| `schema.dfy` | schema fields and lists, list and field adapters, migration records, errors |
| `options_equality.dfy` | `_areObjectsEqualRecursive` and `_areFieldOptionsEqual` |
| `field_diff.dfy` | `_diffListFields`: the name pass, the positional pass, the trailing adds |
| `migration_builder.dfy` | the `Builder` class: `build()`, schema building, snapshot loading, record emission |
| `migration_sort.dfy` | `_sortMigrations` as an in-place stable insertion sort |
| `migration_execution.dfy` | the `Executor` class: `apply()` and every statement it sends |
| `scenarios.dfy` | worked cases: equality quirks, a rename, an add/remove pair, one foreign key for a referenced pair |

Each loop of the source is a `method` with a `while` loop. Each method is
proved equal to a specification function, and the lemmas state properties of
those functions. Objects whose fields the source updates in place are
classes:

- `Builder` holds `_migrationsList`, `_schemaCurrent` and `_schemaCached`;
- `Executor` holds the database state;
- `Executor.Apply` sorts the caller's `array` in place, as
  `migrations.sort` does.

Where the documented design and the code differ, the model follows the code:

- The executor sorts operations as `create < update < rename < remove` in
  every case. It has no special position for list removes.
- The builder does not remove duplicate associations. Both sides of a
  referenced relationship are emitted. The executor then skips the second
  side through the `takenCare` flags, so one statement is sent
  (`PartnersIssueOneStatement`).
- The builder never emits list removes or association updates, renames or
  removes. The executor has no handler for them: such records match no
  `_applyIf` and do nothing.
- A relationship added to or removed from a list that is already cached
  produces no migration at all (`RelationshipChangeOnCachedListIsInvisible`).
- Update, rename and remove records carry no name. `build()` passes
  `fieldSchema.name` from a diff entry that has no `name` property, so the
  name is `undefined`. Only add records carry the target field's name.

## Model

| member | source | states |
|---|---|---|
| JsValues.PutGet | lib/migration_builder.js:259-261 | a property write changes only the written key: every other key reads as before, and the written key reads as the new value |
| JsValues.PutNewKey | lib/migration_builder.js:259-261 | writing a key the object lacks appends it at the end, as JavaScript property order does for keys that are not integer-like |
| JsValues.AssignGet | lib/migration_builder.js:275-294 | after `Object.assign(target, source)`, a key reads as source's value if source has it, else as target's; the key set is the union |
| JsValues.AssignUnique | lib/migration_builder.js:275-294 | `Object.assign` onto an object with distinct keys keeps them distinct |
| JsValues.PutUnique | lib/migration_builder.js:259-261 | a property write keeps the keys distinct |
| JsValues.GetUnique | lib/migration_builder.js:31-39 | in an object with distinct keys, reading the key at index i gives the value at index i |
| JsValues.GetAbsent | lib/migration_builder.js:31 | reading a key the object lacks gives `undefined` |
| Schema.FindByNameFound | lib/migration_builder.js:87 | `fields.find` by name finds a field iff one has that name, and what it finds is in the list with that name |
| Schema.FindByNameUnique | lib/migration_builder.js:87 | with distinct names, the search by the name of field i returns field i |
| Schema.FindListAdapterFinds | lib/migration_execution.js:333 | a list adapter found for a key is one of the adapters and has that key |
| Schema.Names | lib/migration_builder.js:94 | the names, one per field, in order |
| OptionsEquality.AreObjectsEqualRecursive | lib/migration_builder.js:21-47 | the key loop with its early returns computes `ObjectsEqual`, including the error from `Object.keys(null)` |
| OptionsEquality.AreFieldOptionsEqual | lib/migration_builder.js:49-57 | computes `FieldOptionsEqual`; fields of different types are unequal without comparing options |
| OptionsEquality.ObjectsEqualReflexive | lib/migration_builder.js:21-47 | an object with distinct keys and no `null` anywhere equals itself |
| OptionsEquality.FieldOptionsEqualReflexive | lib/migration_builder.js:49-57 | a field whose options are well formed and null-free equals itself |
| OptionsEquality.KeyCountMismatchIsUnequal | lib/migration_builder.js:23-26 | objects with different key counts are unequal |
| OptionsEquality.TypeofMismatchIsUnequal | lib/migration_builder.js:31-33 | the first key whose `typeof` differs, after only primitive keys, makes the objects unequal |
| OptionsEquality.FirstObjectKeyDecides | lib/migration_builder.js:35-37 | the first object-typed key, after agreeing primitive keys, decides the result alone: later keys are never compared |
| OptionsEquality.FlatObjectsEqual | lib/migration_builder.js:21-47 | objects without nested objects are equal iff they have the same key count and agree, by `typeof` and `===`, on every key of the first |
| OptionsEquality.ScanSkipsAgreeing | lib/migration_builder.js:28-43 | keys that agree and hold no object do not change the loop's outcome |
| OptionsEquality.ObjectsEqualDefinedWithoutNull | lib/migration_builder.js:21-47 | with no `null` on either side the comparison never throws |
| OptionsEquality.FieldOptionsEqualDefinedWithoutNull | lib/migration_builder.js:49-57 | with null-free options the field comparison never throws |
| FieldDiff.DiffListFields | lib/migration_builder.js:59-129 | the method with its four loops computes `DiffFields` on the two lists' fields |
| FieldDiff.MatchByName | lib/migration_builder.js:85-96 | the name loop computes the name pass: updates and the names done |
| FieldDiff.MatchByPosition | lib/migration_builder.js:101-114 | the positional loop computes the positional pass: adds, renames, removes |
| FieldDiff.AppendTail | lib/migration_builder.js:116-121 | the tail loop appends the leftover targets past the last leftover source |
| FieldDiff.WithoutNamesMembers | lib/migration_builder.js:98-99 | the filter keeps exactly the fields whose name is not done |
| FieldDiff.WithoutNamesAppend | lib/migration_builder.js:98-99 | the filter distributes over concatenation, so it keeps the order and repetitions of the fields it lets through |
| FieldDiff.NamePassDone | lib/migration_builder.js:85-96 | a name is done iff some source field has it and some target field has it too |
| FieldDiff.NamePassAt | lib/migration_builder.js:87-92 | a source field with a same-named target is compared without error, and is an update if its options differ |
| FieldDiff.NamePassUpdates | lib/migration_builder.js:87-92 | every update pairs a source field with the target `find` returns for its name, and their options differ |
| FieldDiff.LeftoversAreUnmatched | lib/migration_builder.js:98-99 | the filtered lists are the source fields no target names and the target fields no source names |
| FieldDiff.PositionalAt | lib/migration_builder.js:101-114 | leftover i is removed if it has no positional partner, renamed if its partner compares equal, and removed with the partner added otherwise |
| FieldDiff.PositionalOnly | lib/migration_builder.js:101-114 | every rename, add and remove of the positional pass comes from one such position |
| FieldDiff.PositionalCounts | lib/migration_builder.js:101-114 | renames plus removes are the leftover sources seen; adds plus renames are the positional partners seen |
| FieldDiff.DiffOfIdenticalListsIsEmpty | lib/migration_builder.js:59-129 | diffing a well-formed field list with distinct names against itself gives four empty buckets |
| FieldDiff.NameMatchedFieldIsUpdateOrNothing | lib/migration_builder.js:85-114 | a field matched by name is an update iff its options differ, and is never added, removed or renamed |
| FieldDiff.DiffWithinLeftovers | lib/migration_builder.js:98-121 | renames, adds and removes only involve fields left by the name pass |
| FieldDiff.LeftoverFieldsPairedByPosition | lib/migration_builder.js:101-114 | the full diff's rename/add/remove decision for each leftover source field, by position |
| FieldDiff.LeftoverFieldsAccountedFor | lib/migration_builder.js:101-121 | each leftover source is renamed or removed; each leftover target is renamed or added; the extra targets are the last adds, in order |
| FieldDiff.DiffDefinedWithoutNull | lib/migration_builder.js:59-129 | with no `null` in any option the diff never throws |
| FieldDiff.NamePassFailureSticks | lib/migration_builder.js:85-96 | an exception in the name loop is the result of the whole loop |
| FieldDiff.PositionalFailureSticks | lib/migration_builder.js:101-114 | an exception in the positional loop is the result of the whole loop |
| MigrationBuilder.Builder.constructor | lib/migration_builder.js:3-19 | a builder starts with no records and empty current and cached schemas |
| MigrationBuilder.Builder.Default | lib/migration_builder.js:3-19 | without options the history table is `InternalSchema`; the builder starts empty |
| MigrationBuilder.Builder.Migration | lib/migration_builder.js:350-357 | appends one record and changes nothing else |
| MigrationBuilder.Builder.CreateList | lib/migration_builder.js:304-306 | appends a list-create record |
| MigrationBuilder.Builder.CreateField | lib/migration_builder.js:308-310 | appends a field-create record with no `before` |
| MigrationBuilder.Builder.UpdateField | lib/migration_builder.js:312-314 | appends a field-update record carrying `before` |
| MigrationBuilder.Builder.RenameField | lib/migration_builder.js:316-318 | appends a field-rename record carrying `before` |
| MigrationBuilder.Builder.RemoveField | lib/migration_builder.js:342-344 | appends a field-remove record with no `before` |
| MigrationBuilder.Builder.CreateAssociations | lib/migration_builder.js:324-340 | appends one association-create record per relationship adapter, in order |
| MigrationBuilder.AssociationCreates | lib/migration_builder.js:326-339 | record i has the list key, the adapter's cardinality and path, and its `refListKey`/`refFieldPath` as target |
| MigrationBuilder.Builder.BuildCurrentSchema | lib/migration_builder.js:206-216 | sets one schema list per list adapter into `schemaCurrent`, in adapter order |
| MigrationBuilder.CurrentLists | lib/migration_builder.js:206-224 | list i of the current schema is the one built from adapter i |
| MigrationBuilder.BuildOptionsReads | lib/migration_builder.js:256-265 | a built option reads as the object's value for listed keys and `undefined` otherwise; only listed keys whose value is not `undefined` are present |
| MigrationBuilder.FieldOptionsReads | lib/migration_builder.js:267-294 | a field's options are the defined field properties in the order of the seven listed keys, followed by `knexOptions` if defined; each key reads back its value, any other key reads `undefined`, and no key occurs twice |
| MigrationBuilder.ListOptionsReads | lib/migration_builder.js:211 | list options read as the adapter's `config`, falling back to `tableName` for that key |
| MigrationBuilder.RelationshipAdapters | lib/migration_builder.js:147 | keeps exactly the adapters whose `fieldName` is "Relationship" |
| MigrationBuilder.RelationshipAdaptersAppend | lib/migration_builder.js:147 | selecting the relationship adapters distributes over concatenation, so it keeps their order and repetitions |
| MigrationBuilder.BuildFieldsShape | lib/migration_builder.js:267-302 | no built field is a relationship; each non-relationship adapter gives a field, and each field comes from one |
| MigrationBuilder.BuildFieldsAppend | lib/migration_builder.js:267-302 | building fields distributes over concatenated adapter lists |
| MigrationBuilder.RelationshipAdapterAddsNoField | lib/migration_builder.js:270 | inserting a relationship adapter anywhere leaves the built fields unchanged |
| MigrationBuilder.BuildFieldsUniqueNames | lib/migration_builder.js:296-300 | adapters with distinct paths give fields with distinct names |
| MigrationBuilder.BuildListWellFormed | lib/migration_builder.js:267-302 | a list adapter with distinct paths and well-formed option values builds well-formed fields with distinct names |
| MigrationBuilder.SetList | lib/migration_builder.js:214 | `Map.set` keeps the size for an existing key and grows it by one for a new key |
| MigrationBuilder.SetListNewKey | lib/migration_builder.js:214 | `Map.set` of a new key appends the entry |
| MigrationBuilder.SetListPresent | lib/migration_builder.js:214 | setting a list already present under its key changes nothing |
| MigrationBuilder.SetListsOfUniqueLists | lib/migration_builder.js:208-215 | setting lists with distinct keys into an empty map gives them in order |
| MigrationBuilder.RebuildingCurrentSchemaChangesNothing | lib/migration_builder.js:206-216 | setting again a prefix of the lists already present leaves the map as it was |
| MigrationBuilder.Builder.LoadCachedSchema | lib/migration_builder.js:226-254 | throws when the history list is not registered; otherwise sets the newest snapshot's lists into the cache, or leaves it as it is when there is no table or no row |
| MigrationBuilder.CacheListsKeys | lib/migration_builder.js:253 | after loading, a key is cached iff it was cached before or the snapshot has a list with that key |
| MigrationBuilder.CacheListsLastWins | lib/migration_builder.js:253 | the last snapshot list with a key is the cached one |
| MigrationBuilder.CacheListsKeeps | lib/migration_builder.js:253 | a cached key the snapshot lacks keeps its list |
| MigrationBuilder.BuildFailsWithoutCacheList | lib/migration_builder.js:228-239 | without a list adapter for the history list, `build()` throws before emitting any record |
| MigrationBuilder.Builder.EmitAdds | lib/migration_builder.js:152-160 | appends one field-create record per added field |
| MigrationBuilder.Builder.EmitUpdates | lib/migration_builder.js:162-169 | appends one field-update record per update |
| MigrationBuilder.Builder.EmitRenames | lib/migration_builder.js:171-178 | appends one field-rename record per rename |
| MigrationBuilder.Builder.EmitRemoves | lib/migration_builder.js:180-187 | appends one field-remove record per removed field |
| MigrationBuilder.Builder.EmitFieldMigrations | lib/migration_builder.js:152-187 | appends the adds, then the updates, then the renames, then the removes |
| MigrationBuilder.AddMigrationsShape | lib/migration_builder.js:152-160 | every add record is a named field create on the list, with empty options and no `before` |
| MigrationBuilder.UpdateMigrationsShape | lib/migration_builder.js:162-169 | every update record is an unnamed field update on the list carrying `before` |
| MigrationBuilder.RenameMigrationsShape | lib/migration_builder.js:171-178 | every rename record is an unnamed field rename on the list carrying `before` |
| MigrationBuilder.RemoveMigrationsShape | lib/migration_builder.js:180-187 | every remove record is an unnamed field remove on the list with no `before` |
| MigrationBuilder.Builder.BuildListMigrations | lib/migration_builder.js:136-188 | emits a list create plus its association creates for an uncached list, or the field records of its diff for a cached one, and reports the exception |
| MigrationBuilder.PlanListCached | lib/migration_builder.js:148-188 | a cached list whose diff succeeds emits exactly the field records of that diff |
| MigrationBuilder.CachedListEmitsFieldMigrations | lib/migration_builder.js:148-188 | a cached list emits only field records on that list; only creates are named; exactly updates and renames carry `before`; one record per diff entry |
| MigrationBuilder.RelationshipChangeOnCachedListIsInvisible | lib/migration_builder.js:148-188 | adding a relationship field to a cached list changes nothing the builder emits |
| MigrationBuilder.Builder.BuildAllLists | lib/migration_builder.js:136-189 | the loop over the current schema emits each list's records in order and stops at the first exception |
| MigrationBuilder.PlanListsNext | lib/migration_builder.js:136-189 | after lists that did not fail, the next list's records are appended |
| MigrationBuilder.PlanListsFailureSticks | lib/migration_builder.js:136-189 | once a list throws, nothing more is emitted |
| MigrationBuilder.Builder.Build | lib/migration_builder.js:131-195 | `build()` leaves the state `BuildSpec` gives, throws its exception, or resolves to the records and the current schema |
| MigrationBuilder.BuildSpecLoaded | lib/migration_builder.js:131-195 | once the cache has loaded, `build()` appends the records of every current list |
| MigrationBuilder.FreshPlan | lib/migration_builder.js:141-147 | with an empty cache, each list emits its create record then its association records |
| MigrationBuilder.FreshBuildCreatesEveryList | lib/migration_builder.js:131-195 | a first build with no snapshot creates every list with its associations, in adapter order, and does not throw |
| MigrationBuilder.UnchangedListPlansNothing | lib/migration_builder.js:148-188 | a list whose snapshot equals its current schema emits nothing |
| MigrationBuilder.UnchangedSchemaBuildsNothing | lib/migration_builder.js:131-195 | a build against a snapshot whose lists equal the current lists emits no record and does not throw |
| MigrationBuilder.BuildSucceedsWithoutNull | lib/migration_builder.js:131-195 | with the history list registered and no `null` in any option, `build()` does not throw |
| MigrationBuilder.PlanDefined | lib/migration_builder.js:136-189 | lists that all have adapters and null-free options, against a null-free cache, plan without exception |
| MigrationBuilder.CurrentSchemaFromAdapters | lib/migration_builder.js:206-216 | every list of the current schema has a list adapter |
| MigrationBuilder.LoadedCacheNullFree | lib/migration_builder.js:226-254 | a null-free snapshot gives a null-free cache |
| MigrationSort.SortMigrations | lib/migration_execution.js:45-70 | sorting the array in place leaves the stable sort of its contents |
| MigrationSort.InsertAt | lib/migration_execution.js:45-70 | one insertion step puts element i after the preceding elements that do not come after it |
| MigrationSort.CompareIsKeyOrder | lib/migration_execution.js:47-69 | the comparator orders records exactly by (object rank, op rank), and is antisymmetric |
| MigrationSort.SortSpecIsPermutation | lib/migration_execution.js:45-70 | sorting only reorders the records |
| MigrationSort.SortSpecIsSorted | lib/migration_execution.js:45-70 | after sorting, the comparator never puts a later record before an earlier one |
| MigrationSort.SortSpecIsStable | lib/migration_execution.js:45-70 | records of the same object and op keep their relative order |
| MigrationSort.SortedRanks | lib/migration_execution.js:49-66 | lists come before fields before associations; within one kind, create before update before rename before remove |
| MigrationExecution.Issue | lib/migration_execution.js:90-99 | a statement is logged; creating a table adds it, dropping removes it, altering keeps the tables |
| MigrationExecution.TableName | lib/migration_execution.js:88 | `options.tableName` when it is truthy, else the list name |
| MigrationExecution.Executor.constructor | lib/migration_execution.js:2-8 | the executor starts with no statements on a database holding the given tables |
| MigrationExecution.Executor.Execute | lib/migration_execution.js:90-99 | sends one statement |
| MigrationExecution.Executor.Apply | lib/migration_execution.js:10-27 | `apply()` sorts the caller's array in place, runs the sorted records with the referenced state until the first exception, and saves the snapshot if none was thrown |
| MigrationExecution.Executor.ApplyAll | lib/migration_execution.js:17-24 | the loop runs the sorted records in order with the referenced state and stops at the first exception |
| MigrationExecution.Executor.BuildReferencedAssociationsState | lib/migration_execution.js:29-43 | the loop computes the referenced-association state |
| MigrationExecution.ReferencedStateKeys | lib/migration_execution.js:29-43 | a key is in the state iff some association with a truthy `target.referenced` has that `name__field` key; every entry starts not taken care of |
| MigrationExecution.ReferencedStateLastWins | lib/migration_execution.js:33-39 | the entry for a key holds the last record with that key |
| MigrationExecution.Executor.ApplyMigration | lib/migration_execution.js:17-23 | the one `_applyIf` whose object and op match runs; other records do nothing |
| MigrationExecution.Executor.SaveFreshDatabaseSchema | lib/migration_execution.js:80-84 | inserts the snapshot into the history table |
| MigrationExecution.Executor.CreateTableFor | lib/migration_execution.js:86-105 | drops a table of the same name first, then creates the table with every field's columns, or stops at the first missing adapter after the drop |
| MigrationExecution.Executor.DropTable | lib/migration_execution.js:320-325 | drops the table if it exists |
| MigrationExecution.Executor.AddFieldsToTable | lib/migration_execution.js:99-104 | the loop collects every field's column calls in order, or the first missing-adapter exception |
| MigrationExecution.ColumnsOfSucceeds | lib/migration_execution.js:99-104 | the columns are found iff every field has a list and field adapter; a failure is the first field's that fails |
| MigrationExecution.ColumnsOfFailureSticks | lib/migration_execution.js:101-103 | once a field throws, later fields do not change the exception |
| MigrationExecution.FindPathFound | lib/migration_execution.js:333 | an adapter of the list is found by its own path |
| MigrationExecution.Executor.CreateField | lib/migration_execution.js:107-116 | alters the list's table with the field's column calls, or throws for a missing adapter |
| MigrationExecution.Executor.UpdateField | lib/migration_execution.js:153-183 | records the field's column calls through the proxies, then alters the table replaying each with `alter()` |
| MigrationExecution.Executor.ReplayWithAlter | lib/migration_execution.js:168-178 | the replay is each recorded column call, its chained calls, then `alter()` |
| MigrationExecution.AlteredAddsOneCallPerColumn | lib/migration_execution.js:169-177 | the replay holds the calls of a plain add with one `alter()` added per column call: `alter()` occurs `|cs|` times more and every other call equally often |
| MigrationExecution.Executor.RenameField | lib/migration_execution.js:185-194 | renames `before.name` to the field's name, or throws when the record has no `before` |
| MigrationExecution.Executor.RemoveField | lib/migration_execution.js:196-205 | drops the field's column |
| MigrationExecution.Executor.CreateAssociation | lib/migration_execution.js:207-318 | the foreign key or pivot table of a standalone association; for a referenced one, nothing once the partner is taken care of, else its statement, then the own entry marked |
| MigrationExecution.StepGrows | lib/migration_execution.js:17-23 | a record only appends statements, none a snapshot, and only sets `takenCare`: no entry is added, dropped or reset |
| MigrationExecution.RunGrows | lib/migration_execution.js:17-24 | the same for any prefix of the loop |
| MigrationExecution.RunFailureSticks | lib/migration_execution.js:17-24 | the first exception ends the loop |
| MigrationExecution.StepFindsOwnEntry | lib/migration_execution.js:255-317 | a record whose own entry is in the state never fails on writing it |
| MigrationExecution.RunFindsOwnEntry | lib/migration_execution.js:17-24 | the same for a prefix of the loop |
| MigrationExecution.ApplyFindsOwnEntry | lib/migration_execution.js:10-27 | `apply()` never throws for a missing own entry: the state holds every referenced association of the batch |
| MigrationExecution.ApplySavesSnapshotOnSuccess | lib/migration_execution.js:10-27 | `apply()` only appends statements; it ends with the snapshot iff no exception was thrown, and sends no other snapshot |
| MigrationExecution.SortSameKey | lib/migration_execution.js:45-70 | two records of the same object and op stay in their order |
| MigrationExecution.StepKeepsOtherEntries | lib/migration_execution.js:207-317 | a record changes no entry of the state but its own |
| MigrationExecution.RunKeepsOtherEntries | lib/migration_execution.js:17-24 | records without a key leave that key's entry as it was |
| MigrationExecution.RunKeepsTakenCare | lib/migration_execution.js:17-24 | an entry once taken care of stays so for the rest of the run |
| MigrationExecution.RunSendsPartnersOnce | lib/migration_execution.js:255-317 | in any run, the earlier of two partner records sends the relationship's statement from its partner's entry and marks its own entry; the later one sends nothing |
| MigrationExecution.PartnersIssueOneStatement | lib/migration_execution.js:10-24 | `apply` on any batch: the partner sorted first sends the one statement, built from the other's record, and the other sends nothing, when the later partner is the only record with its key and nothing throws before it |
| MigrationExecution.ManyToOneOrderIrrelevant | lib/migration_execution.js:265-291 | for an N:1 side and its 1:N partner, either one sends the same foreign key on the N:1 side's table |
| MigrationExecution.BuiltListCreatesItsTable | lib/migration_execution.js:86-105 | the create record of a list whose adapter is registered creates its table without exception |
| MigrationExecution.BuiltListTableName | lib/migration_builder.js:211 | the table of a built list is the adapter's `config.tableName`, or `tableName`, by truthiness, else the list key |
| Scenarios.NullOptionThrows | lib/migration_builder.js:35-36 | `{a: null}` against itself throws from `Object.keys(null)` |
| Scenarios.KeysAfterNestedObjectIgnored | lib/migration_builder.js:35-37 | `{a: {}, b: 1}` equals `{a: {}, b: 2}` |
| Scenarios.UndefinedMatchesMissingKey | lib/migration_builder.js:31-41 | `{a: undefined}` equals `{b: 1}` |
| Scenarios.SamePlaceNewNameIsRename | lib/migration_builder.js:101-108 | text field `a` becoming text field `b` is one rename |
| Scenarios.SamePlaceNewTypeIsRemoveAndAdd | lib/migration_builder.js:109-112 | text field `a` becoming integer field `b` is one add and one remove |
| Scenarios.NewTrailingFieldIsAdd | lib/migration_builder.js:85-121 | fields `[a, b]` becoming `[a, b, c]` is one add |
| Scenarios.RoundTripLostUndefinedIsUpdate | lib/migration_builder.js:23-37 | a cached field whose `knexOptions` lost an `undefined` property differs from the current field, so the diff holds one update |
| Scenarios.LoneReferencedAssociationThrows | lib/migration_execution.js:255-260 | a referenced 1:N record whose partner record is not in the batch throws on the missing entry, before any statement and without the snapshot |
| Scenarios.ReferencedPairGivesOneForeignKey | lib/migration_execution.js:255-291 | `Post.author` (N:1) with `User.posts` (1:N) sends one foreign key on `Post`, then the snapshot |

## Left out

- Knex and the database: statements are values in a log. `hasTable` is membership in the set of tables. A statement the database rejects is not modelled, for example creating a pivot table that already exists.
- Asynchrony: every `await` is a sequential step. Nothing runs concurrently in the source either.
- Reading the schema-history table: the newest row is a parameter (`History`). The `select ... orderBy("createdAt", "desc")` query and `JSON.parse` are not modelled.
- The JSON round trip of the saved snapshot is not modelled. `JSON.stringify` drops a property whose value is `undefined` (in an array, it writes `null` instead), and it would turn a `Date` into a string (`Value` has no dates). So the snapshot `apply()` saves can be read back different from the schema it was given. `UnchangedSchemaBuildsNothing` is therefore stated for a snapshot whose lists equal the current lists, not for the one the executor saved. `Scenarios.RoundTripLostUndefinedIsUpdate` shows that a field with `knexOptions: {scale: undefined}` is diffed as an update on the next build.
- `new Date()` in the saved snapshot row: the snapshot statement holds only the history table and the schema.
- `console.log` output.
- The field adapters' `addToTableSchema`: each adapter is given as the column-builder calls it makes (`columnCalls`). `UpdateField` replays these calls, in order, as one list. The model does not track which builder object receives each call after `t` is reassigned. In the source each replayed call goes to whatever the previous call returned, so for a field with two or more column calls the second column method is called on the first column's builder, not on the table builder; `Altered` sends it to the table.
- The `apply` trap of `_tableIntrospectionProxy`: it runs only when the proxy is called as a function, and the code never does that.
- Records whose `object` or `op` is a string outside the two priority tables (`indexOf` of -1): the model's records are typed, so they cannot be built.
- Numbers are integers, and strings have no Unicode semantics.
- Property order of integer-like keys: `Object.keys` and `for...in` list keys such as `"1"` first, in ascending numeric order, before the named keys. The model keeps insertion order for every key, so `ObjectsEqual` can visit keys in another order than the source when option objects mix integer-like and named keys, and then give a different answer (for `{b: {}, "1": 5}` against `{b: {}, "1": 6}` the source compares `"1"` first and answers false).
- Function values: `Value` has no functions (`typeof` "function", compared by identity), although `_buildOptions` copies whatever a field property such as `defaultValue` holds.
- `_forEachOfFields` is never called, and `_removeAssociation` has an empty body.
- The second `_removeField` definition replaces the first with the same body; one `RemoveField` models both.
- `MigrationSort.SortMigrations`: V8's TimSort is replaced by a stable insertion sort. A stable sort by a total preorder has one result, so the final order is the same. The order of comparator calls is not modelled.
- `fieldAdaptersByPath`: an object keyed by path, so a repeated path gives the last adapter. The model searches for the first adapter with the path. The two agree whenever paths are distinct, which the host framework ensures.
- `_listAdapters` is an object keyed by list key in the source; here it is a sequence searched by key.
