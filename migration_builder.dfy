/** The migration builder of lib/migration_builder.js: it builds the current
    schema from the registered list adapters, loads the last schema snapshot
    saved by the executor, and turns the difference between the two into a
    list of migration records. */
module MigrationBuilder {
  import opened Wrappers
  import opened JsValues
  import opened Schema
  import opened FieldDiff

  /** The default `cacheSchemaTableName` option. */
  const DefaultCacheSchemaTableName := "InternalSchema"

  /** The properties of a field that make up its options. */
  const FieldOptionKeys: seq<string> :=
    ["isPrimaryKey", "isRequired", "isUnique", "isIndexed", "defaultValue", "dataType", "options"]

  // ---------------------------------------------------------------------
  // Building the current schema

  /** `_buildOptions(keys, object)`: a fresh object holding the properties of
      `object` named in `keys` whose value is not `undefined`. */
  function BuildOptions(keys: seq<string>, obj: Entries): Entries {
    if |keys| == 0 then []
    else
      var options := BuildOptions(keys[..|keys| - 1], obj);
      var key := keys[|keys| - 1];
      if TypeOf(Get(obj, key)) != TUndefined then Put(options, key, Get(obj, key)) else options
  }

  /** The options `_buildFields` gives the field of one adapter: the field
      properties, then the adapter's own `knexOptions`. */
  function FieldOptions(fa: FieldAdapter): Entries {
    Assign(BuildOptions(FieldOptionKeys, fa.field), BuildOptions(["knexOptions"], [("knexOptions", fa.knexOptions)]))
  }

  /** The schema field of one non-relationship field adapter. */
  function BuildField(fa: FieldAdapter): Field {
    Field(fa.fieldName, fa.path, FieldOptions(fa))
  }

  /** `_buildFields(fieldAdapters)`: relationship adapters are dropped, the
      others become schema fields, in order. */
  function BuildFields(fas: seq<FieldAdapter>): seq<Field> {
    if |fas| == 0 then []
    else
      var fa := fas[|fas| - 1];
      BuildFields(fas[..|fas| - 1]) + (if fa.fieldName != RelationshipType then [BuildField(fa)] else [])
  }

  /** `Object.assign({}, { tableName: listAdapter.tableName }, listAdapter.config)`. */
  function ListOptions(la: ListAdapter): Entries {
    Assign(Assign([], [("tableName", la.tableName)]), la.config)
  }

  /** The schema list `_buildCurrentSchema` builds for one list adapter. */
  function BuildList(la: ListAdapter): ListSchema {
    ListSchema(la.key, ListOptions(la), BuildFields(la.fieldAdapters))
  }

  /** The schema lists of the list adapters, in order. */
  function CurrentLists(adapters: seq<ListAdapter>): (r: seq<ListSchema>)
    ensures |r| == |adapters|
    ensures forall i :: 0 <= i < |adapters| ==> r[i] == BuildList(adapters[i])
  {
    if |adapters| == 0 then [] else CurrentLists(adapters[..|adapters| - 1]) + [BuildList(adapters[|adapters| - 1])]
  }

  /** `schemaCurrent.set(key, list)` on the insertion-ordered map of lists:
      an existing key keeps its place and takes the new list, a new key is
      appended. */
  function SetList(current: seq<ListSchema>, ls: ListSchema): (r: seq<ListSchema>)
    ensures |r| == if HasList(current, ls.list) then |current| else |current| + 1
  {
    if |current| == 0 then [ls]
    else if current[0].list == ls.list then [ls] + current[1..]
    else [current[0]] + SetList(current[1..], ls)
  }

  predicate HasList(lists: seq<ListSchema>, key: string) {
    exists i :: 0 <= i < |lists| && lists[i].list == key
  }

  function SetLists(current: seq<ListSchema>, lists: seq<ListSchema>): seq<ListSchema> {
    if |lists| == 0 then current else SetList(SetLists(current, lists[..|lists| - 1]), lists[|lists| - 1])
  }

  /** Setting the lists of one more adapter sets that adapter's list last. */
  lemma {:induction false} SetCurrentListsStep(current: seq<ListSchema>, adapters: seq<ListAdapter>, i: nat)
    requires i < |adapters|
    ensures SetLists(current, CurrentLists(adapters[..i + 1])) == SetList(SetLists(current, CurrentLists(adapters[..i])), BuildList(adapters[i]))
  {
    assert adapters[..i + 1][..i] == adapters[..i];
    var lists := CurrentLists(adapters[..i + 1]);
    assert lists[..|lists| - 1] == CurrentLists(adapters[..i]);
  }

  predicate UniqueListKeys(lists: seq<ListSchema>) {
    forall i, j :: 0 <= i < j < |lists| ==> lists[i].list != lists[j].list
  }

  predicate UniqueAdapterKeys(adapters: seq<ListAdapter>) {
    forall i, j :: 0 <= i < j < |adapters| ==> adapters[i].key != adapters[j].key
  }

  /** The relationship adapters of a list. */
  function RelationshipAdapters(fas: seq<FieldAdapter>): (r: seq<FieldAdapter>)
    ensures forall fa :: fa in r <==> fa in fas && fa.fieldName == RelationshipType
  {
    if |fas| == 0 then []
    else
      var fa := fas[|fas| - 1];
      RelationshipAdapters(fas[..|fas| - 1]) + (if fa.fieldName == RelationshipType then [fa] else [])
  }

  // ---------------------------------------------------------------------
  // Loading the cached schema

  /** What the schema-history table holds: no table at all, or a table whose
      newest row (ordered by `createdAt`) holds the lists of a snapshot, or
      no row. Reading the table and parsing its JSON are not modelled. */
  datatype History = NoHistoryTable | HistoryTable(latest: Option<seq<ListSchema>>)

  /** `schemaCached.set(list.list, list)` for each list of a snapshot, in order. */
  function CacheLists(cached: map<string, ListSchema>, lists: seq<ListSchema>): map<string, ListSchema> {
    if |lists| == 0 then cached
    else CacheLists(cached, lists[..|lists| - 1])[lists[|lists| - 1].list := lists[|lists| - 1]]
  }

  /** `_loadCachedSchema()`: the cached schema after loading, or the error it throws. */
  function LoadCached(adapters: seq<ListAdapter>, cacheName: string, cached: map<string, ListSchema>, history: History)
    : Result<map<string, ListSchema>, Error>
  {
    if FindListAdapter(adapters, cacheName).None? then Err(CacheListNotRegistered)
    else match history
      case NoHistoryTable => Ok(cached)
      case HistoryTable(None) => Ok(cached)
      case HistoryTable(Some(lists)) => Ok(CacheLists(cached, lists))
  }

  // ---------------------------------------------------------------------
  // Planning the migrations

  /** The association record `_createAssociations` emits for one relationship adapter. */
  function AssociationOf(key: string, fa: FieldAdapter): Migration {
    AssociationMigration(Create, key, fa.rel.cardinality, fa.path, Target(fa.rel.refListKey, fa.rel.refFieldPath))
  }

  function AssociationCreates(key: string, fas: seq<FieldAdapter>): (r: seq<Migration>)
    ensures |r| == |fas|
    ensures forall i :: 0 <= i < |fas| ==> r[i] == AssociationOf(key, fas[i])
  {
    if |fas| == 0 then [] else AssociationCreates(key, fas[..|fas| - 1]) + [AssociationOf(key, fas[|fas| - 1])]
  }

  /** The migrations of one bucket of a field diff. The builder passes no
      name for updates, renames and removes: only an added field has one. */
  function AddMigrations(list: string, adds: seq<Field>): (r: seq<Migration>)
    ensures |r| == |adds|
  {
    if |adds| == 0 then []
    else
      var t := adds[|adds| - 1];
      AddMigrations(list, adds[..|adds| - 1]) + [FieldMigration(Create, Some(t.name), list, [], t, None)]
  }

  function UpdateMigrations(list: string, updates: seq<Pair>): (r: seq<Migration>)
    ensures |r| == |updates|
  {
    if |updates| == 0 then []
    else
      var p := updates[|updates| - 1];
      UpdateMigrations(list, updates[..|updates| - 1]) + [FieldMigration(Update, None, list, [], p.target, Some(p.source))]
  }

  function RenameMigrations(list: string, renames: seq<Pair>): (r: seq<Migration>)
    ensures |r| == |renames|
  {
    if |renames| == 0 then []
    else
      var p := renames[|renames| - 1];
      RenameMigrations(list, renames[..|renames| - 1]) + [FieldMigration(Rename, None, list, [], p.target, Some(p.source))]
  }

  function RemoveMigrations(list: string, removes: seq<Field>): (r: seq<Migration>)
    ensures |r| == |removes|
  {
    if |removes| == 0 then []
    else
      var s := removes[|removes| - 1];
      RemoveMigrations(list, removes[..|removes| - 1]) + [FieldMigration(Remove, None, list, [], s, None)]
  }

  function FieldMigrations(list: string, d: Diff): seq<Migration> {
    AddMigrations(list, d.addField) + UpdateMigrations(list, d.updateField)
      + RenameMigrations(list, d.renameField) + RemoveMigrations(list, d.removeField)
  }

  /** The records emitted so far and the exception that stopped the build, if any. */
  datatype Planned = Planned(emitted: seq<Migration>, failure: Option<Error>)

  /** What `build()` emits for one list of the current schema. A list that is
      not cached is created and gets one association per relationship
      adapter; a cached list gets the migrations of its field diff. */
  function PlanList(adapters: seq<ListAdapter>, cached: map<string, ListSchema>, ls: ListSchema): Planned {
    if ls.list !in cached then
      var created := [ListMigration(Create, ls.list, ls.options, ls.fields)];
      match FindListAdapter(adapters, ls.list)
      case None => Planned(created, Some(MissingListAdapter(ls.list)))
      case Some(la) => Planned(created + AssociationCreates(la.key, RelationshipAdapters(la.fieldAdapters)), None)
    else
      match DiffFields(cached[ls.list].fields, ls.fields)
      case Err(e) => Planned([], Some(e))
      case Ok(d) => Planned(FieldMigrations(ls.list, d), None)
  }

  /** What `build()` emits for the first `n` lists; the first exception stops it. */
  function PlanLists(adapters: seq<ListAdapter>, cached: map<string, ListSchema>, lists: seq<ListSchema>, n: nat): Planned
    requires n <= |lists|
  {
    if n == 0 then Planned([], None)
    else
      var p := PlanLists(adapters, cached, lists, n - 1);
      if p.failure.Some? then p
      else
        var q := PlanList(adapters, cached, lists[n - 1]);
        Planned(p.emitted + q.emitted, q.failure)
  }

  /** The state of a builder: its migration records, `schemaCurrent` (in
      insertion order) and `schemaCached`. */
  datatype BuilderState = BuilderState(migrations: seq<Migration>, current: seq<ListSchema>, cached: map<string, ListSchema>)

  datatype BuildOutcome = BuildOutcome(state: BuilderState, failure: Option<Error>)

  /** The specification of `build()`: the state it leaves and the exception it throws, if any. */
  function BuildSpec(adapters: seq<ListAdapter>, cacheName: string, s: BuilderState, history: History): BuildOutcome {
    var current := SetLists(s.current, CurrentLists(adapters));
    match LoadCached(adapters, cacheName, s.cached, history)
    case Err(e) => BuildOutcome(BuilderState(s.migrations, current, s.cached), Some(e))
    case Ok(cached) =>
      var p := PlanLists(adapters, cached, current, |current|);
      BuildOutcome(BuilderState(s.migrations + p.emitted, current, cached), p.failure)
  }

  /** The value `build()` resolves to. */
  datatype BuildOutput = BuildOutput(migrations: seq<Migration>, schema: seq<ListSchema>)

  // ---------------------------------------------------------------------
  // The builder object

  class Builder {
    const listAdapters: seq<ListAdapter>
    const cacheSchemaTableName: string
    var migrations: seq<Migration>
    var schemaCurrent: seq<ListSchema>
    var schemaCached: map<string, ListSchema>

    function State(): BuilderState
      reads this
    {
      BuilderState(migrations, schemaCurrent, schemaCached)
    }

    constructor(listAdapters: seq<ListAdapter>, cacheSchemaTableName: string)
      ensures this.listAdapters == listAdapters && this.cacheSchemaTableName == cacheSchemaTableName
      ensures State() == BuilderState([], [], map[])
    {
      this.listAdapters := listAdapters;
      this.cacheSchemaTableName := cacheSchemaTableName;
      migrations := [];
      schemaCurrent := [];
      schemaCached := map[];
    }

    /** `new MigrationBuilder(listAdapters, knex)`: the options default to
        the `InternalSchema` history table. */
    constructor Default(listAdapters: seq<ListAdapter>)
      ensures this.listAdapters == listAdapters && this.cacheSchemaTableName == DefaultCacheSchemaTableName
      ensures State() == BuilderState([], [], map[])
    {
      this.listAdapters := listAdapters;
      this.cacheSchemaTableName := DefaultCacheSchemaTableName;
      migrations := [];
      schemaCurrent := [];
      schemaCached := map[];
    }

    /** `_migration(...)`: appends one record. */
    method Migration(m: Migration)
      modifies this
      ensures State() == old(State()).(migrations := old(migrations) + [m])
    {
      migrations := migrations + [m];
    }

    method CreateList(name: string, options: Entries, fields: seq<Field>)
      modifies this
      ensures State() == old(State()).(migrations := old(migrations) + [ListMigration(Create, name, options, fields)])
    {
      Migration(ListMigration(Create, name, options, fields));
    }

    method CreateField(name: Option<string>, list: string, options: Entries, field: Field)
      modifies this
      ensures State() == old(State()).(migrations := old(migrations) + [FieldMigration(Create, name, list, options, field, None)])
    {
      Migration(FieldMigration(Create, name, list, options, field, None));
    }

    method UpdateField(name: Option<string>, list: string, options: Entries, field: Field, before: Field)
      modifies this
      ensures State() == old(State()).(migrations := old(migrations) + [FieldMigration(Update, name, list, options, field, Some(before))])
    {
      Migration(FieldMigration(Update, name, list, options, field, Some(before)));
    }

    method RenameField(name: Option<string>, list: string, options: Entries, field: Field, before: Field)
      modifies this
      ensures State() == old(State()).(migrations := old(migrations) + [FieldMigration(Rename, name, list, options, field, Some(before))])
    {
      Migration(FieldMigration(Rename, name, list, options, field, Some(before)));
    }

    method RemoveField(name: Option<string>, list: string, options: Entries, field: Field)
      modifies this
      ensures State() == old(State()).(migrations := old(migrations) + [FieldMigration(Remove, name, list, options, field, None)])
    {
      Migration(FieldMigration(Remove, name, list, options, field, None));
    }

    /** `_createAssociations(listAdapter, fieldAdapters)`. */
    method CreateAssociations(la: ListAdapter, fas: seq<FieldAdapter>)
      modifies this
      ensures State() == old(State()).(migrations := old(migrations) + AssociationCreates(la.key, fas))
    {
      var i := 0;
      while i < |fas|
        invariant 0 <= i <= |fas|
        invariant State() == old(State()).(migrations := old(migrations) + AssociationCreates(la.key, fas[..i]))
      {
        Migration(AssociationOf(la.key, fas[i]));
        assert fas[..i + 1][..i] == fas[..i];
        i := i + 1;
      }
      assert fas[..i] == fas;
    }

    /** `_buildCurrentSchema()`. */
    method BuildCurrentSchema()
      modifies this
      ensures State() == old(State()).(current := SetLists(old(schemaCurrent), CurrentLists(listAdapters)))
    {
      var i := 0;
      while i < |listAdapters|
        invariant 0 <= i <= |listAdapters|
        invariant State() == old(State()).(current := SetLists(old(schemaCurrent), CurrentLists(listAdapters[..i])))
      {
        var la := listAdapters[i];
        var listSchema := ListSchema(la.key, Assign(Assign([], [("tableName", la.tableName)]), la.config), BuildFields(la.fieldAdapters));
        SetCurrentListsStep(old(schemaCurrent), listAdapters, i);
        schemaCurrent := SetList(schemaCurrent, listSchema);
        i := i + 1;
      }
      assert listAdapters[..i] == listAdapters;
    }

    /** `_loadCachedSchema()`, with the schema-history table given as `history`. */
    method LoadCachedSchema(history: History) returns (failure: Option<Error>)
      modifies this
      ensures var r := LoadCached(listAdapters, cacheSchemaTableName, old(schemaCached), history);
        && (failure.Some? <==> r.Err?)
        && (r.Err? ==> failure == Some(r.error) && State() == old(State()))
        && (r.Ok? ==> State() == old(State()).(cached := r.value))
    {
      if FindListAdapter(listAdapters, cacheSchemaTableName).None? {
        return Some(CacheListNotRegistered);
      }
      if history.NoHistoryTable? || history.latest.None? {
        return None;
      }
      var cachedSchemaLists := history.latest.value;
      var i := 0;
      while i < |cachedSchemaLists|
        invariant 0 <= i <= |cachedSchemaLists|
        invariant State() == old(State()).(cached := CacheLists(old(schemaCached), cachedSchemaLists[..i]))
      {
        var list := cachedSchemaLists[i];
        schemaCached := schemaCached[list.list := list];
        assert cachedSchemaLists[..i + 1][..i] == cachedSchemaLists[..i];
        i := i + 1;
      }
      assert cachedSchemaLists[..i] == cachedSchemaLists;
      return None;
    }

    /** The four `forEach` loops of `build()` over the buckets of a field diff.
        A bucket entry has no `type`, so their relationship branches never
        run. */
    method EmitFieldMigrations(list: string, d: Diff)
      modifies this
      ensures State() == old(State()).(migrations := old(migrations) + FieldMigrations(list, d))
    {
      ghost var m0 := migrations;
      EmitAdds(list, d.addField);
      EmitUpdates(list, d.updateField);
      EmitRenames(list, d.renameField);
      EmitRemoves(list, d.removeField);
      AppendFour(m0, AddMigrations(list, d.addField), UpdateMigrations(list, d.updateField),
        RenameMigrations(list, d.renameField), RemoveMigrations(list, d.removeField));
    }

    method EmitAdds(list: string, adds: seq<Field>)
      modifies this
      ensures State() == old(State()).(migrations := old(migrations) + AddMigrations(list, adds))
    {
      var i := 0;
      while i < |adds|
        invariant 0 <= i <= |adds|
        invariant State() == old(State()).(migrations := old(migrations) + AddMigrations(list, adds[..i]))
      {
        var fieldSchema := adds[i];
        CreateField(Some(fieldSchema.name), list, [], fieldSchema);
        assert adds[..i + 1][..i] == adds[..i];
        i := i + 1;
      }
      assert adds[..i] == adds;
    }

    method EmitUpdates(list: string, updates: seq<Pair>)
      modifies this
      ensures State() == old(State()).(migrations := old(migrations) + UpdateMigrations(list, updates))
    {
      var i := 0;
      while i < |updates|
        invariant 0 <= i <= |updates|
        invariant State() == old(State()).(migrations := old(migrations) + UpdateMigrations(list, updates[..i]))
      {
        var fieldSchema := updates[i];
        UpdateField(None, list, [], fieldSchema.target, fieldSchema.source);
        assert updates[..i + 1][..i] == updates[..i];
        i := i + 1;
      }
      assert updates[..i] == updates;
    }

    method EmitRenames(list: string, renames: seq<Pair>)
      modifies this
      ensures State() == old(State()).(migrations := old(migrations) + RenameMigrations(list, renames))
    {
      var i := 0;
      while i < |renames|
        invariant 0 <= i <= |renames|
        invariant State() == old(State()).(migrations := old(migrations) + RenameMigrations(list, renames[..i]))
      {
        var fieldSchema := renames[i];
        RenameField(None, list, [], fieldSchema.target, fieldSchema.source);
        assert renames[..i + 1][..i] == renames[..i];
        i := i + 1;
      }
      assert renames[..i] == renames;
    }

    method EmitRemoves(list: string, removes: seq<Field>)
      modifies this
      ensures State() == old(State()).(migrations := old(migrations) + RemoveMigrations(list, removes))
    {
      var i := 0;
      while i < |removes|
        invariant 0 <= i <= |removes|
        invariant State() == old(State()).(migrations := old(migrations) + RemoveMigrations(list, removes[..i]))
      {
        var fieldSchema := removes[i];
        RemoveField(None, list, [], fieldSchema);
        assert removes[..i + 1][..i] == removes[..i];
        i := i + 1;
      }
      assert removes[..i] == removes;
    }

    /** The body of the `schemaCurrent.forEach` of `build()` for one list. */
    method BuildListMigrations(ls: ListSchema) returns (failure: Option<Error>)
      modifies this
      ensures var p := PlanList(listAdapters, schemaCached, ls);
        && failure == p.failure
        && State() == old(State()).(migrations := old(migrations) + p.emitted)
    {
      var listAdapter := FindListAdapter(listAdapters, ls.list);
      if ls.list !in schemaCached {
        CreateList(ls.list, ls.options, ls.fields);
        if listAdapter.None? {
          return Some(MissingListAdapter(ls.list));
        }
        CreateAssociations(listAdapter.value, RelationshipAdapters(listAdapter.value.fieldAdapters));
        return None;
      }
      var diff := DiffListFields(schemaCached[ls.list], ls);
      if diff.Err? {
        return Some(diff.error);
      }
      EmitFieldMigrations(ls.list, diff.value);
      return None;
    }

    /** `build()`, with the schema-history table given as `history`. */
    method Build(history: History) returns (r: Result<BuildOutput, Error>)
      modifies this
      ensures var spec := BuildSpec(listAdapters, cacheSchemaTableName, old(State()), history);
        && State() == spec.state
        && (r.Err? <==> spec.failure.Some?)
        && (r.Err? ==> r.error == spec.failure.value)
        && (r.Ok? ==> r.value == BuildOutput(migrations, schemaCurrent))
    {
      BuildCurrentSchema();
      var loaded := LoadCachedSchema(history);
      if loaded.Some? {
        return Err(loaded.value);
      }
      var failure := BuildAllLists();
      if failure.Some? {
        return Err(failure.value);
      }
      return Ok(BuildOutput(migrations, schemaCurrent));
    }

    /** The `schemaCurrent.forEach` of `build()`. */
    method BuildAllLists() returns (failure: Option<Error>)
      modifies this
      ensures var p := PlanLists(listAdapters, schemaCached, schemaCurrent, |schemaCurrent|);
        && failure == p.failure
        && State() == old(State()).(migrations := old(migrations) + p.emitted)
    {
      var lists := schemaCurrent;
      ghost var cached := schemaCached;
      var i := 0;
      while i < |lists|
        invariant 0 <= i <= |lists|
        invariant schemaCurrent == lists && schemaCached == cached
        invariant PlanLists(listAdapters, cached, lists, i).failure.None?
        invariant migrations == old(migrations) + PlanLists(listAdapters, cached, lists, i).emitted
      {
        ghost var before := migrations;
        failure := BuildListMigrations(lists[i]);
        PlanListsStep(listAdapters, cached, lists, i, old(migrations), before, migrations);
        if failure.Some? {
          PlanListsFailureSticks(listAdapters, cached, lists, i + 1, |lists|);
          return;
        }
        i := i + 1;
      }
      return None;
    }
  }

  /** One more list: its plan is appended unless an earlier one failed. */
  lemma {:induction false} PlanListsNext(adapters: seq<ListAdapter>, cached: map<string, ListSchema>, lists: seq<ListSchema>, n: nat)
    requires n < |lists| && PlanLists(adapters, cached, lists, n).failure.None?
    ensures var p := PlanLists(adapters, cached, lists, n);
      var q := PlanList(adapters, cached, lists[n]);
      PlanLists(adapters, cached, lists, n + 1) == Planned(p.emitted + q.emitted, q.failure)
  {
  }

  /** The records after one more list are the old records followed by the
      plan of the first `n + 1` lists. */
  lemma {:induction false} PlanListsStep(adapters: seq<ListAdapter>, cached: map<string, ListSchema>, lists: seq<ListSchema>, n: nat,
                                         m0: seq<Migration>, before: seq<Migration>, after: seq<Migration>)
    requires n < |lists| && PlanLists(adapters, cached, lists, n).failure.None?
    requires before == m0 + PlanLists(adapters, cached, lists, n).emitted
    requires after == before + PlanList(adapters, cached, lists[n]).emitted
    ensures after == m0 + PlanLists(adapters, cached, lists, n + 1).emitted
    ensures PlanLists(adapters, cached, lists, n + 1).failure == PlanList(adapters, cached, lists[n]).failure
  {
    PlanListsNext(adapters, cached, lists, n);
    AppendTwo(m0, PlanLists(adapters, cached, lists, n).emitted, PlanList(adapters, cached, lists[n]).emitted);
  }

  lemma {:induction false} AppendTwo(m: seq<Migration>, a: seq<Migration>, b: seq<Migration>)
    ensures m + a + b == m + (a + b)
  {
  }

  lemma {:induction false} AppendFour(m: seq<Migration>, a: seq<Migration>, b: seq<Migration>, c: seq<Migration>, d: seq<Migration>)
    ensures m + a + b + c + d == m + (a + b + c + d)
  {
  }

  lemma {:induction false} PlanListsFailureSticks(adapters: seq<ListAdapter>, cached: map<string, ListSchema>, lists: seq<ListSchema>, n: nat, m: nat)
    requires n <= m <= |lists| && PlanLists(adapters, cached, lists, n).failure.Some?
    ensures PlanLists(adapters, cached, lists, m) == PlanLists(adapters, cached, lists, n)
    decreases m - n
  {
    if n < m {
      PlanListsFailureSticks(adapters, cached, lists, n, m - 1);
    }
  }

  // ---------------------------------------------------------------------
  // Properties of the current schema

  /** The options `_buildOptions` builds read like the object for every key
      asked for and as `undefined` for every other key; they hold exactly
      the keys asked for whose value is defined, each once. */
  lemma {:induction false} BuildOptionsReads(keys: seq<string>, obj: Entries, k: string)
    ensures Get(BuildOptions(keys, obj), k) == if k in keys then Get(obj, k) else Undefined
    ensures HasKey(BuildOptions(keys, obj), k) <==> k in keys && Get(obj, k) != Undefined
    ensures UniqueKeys(BuildOptions(keys, obj))
  {
    if |keys| == 0 {
      GetAbsent([], k);
    } else {
      var init := keys[..|keys| - 1];
      var key := keys[|keys| - 1];
      BuildOptionsReads(init, obj, k);
      assert keys == init + [key];
      var prev := BuildOptions(init, obj);
      if Get(obj, key) != Undefined {
        PutGet(prev, key, Get(obj, key), k);
        PutUnique(prev, key, Get(obj, key));
      } else if k == key && k !in init {
        GetAbsent(prev, k);
      }
    }
  }

  /** A field's options are the defined field properties in the order of
      the seven field option keys, followed by `knexOptions` when it is
      defined. They read as the field's properties for those keys, as the
      adapter's `knexOptions` for that key, and as `undefined` otherwise;
      no key occurs twice. */
  lemma {:induction false} FieldOptionsReads(fa: FieldAdapter, k: string)
    ensures FieldOptions(fa) == BuildOptions(FieldOptionKeys, fa.field) +
      (if fa.knexOptions != Undefined then [("knexOptions", fa.knexOptions)] else [])
    ensures Get(FieldOptions(fa), k) ==
      if k in FieldOptionKeys then Get(fa.field, k)
      else if k == "knexOptions" then fa.knexOptions
      else Undefined
    ensures HasKey(FieldOptions(fa), k) <==>
      (k in FieldOptionKeys && Get(fa.field, k) != Undefined) || (k == "knexOptions" && fa.knexOptions != Undefined)
    ensures UniqueKeys(FieldOptions(fa))
  {
    var own := [("knexOptions", fa.knexOptions)];
    BuildOptionsReads(FieldOptionKeys, fa.field, k);
    BuildOptionsReads(["knexOptions"], own, k);
    BuildOptionsReads(["knexOptions"], own, "knexOptions");
    AssignGet(BuildOptions(FieldOptionKeys, fa.field), BuildOptions(["knexOptions"], own), k);
    AssignUnique(BuildOptions(FieldOptionKeys, fa.field), BuildOptions(["knexOptions"], own));
    assert Get(own, "knexOptions") == fa.knexOptions;
    BuildOptionsReads(FieldOptionKeys, fa.field, "knexOptions");
    assert "knexOptions" !in FieldOptionKeys;
    if fa.knexOptions != Undefined {
      assert BuildOptions(["knexOptions"], own) == [("knexOptions", fa.knexOptions)];
      PutNewKey(BuildOptions(FieldOptionKeys, fa.field), "knexOptions", fa.knexOptions);
    } else {
      assert BuildOptions(["knexOptions"], own) == [];
    }
  }

  /** `tableName` reads as the adapter's `tableName` unless the list's
      `config` sets it; every other key reads as in `config`. */
  lemma {:induction false} ListOptionsReads(la: ListAdapter, k: string)
    requires UniqueKeys(la.config)
    ensures Get(ListOptions(la), k) ==
      if HasKey(la.config, k) then Get(la.config, k)
      else if k == "tableName" then la.tableName
      else Undefined
  {
    var base := [("tableName", la.tableName)];
    assert UniqueKeys(base);
    AssignGet([], base, k);
    AssignGet(Assign([], base), la.config, k);
    GetAbsent([], k);
    if k != "tableName" {
      assert !HasKey(base, k);
      GetAbsent(base, k);
    }
  }

  /** `_buildFields` holds no relationship field, a field for every other
      adapter, and nothing else. */
  lemma {:induction false} BuildFieldsShape(fas: seq<FieldAdapter>)
    ensures forall f :: f in BuildFields(fas) ==> f.fieldType != RelationshipType
    ensures forall fa :: fa in fas && fa.fieldName != RelationshipType ==> BuildField(fa) in BuildFields(fas)
    ensures forall f :: f in BuildFields(fas) ==> exists fa :: fa in fas && fa.fieldName != RelationshipType && f == BuildField(fa)
  {
    if |fas| > 0 {
      var init := fas[..|fas| - 1];
      BuildFieldsShape(init);
      assert fas == init + [fas[|fas| - 1]];
    }
  }

  /** `_buildFields` distributes over concatenation. */
  lemma {:induction false} BuildFieldsAppend(a: seq<FieldAdapter>, b: seq<FieldAdapter>)
    ensures BuildFields(a + b) == BuildFields(a) + BuildFields(b)
  {
    if |b| == 0 {
      assert a + b == a;
    } else {
      var init := b[..|b| - 1];
      BuildFieldsAppend(a, init);
      assert (a + b)[..|a + b| - 1] == a + init;
      assert (a + b)[|a + b| - 1] == b[|b| - 1];
    }
  }

  /** Selecting the relationship adapters distributes over concatenation, so
      it keeps their order and their repetitions. */
  lemma {:induction false} RelationshipAdaptersAppend(a: seq<FieldAdapter>, b: seq<FieldAdapter>)
    ensures RelationshipAdapters(a + b) == RelationshipAdapters(a) + RelationshipAdapters(b)
  {
    if |b| == 0 {
      assert a + b == a;
    } else {
      var init := b[..|b| - 1];
      RelationshipAdaptersAppend(a, init);
      assert (a + b)[..|a + b| - 1] == a + init;
      assert (a + b)[|a + b| - 1] == b[|b| - 1];
    }
  }

  /** A relationship adapter, wherever it sits, leaves the fields of a list
      as they are: relationships are not part of the field diff. */
  lemma {:induction false} RelationshipAdapterAddsNoField(a: seq<FieldAdapter>, fa: FieldAdapter, b: seq<FieldAdapter>)
    requires fa.fieldName == RelationshipType
    ensures BuildFields(a + [fa] + b) == BuildFields(a + b)
  {
    BuildFieldsAppend(a + [fa], b);
    BuildFieldsSnoc(a, fa);
    BuildFieldsAppend(a, b);
    assert BuildFields(a) + [] == BuildFields(a);
  }

  lemma {:induction false} BuildFieldsSnoc(s: seq<FieldAdapter>, x: FieldAdapter)
    ensures BuildFields(s + [x]) == BuildFields(s) + (if x.fieldName != RelationshipType then [BuildField(x)] else [])
  {
    assert (s + [x])[..|s|] == s;
  }

  predicate UniquePaths(fas: seq<FieldAdapter>) {
    forall i, j :: 0 <= i < j < |fas| ==> fas[i].path != fas[j].path
  }

  /** Adapters with distinct paths give fields with distinct names. */
  lemma {:induction false} BuildFieldsUniqueNames(fas: seq<FieldAdapter>)
    requires UniquePaths(fas)
    ensures UniqueNames(BuildFields(fas))
  {
    if |fas| > 0 {
      var init := fas[..|fas| - 1];
      var last := fas[|fas| - 1];
      BuildFieldsUniqueNames(init);
      BuildFieldsShape(init);
      var prev := BuildFields(init);
      var r := BuildFields(fas);
      forall i, j | 0 <= i < j < |r| ensures r[i].name != r[j].name {
        if j >= |prev| {
          assert r[i] in prev;
          var fa :| fa in init && fa.fieldName != RelationshipType && r[i] == BuildField(fa);
          var k :| 0 <= k < |init| && init[k] == fa;
          assert fas[k] == fa;
        }
      }
    }
  }

  /** A list of the current schema is set once per key: built from adapters
      with distinct keys, it is the lists in adapter order. */
  lemma {:induction false} SetListsOfUniqueLists(lists: seq<ListSchema>)
    requires UniqueListKeys(lists)
    ensures SetLists([], lists) == lists
  {
    if |lists| > 0 {
      var init := lists[..|lists| - 1];
      var last := lists[|lists| - 1];
      SetListsOfUniqueLists(init);
      assert !HasList(init, last.list);
      SetListNewKey(init, last);
    }
  }

  lemma {:induction false} SetListNewKey(current: seq<ListSchema>, ls: ListSchema)
    requires !HasList(current, ls.list)
    ensures SetList(current, ls) == current + [ls]
  {
    if |current| > 0 {
      assert current[0].list != ls.list;
      assert !HasList(current[1..], ls.list) by {
        forall i | 0 <= i < |current[1..]| ensures current[1..][i].list != ls.list {
          assert current[1..][i] == current[i + 1];
        }
      }
      SetListNewKey(current[1..], ls);
      assert [current[0]] + (current[1..] + [ls]) == current + [ls];
    }
  }

  lemma {:induction false} SetListPresent(current: seq<ListSchema>, i: nat)
    requires UniqueListKeys(current) && i < |current|
    ensures SetList(current, current[i]) == current
  {
    if i > 0 {
      assert current[0].list != current[i].list;
      assert UniqueListKeys(current[1..]) by {
        forall a, b | 0 <= a < b < |current[1..]| ensures current[1..][a].list != current[1..][b].list {
          assert current[1..][a] == current[a + 1] && current[1..][b] == current[b + 1];
        }
      }
      assert current[1..][i - 1] == current[i];
      SetListPresent(current[1..], i - 1);
      assert [current[0]] + current[1..] == current;
    } else {
      assert [current[0]] + current[1..] == current;
    }
  }

  /** Building the current schema into a builder that already holds it
      changes nothing. */
  lemma {:induction false} RebuildingCurrentSchemaChangesNothing(lists: seq<ListSchema>, n: nat)
    requires UniqueListKeys(lists) && n <= |lists|
    ensures SetLists(lists, lists[..n]) == lists
  {
    if n > 0 {
      RebuildingCurrentSchemaChangesNothing(lists, n - 1);
      assert lists[..n][..n - 1] == lists[..n - 1];
      SetListPresent(lists, n - 1);
    }
  }

  // ---------------------------------------------------------------------
  // Properties of the cached schema

  /** After loading a snapshot, the cache holds the keys it held and the
      names of the snapshot's lists. */
  lemma {:induction false} CacheListsKeys(cached: map<string, ListSchema>, lists: seq<ListSchema>, k: string)
    ensures k in CacheLists(cached, lists) <==> k in cached || HasList(lists, k)
  {
    if |lists| > 0 {
      var init := lists[..|lists| - 1];
      CacheListsKeys(cached, init, k);
      if HasList(init, k) {
        var i :| 0 <= i < |init| && init[i].list == k;
        assert lists[i] == init[i];
      }
      if HasList(lists, k) && lists[|lists| - 1].list != k {
        var i :| 0 <= i < |lists| && lists[i].list == k;
        assert init[i] == lists[i];
      }
    }
  }

  /** Each name maps to the last list of the snapshot with that name. */
  lemma {:induction false} CacheListsLastWins(cached: map<string, ListSchema>, lists: seq<ListSchema>, i: nat)
    requires i < |lists| && forall j :: i < j < |lists| ==> lists[j].list != lists[i].list
    ensures lists[i].list in CacheLists(cached, lists) && CacheLists(cached, lists)[lists[i].list] == lists[i]
  {
    if i < |lists| - 1 {
      var init := lists[..|lists| - 1];
      assert init[i] == lists[i];
      CacheListsLastWins(cached, init, i);
    }
  }

  /** A cached list the snapshot does not mention stays as it was. */
  lemma {:induction false} CacheListsKeeps(cached: map<string, ListSchema>, lists: seq<ListSchema>, k: string)
    requires k in cached && !HasList(lists, k)
    ensures k in CacheLists(cached, lists) && CacheLists(cached, lists)[k] == cached[k]
  {
    if |lists| > 0 {
      var init := lists[..|lists| - 1];
      assert lists[|lists| - 1].list != k;
      assert !HasList(init, k) by {
        forall i | 0 <= i < |init| ensures init[i].list != k {
          assert init[i] == lists[i];
        }
      }
      CacheListsKeeps(cached, init, k);
    }
  }

  // ---------------------------------------------------------------------
  // Properties of a whole build

  /** The migrations of a list that is not in the database yet: the list,
      then one association per relationship adapter. */
  function NewListMigrations(la: ListAdapter): seq<Migration> {
    [ListMigration(Create, la.key, ListOptions(la), BuildFields(la.fieldAdapters))]
      + AssociationCreates(la.key, RelationshipAdapters(la.fieldAdapters))
  }

  /** The migrations of a first build: every list is new. */
  function FreshMigrations(adapters: seq<ListAdapter>): seq<Migration> {
    if |adapters| == 0 then []
    else FreshMigrations(adapters[..|adapters| - 1]) + NewListMigrations(adapters[|adapters| - 1])
  }

  lemma {:induction false} FindListAdapterFound(adapters: seq<ListAdapter>, i: nat)
    requires i < |adapters|
    ensures FindListAdapter(adapters, adapters[i].key).Some?
  {
    if i > 0 && adapters[0].key != adapters[i].key {
      assert adapters[1..][i - 1] == adapters[i];
      FindListAdapterFound(adapters[1..], i - 1);
    }
  }

  lemma {:induction false} FindListAdapterUnique(adapters: seq<ListAdapter>, i: nat)
    requires UniqueAdapterKeys(adapters) && i < |adapters|
    ensures FindListAdapter(adapters, adapters[i].key) == Some(adapters[i])
  {
    if i > 0 {
      assert adapters[0].key != adapters[i].key;
      assert UniqueAdapterKeys(adapters[1..]) by {
        forall a, b | 0 <= a < b < |adapters[1..]| ensures adapters[1..][a].key != adapters[1..][b].key {
          assert adapters[1..][a] == adapters[a + 1] && adapters[1..][b] == adapters[b + 1];
        }
      }
      assert adapters[1..][i - 1] == adapters[i];
      FindListAdapterUnique(adapters[1..], i - 1);
    }
  }

  lemma {:induction false} CurrentListsUnique(adapters: seq<ListAdapter>)
    requires UniqueAdapterKeys(adapters)
    ensures UniqueListKeys(CurrentLists(adapters))
  {
  }

  lemma {:induction false} FreshPlan(adapters: seq<ListAdapter>, n: nat)
    requires UniqueAdapterKeys(adapters) && n <= |adapters|
    ensures PlanLists(adapters, map[], CurrentLists(adapters), n) == Planned(FreshMigrations(adapters[..n]), None)
  {
    if n > 0 {
      FreshPlan(adapters, n - 1);
      FindListAdapterUnique(adapters, n - 1);
      assert adapters[..n][..n - 1] == adapters[..n - 1];
    }
  }

  /** On a database without schema history, a first build creates every
      list in adapter order, each followed by its associations, and never
      throws. */
  lemma {:induction false} FreshBuildCreatesEveryList(adapters: seq<ListAdapter>, cacheName: string, history: History)
    requires UniqueAdapterKeys(adapters) && FindListAdapter(adapters, cacheName).Some?
    requires history.NoHistoryTable? || history.latest.None?
    ensures BuildSpec(adapters, cacheName, BuilderState([], [], map[]), history)
      == BuildOutcome(BuilderState(FreshMigrations(adapters), CurrentLists(adapters), map[]), None)
  {
    var lists := CurrentLists(adapters);
    CurrentListsUnique(adapters);
    SetListsOfUniqueLists(lists);
    FreshPlan(adapters, |adapters|);
    assert adapters[..|adapters|] == adapters;
    assert LoadCached(adapters, cacheName, map[], history) == Ok(map[]);
    BuildSpecLoaded(adapters, cacheName, BuilderState([], [], map[]), history, map[]);
  }

  /** `build()` once the cache loaded: the plan of every current list. */
  lemma {:induction false} BuildSpecLoaded(adapters: seq<ListAdapter>, cacheName: string, s: BuilderState, history: History, cached: map<string, ListSchema>)
    requires LoadCached(adapters, cacheName, s.cached, history) == Ok(cached)
    ensures var current := SetLists(s.current, CurrentLists(adapters));
      var p := PlanLists(adapters, cached, current, |current|);
      BuildSpec(adapters, cacheName, s, history) == BuildOutcome(BuilderState(s.migrations + p.emitted, current, cached), p.failure)
  {
  }

  /** Without a list for the schema history, `build()` throws before
      emitting anything. */
  lemma {:induction false} BuildFailsWithoutCacheList(adapters: seq<ListAdapter>, cacheName: string, s: BuilderState, history: History)
    requires FindListAdapter(adapters, cacheName).None?
    ensures var o := BuildSpec(adapters, cacheName, s, history);
      o.failure == Some(CacheListNotRegistered) && o.state.migrations == s.migrations && o.state.cached == s.cached
  {
  }

  /** The option values of a field adapter are well-formed and hold no `null`. */
  predicate OptionValuesWellFormed(fa: FieldAdapter) {
    && (forall k :: k in FieldOptionKeys ==> WellFormed(Get(fa.field, k)) && NullFree(Get(fa.field, k)))
    && WellFormed(fa.knexOptions) && NullFree(fa.knexOptions)
  }

  lemma {:induction false} BuildFieldWellFormed(fa: FieldAdapter)
    requires OptionValuesWellFormed(fa)
    ensures FieldWellFormed(BuildField(fa))
  {
    var es := FieldOptions(fa);
    FieldOptionsReads(fa, "");
    forall i | 0 <= i < |es| ensures WellFormed(es[i].1) && NullFree(es[i].1) {
      GetUnique(es, i);
      FieldOptionsReads(fa, es[i].0);
      assert HasKey(es, es[i].0);
    }
  }

  /** Every list adapter has field adapters with distinct paths and
      well-formed option values. */
  predicate AdaptersWellFormed(adapters: seq<ListAdapter>) {
    forall i :: 0 <= i < |adapters| ==>
      UniquePaths(adapters[i].fieldAdapters) && forall fa :: fa in adapters[i].fieldAdapters ==> OptionValuesWellFormed(fa)
  }

  lemma {:induction false} BuildListWellFormed(la: ListAdapter)
    requires UniquePaths(la.fieldAdapters) && forall fa :: fa in la.fieldAdapters ==> OptionValuesWellFormed(fa)
    ensures UniqueNames(BuildList(la).fields)
    ensures forall f :: f in BuildList(la).fields ==> FieldWellFormed(f)
  {
    BuildFieldsUniqueNames(la.fieldAdapters);
    BuildFieldsShape(la.fieldAdapters);
    forall f | f in BuildList(la).fields ensures FieldWellFormed(f) {
      var fa :| fa in la.fieldAdapters && fa.fieldName != RelationshipType && f == BuildField(fa);
      BuildFieldWellFormed(fa);
    }
  }

  /** Lists that each plan nothing plan nothing together. */
  lemma {:induction false} PlanListsOfQuietLists(adapters: seq<ListAdapter>, cached: map<string, ListSchema>, lists: seq<ListSchema>, n: nat)
    requires n <= |lists|
    requires forall i :: 0 <= i < n ==> PlanList(adapters, cached, lists[i]) == Planned([], None)
    ensures PlanLists(adapters, cached, lists, n) == Planned([], None)
  {
    if n > 0 {
      PlanListsOfQuietLists(adapters, cached, lists, n - 1);
      PlanListsQuietStep(adapters, cached, lists, n - 1);
    }
  }

  /** One more list that plans nothing keeps the plan empty. */
  lemma {:induction false} PlanListsQuietStep(adapters: seq<ListAdapter>, cached: map<string, ListSchema>, lists: seq<ListSchema>, n: nat)
    requires n < |lists| && PlanLists(adapters, cached, lists, n) == Planned([], None)
    requires PlanList(adapters, cached, lists[n]) == Planned([], None)
    ensures PlanLists(adapters, cached, lists, n + 1) == Planned([], None)
  {
    PlanListsNext(adapters, cached, lists, n);
    var none: seq<Migration> := [];
    assert none + none == none;
  }

  lemma {:induction false} UnchangedListPlansNothing(adapters: seq<ListAdapter>, i: nat)
    requires UniqueAdapterKeys(adapters) && AdaptersWellFormed(adapters) && i < |adapters|
    ensures var lists := CurrentLists(adapters);
      PlanList(adapters, CacheLists(map[], lists), lists[i]) == Planned([], None)
  {
    var lists := CurrentLists(adapters);
    var cached := CacheLists(map[], lists);
    var ls := lists[i];
    CurrentListsUnique(adapters);
    CacheListsLastWins(map[], lists, i);
    assert cached[ls.list] == ls;
    var la := adapters[i];
    assert ls == BuildList(la);
    assert UniquePaths(la.fieldAdapters) && forall fa :: fa in la.fieldAdapters ==> OptionValuesWellFormed(fa);
    BuildListWellFormed(la);
    DiffOfIdenticalListsIsEmpty(ls.fields);
    assert FieldMigrations(ls.list, Diff([], [], [], [])) == [];
    PlanListCached(adapters, cached, ls, Diff([], [], [], []));
  }

  lemma {:induction false} PlanListCached(adapters: seq<ListAdapter>, cached: map<string, ListSchema>, ls: ListSchema, d: Diff)
    requires ls.list in cached && DiffFields(cached[ls.list].fields, ls.fields) == Ok(d)
    ensures PlanList(adapters, cached, ls) == Planned(FieldMigrations(ls.list, d), None)
  {
  }

  /** Against a snapshot whose lists equal the current lists, a build emits
      nothing and does not throw. The snapshot the executor saves is read
      back through JSON, which can change it (`RoundTripLostUndefinedIsUpdate`
      in the scenarios shows one such case), so this is about the snapshot
      as the builder reads it. */
  lemma {:induction false} UnchangedSchemaBuildsNothing(adapters: seq<ListAdapter>, cacheName: string)
    requires UniqueAdapterKeys(adapters) && FindListAdapter(adapters, cacheName).Some?
    requires AdaptersWellFormed(adapters)
    ensures var o := BuildSpec(adapters, cacheName, BuilderState([], [], map[]), HistoryTable(Some(CurrentLists(adapters))));
      o.failure.None? && o.state.migrations == [] && o.state.current == CurrentLists(adapters)
  {
    var lists := CurrentLists(adapters);
    var history := HistoryTable(Some(lists));
    var cached := CacheLists(map[], lists);
    assert SetLists([], lists) == lists by {
      CurrentListsUnique(adapters);
      SetListsOfUniqueLists(lists);
    }
    assert PlanLists(adapters, cached, lists, |lists|) == Planned([], None) by {
      UnchangedListsPlanNothing(adapters);
    }
    assert LoadCached(adapters, cacheName, map[], history) == Ok(cached);
    QuietBuild(adapters, cacheName, history, cached);
  }

  /** Against a cache of themselves, the current lists plan nothing. */
  lemma {:induction false} UnchangedListsPlanNothing(adapters: seq<ListAdapter>)
    requires UniqueAdapterKeys(adapters) && AdaptersWellFormed(adapters)
    ensures var lists := CurrentLists(adapters);
      PlanLists(adapters, CacheLists(map[], lists), lists, |lists|) == Planned([], None)
  {
    var lists := CurrentLists(adapters);
    var cached := CacheLists(map[], lists);
    forall i | 0 <= i < |lists| ensures PlanList(adapters, cached, lists[i]) == Planned([], None) {
      UnchangedListPlansNothing(adapters, i);
    }
    PlanListsOfQuietLists(adapters, cached, lists, |lists|);
  }

  /** A first build whose cache loads and whose lists all plan nothing
      emits nothing. */
  lemma {:induction false} QuietBuild(adapters: seq<ListAdapter>, cacheName: string, history: History, cached: map<string, ListSchema>)
    requires LoadCached(adapters, cacheName, map[], history) == Ok(cached)
    requires SetLists([], CurrentLists(adapters)) == CurrentLists(adapters)
    requires PlanLists(adapters, cached, CurrentLists(adapters), |CurrentLists(adapters)|) == Planned([], None)
    ensures BuildSpec(adapters, cacheName, BuilderState([], [], map[]), history) == BuildOutcome(BuilderState([], CurrentLists(adapters), cached), None)
  {
    BuildSpecLoaded(adapters, cacheName, BuilderState([], [], map[]), history, cached);
    var none: seq<Migration> := [];
    assert none + none == none;
  }

  /** A list already in the database gets field migrations on that list
      only, named only when they add a field, with `before` exactly when
      they update or rename one: one per entry of its field diff. */
  lemma {:induction false} CachedListEmitsFieldMigrations(adapters: seq<ListAdapter>, cached: map<string, ListSchema>, ls: ListSchema)
    requires ls.list in cached
    ensures var p := PlanList(adapters, cached, ls);
      && (forall m :: m in p.emitted ==>
            && m.FieldMigration? && m.list == ls.list && m.options == []
            && (m.fieldName.Some? <==> m.op == Create)
            && (m.op == Create ==> m.fieldName == Some(m.field.name))
            && (m.before.Some? <==> m.op == Update || m.op == Rename))
      && (p.failure.None? ==> var d := DiffFields(cached[ls.list].fields, ls.fields).value;
            |p.emitted| == |d.addField| + |d.updateField| + |d.renameField| + |d.removeField|)
  {
    var d := DiffFields(cached[ls.list].fields, ls.fields);
    if d.Ok? {
      AddMigrationsShape(ls.list, d.value.addField);
      UpdateMigrationsShape(ls.list, d.value.updateField);
      RenameMigrationsShape(ls.list, d.value.renameField);
      RemoveMigrationsShape(ls.list, d.value.removeField);
    }
  }

  lemma {:induction false} AddMigrationsShape(list: string, adds: seq<Field>)
    ensures forall m :: m in AddMigrations(list, adds) ==>
      m.FieldMigration? && m.op == Create && m.list == list && m.options == [] && m.fieldName == Some(m.field.name) && m.before.None?
  {
    if |adds| > 0 {
      AddMigrationsShape(list, adds[..|adds| - 1]);
    }
  }

  lemma {:induction false} UpdateMigrationsShape(list: string, updates: seq<Pair>)
    ensures forall m :: m in UpdateMigrations(list, updates) ==>
      m.FieldMigration? && m.op == Update && m.list == list && m.options == [] && m.fieldName.None? && m.before.Some?
  {
    if |updates| > 0 {
      UpdateMigrationsShape(list, updates[..|updates| - 1]);
    }
  }

  lemma {:induction false} RenameMigrationsShape(list: string, renames: seq<Pair>)
    ensures forall m :: m in RenameMigrations(list, renames) ==>
      m.FieldMigration? && m.op == Rename && m.list == list && m.options == [] && m.fieldName.None? && m.before.Some?
  {
    if |renames| > 0 {
      RenameMigrationsShape(list, renames[..|renames| - 1]);
    }
  }

  lemma {:induction false} RemoveMigrationsShape(list: string, removes: seq<Field>)
    ensures forall m :: m in RemoveMigrations(list, removes) ==>
      m.FieldMigration? && m.op == Remove && m.list == list && m.options == [] && m.fieldName.None? && m.before.None?
  {
    if |removes| > 0 {
      RemoveMigrationsShape(list, removes[..|removes| - 1]);
    }
  }

  /** Adding a relationship to a list that is already in the database plans
      exactly what the list without it plans: the new relationship gets no
      association. */
  lemma {:induction false} RelationshipChangeOnCachedListIsInvisible(
    adapters: seq<ListAdapter>, cached: map<string, ListSchema>, la: ListAdapter,
    a: seq<FieldAdapter>, fa: FieldAdapter, b: seq<FieldAdapter>)
    requires la.key in cached && fa.fieldName == RelationshipType && la.fieldAdapters == a + b
    ensures PlanList(adapters, cached, BuildList(la.(fieldAdapters := a + [fa] + b))) == PlanList(adapters, cached, BuildList(la))
  {
    RelationshipAdapterAddsNoField(a, fa, b);
  }

  /** Options free of `null` on both sides: `build()` never throws once the
      schema-history list is registered. */
  predicate ListsNullFree(lists: seq<ListSchema>) {
    forall i, j :: 0 <= i < |lists| && 0 <= j < |lists[i].fields| ==> NullFree(Obj(lists[i].fields[j].options))
  }

  lemma {:induction false} SetListsFrom(current: seq<ListSchema>, lists: seq<ListSchema>)
    ensures forall x :: x in SetLists(current, lists) ==> x in current || x in lists
  {
    if |lists| > 0 {
      SetListsFrom(current, lists[..|lists| - 1]);
      SetListFrom(SetLists(current, lists[..|lists| - 1]), lists[|lists| - 1]);
    }
  }

  lemma {:induction false} SetListFrom(current: seq<ListSchema>, ls: ListSchema)
    ensures forall x :: x in SetList(current, ls) ==> x in current || x == ls
  {
    if |current| > 0 && current[0].list != ls.list {
      SetListFrom(current[1..], ls);
    }
  }

  lemma {:induction false} CacheListsFrom(cached: map<string, ListSchema>, lists: seq<ListSchema>, k: string)
    requires k in CacheLists(cached, lists)
    ensures CacheLists(cached, lists)[k] in lists || (k in cached && CacheLists(cached, lists)[k] == cached[k])
  {
    if |lists| > 0 && lists[|lists| - 1].list != k {
      CacheListsFrom(cached, lists[..|lists| - 1], k);
    }
  }

  lemma {:induction false} PlanDefined(adapters: seq<ListAdapter>, cached: map<string, ListSchema>, lists: seq<ListSchema>, n: nat)
    requires n <= |lists|
    requires forall ls :: ls in lists ==> FindListAdapter(adapters, ls.list).Some?
    requires forall ls :: ls in lists ==> forall j :: 0 <= j < |ls.fields| ==> NullFree(Obj(ls.fields[j].options))
    requires forall k :: k in cached ==> forall j :: 0 <= j < |cached[k].fields| ==> NullFree(Obj(cached[k].fields[j].options))
    ensures PlanLists(adapters, cached, lists, n).failure.None?
  {
    if n > 0 {
      PlanDefined(adapters, cached, lists, n - 1);
      var ls := lists[n - 1];
      if ls.list in cached {
        DiffDefinedWithoutNull(cached[ls.list].fields, ls.fields);
      }
    }
  }

  lemma {:induction false} BuildSucceedsWithoutNull(adapters: seq<ListAdapter>, cacheName: string, history: History)
    requires FindListAdapter(adapters, cacheName).Some?
    requires ListsNullFree(CurrentLists(adapters))
    requires history.HistoryTable? && history.latest.Some? ==> ListsNullFree(history.latest.value)
    ensures BuildSpec(adapters, cacheName, BuilderState([], [], map[]), history).failure.None?
  {
    var current := SetLists([], CurrentLists(adapters));
    CurrentSchemaFromAdapters(adapters);
    var cached := LoadCached(adapters, cacheName, map[], history).value;
    LoadedCacheNullFree(adapters, cacheName, history);
    PlanDefined(adapters, cached, current, |current|);
    BuildSpecLoaded(adapters, cacheName, BuilderState([], [], map[]), history, cached);
  }

  lemma {:induction false} CurrentSchemaFromAdapters(adapters: seq<ListAdapter>)
    requires ListsNullFree(CurrentLists(adapters))
    ensures forall ls :: ls in SetLists([], CurrentLists(adapters)) ==>
      && FindListAdapter(adapters, ls.list).Some?
      && forall j :: 0 <= j < |ls.fields| ==> NullFree(Obj(ls.fields[j].options))
  {
    var built := CurrentLists(adapters);
    SetListsFrom([], built);
    forall ls | ls in SetLists([], built)
      ensures FindListAdapter(adapters, ls.list).Some?
      ensures forall j :: 0 <= j < |ls.fields| ==> NullFree(Obj(ls.fields[j].options))
    {
      var i :| 0 <= i < |built| && built[i] == ls;
      FindListAdapterFound(adapters, i);
    }
  }

  lemma {:induction false} LoadedCacheNullFree(adapters: seq<ListAdapter>, cacheName: string, history: History)
    requires FindListAdapter(adapters, cacheName).Some?
    requires history.HistoryTable? && history.latest.Some? ==> ListsNullFree(history.latest.value)
    ensures var cached := LoadCached(adapters, cacheName, map[], history).value;
      forall k :: k in cached ==> forall j :: 0 <= j < |cached[k].fields| ==> NullFree(Obj(cached[k].fields[j].options))
  {
    var cached := LoadCached(adapters, cacheName, map[], history).value;
    forall k | k in cached ensures forall j :: 0 <= j < |cached[k].fields| ==> NullFree(Obj(cached[k].fields[j].options)) {
      var lists := history.latest.value;
      CacheListsFrom(map[], lists, k);
      var i :| 0 <= i < |lists| && lists[i] == cached[k];
    }
  }
}
