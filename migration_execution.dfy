/** `MigrationExecution` of lib/migration_execution.js: it orders the
    migration records, turns each into schema statements on the database
    and finally stores the schema snapshot in the schema-history table.
    The database is abstract: the statements sent to it, in order, and the
    set of tables it holds (what `hasTable` answers). */
module MigrationExecution {
  import opened Wrappers
  import opened JsValues
  import opened Schema
  import opened MigrationSort
  import opened MigrationBuilder

  // ---------------------------------------------------------------------
  // The database

  /** One statement sent through knex. Column definitions are the calls made
      on the table builder inside the `createTable` or `alterTable` callback. */
  datatype SchemaOp =
    | DropTableIfExists(table: Value)
    | CreateTable(table: Value, columns: seq<Call>)
    | AlterTable(list: string, calls: seq<Call>)
    | InsertSnapshot(into: string, content: seq<ListSchema>)

  /** The statements sent so far and the tables the database holds. */
  datatype Db = Db(ops: seq<SchemaOp>, tables: set<Value>)

  /** The database after it runs one statement. */
  function Issue(db: Db, op: SchemaOp): (r: Db)
    ensures r.ops == db.ops + [op]
    ensures op.CreateTable? ==> r.tables == db.tables + {op.table}
    ensures op.DropTableIfExists? ==> r.tables == db.tables - {op.table}
    ensures op.AlterTable? || op.InsertSnapshot? ==> r.tables == db.tables
  {
    match op
    case CreateTable(t, _) => Db(db.ops + [op], db.tables + {t})
    case DropTableIfExists(t) => Db(db.ops + [op], db.tables - {t})
    case _ => Db(db.ops + [op], db.tables)
  }

  /** JavaScript truthiness. */
  predicate Truthy(v: Value) {
    match v
    case Undefined => false
    case Null => false
    case Bool(b) => b
    case Num(n) => n != 0
    case Str(s) => s != ""
    case Obj(_) => true
  }

  /** `migration.options.tableName || migration.name`. */
  function TableName(options: Entries, name: string): (r: Value)
    ensures Truthy(r)  || (r == Str(name) && name == "")
    ensures Truthy(Get(options, "tableName")) ==> r == Get(options, "tableName")
    ensures !Truthy(Get(options, "tableName")) ==> r == Str(name)
  {
    var t := Get(options, "tableName");
    if Truthy(t) then t else Str(name)
  }

  // ---------------------------------------------------------------------
  // Columns

  /** The calls `addToTableSchema` makes on a real table builder for one
      column call: the column method, then the calls chained on it. */
  function Block(c: ColumnCall): seq<Call> {
    [Call(c.methodName, c.args)] + c.chainables
  }

  const Alter := Call("alter", [])

  /** The column calls of a field adapter made on a real table builder. */
  function Plain(cs: seq<ColumnCall>): seq<Call> {
    if |cs| == 0 then [] else Plain(cs[..|cs| - 1]) + Block(cs[|cs| - 1])
  }

  /** The column calls recorded through the introspection proxy and replayed
      by `_updateField`: each column call with its chain, then `alter()`. */
  function Altered(cs: seq<ColumnCall>): seq<Call> {
    if |cs| == 0 then [] else Altered(cs[..|cs| - 1]) + Block(cs[|cs| - 1]) + [Alter]
  }

  /** `_listAdapterFieldAddToTableSchema`: the column calls of the adapter of
      `field` in list `list`; reading through a missing list or field
      adapter throws. */
  function FieldColumns(adapters: seq<ListAdapter>, list: string, field: Field): Result<seq<ColumnCall>, Error> {
    match FindListAdapter(adapters, list)
    case None => Err(MissingListAdapter(list))
    case Some(la) =>
      match FindPath(la.fieldAdapters, field.name)
      case None => Err(MissingFieldAdapter(list, field.name))
      case Some(fa) => Ok(fa.columnCalls)
  }

  /** The callback of `createTable` in `_createTable`: the columns of every
      field, in order; the first missing adapter throws. */
  function ColumnsOf(adapters: seq<ListAdapter>, list: string, fields: seq<Field>): Result<seq<Call>, Error> {
    if |fields| == 0 then Ok([])
    else
      match ColumnsOf(adapters, list, fields[..|fields| - 1])
      case Err(e) => Err(e)
      case Ok(cols) =>
        match FieldColumns(adapters, list, fields[|fields| - 1])
        case Err(e) => Err(e)
        case Ok(cs) => Ok(cols + Plain(cs))
  }

  /** `t.integer(c).unsigned(); t.index(c); t.foreign(c).references("id").inTable(ref)`. */
  function ForeignKey(column: string, refTable: string): seq<Call> {
    [Call("integer", [Str(column)]), Call("unsigned", []), Call("index", [Str(column)]),
     Call("foreign", [Str(column)]), Call("references", [Str("id")]), Call("inTable", [Str(refTable)])]
  }

  /** One side of a pivot table: as `ForeignKey`, without `unsigned()`. */
  function PivotColumn(column: string, refTable: string): seq<Call> {
    [Call("integer", [Str(column)]), Call("index", [Str(column)]),
     Call("foreign", [Str(column)]), Call("references", [Str("id")]), Call("inTable", [Str(refTable)])]
  }

  function PivotTable(table: string, leftTable: string, rightTable: string): SchemaOp {
    CreateTable(Str(table), PivotColumn(leftTable + "_left_id", leftTable) + PivotColumn(rightTable + "_right_id", rightTable))
  }

  // ---------------------------------------------------------------------
  // Associations

  /** An entry of `referencedAssociationsState`: `takenCare` and the
      `name` and `field` of its migration. */
  datatype RefEntry = RefEntry(takenCare: bool, name: string, fieldPath: string)

  type Refs = map<string, RefEntry>

  /** The key `${m.name}__${m.field}` of an association whose target is
      referenced; no key for any other record. */
  function RefKey(m: Migration): Option<string> {
    if m.AssociationMigration? && IsReferenced(m.target) then Some(m.name + "__" + m.fieldPath) else None
  }

  /** `_buildReferencedAssociationsState(migrations)`. */
  function ReferencedState(ms: seq<Migration>): Refs {
    if |ms| == 0 then map[]
    else
      var refs := ReferencedState(ms[..|ms| - 1]);
      var m := ms[|ms| - 1];
      match RefKey(m)
      case None => refs
      case Some(k) => refs[k := RefEntry(false, m.name, m.fieldPath)]
  }

  /** A standalone association (no `target.referenced`): a foreign key for
      N:1, a `_many` pivot table for N:N, nothing for 1:1 and 1:N. */
  function StandaloneStep(db: Db, name: string, card: Cardinality, fieldPath: string, target: Target): Db {
    match card
    case ManyToOne => Issue(db, AlterTable(name, ForeignKey(fieldPath, target.list)))
    case ManyToMany => Issue(db, PivotTable(name + "_" + fieldPath + "_many", name, target.list))
    case _ => db
  }

  /** The statement for a referenced association whose partner, `partner`,
      has not been taken care of. */
  function ReferencedStatement(name: string, card: Cardinality, fieldPath: string, target: Target, partner: RefEntry): SchemaOp {
    match card
    case OneToOne => AlterTable(name, ForeignKey(fieldPath, target.list))
    case ManyToOne => AlterTable(name, ForeignKey(fieldPath, target.list))
    case OneToMany => AlterTable(target.list, ForeignKey(partner.fieldPath, name))
    case ManyToMany =>
      CreateTable(Str(name + "_" + fieldPath + "_" + partner.name + "_" + partner.fieldPath),
        PivotColumn(name + "_left_id", name) + PivotColumn(partner.name + "_right_id", partner.name))
  }

  /** The database, the state of referenced associations and the exception,
      if any, after one step. */
  datatype StepResult = StepResult(db: Db, refs: Refs, failure: Option<Error>)

  /** `_createAssociation(migration, referencedAssociationsState)`. */
  function AssociationStep(db: Db, refs: Refs, name: string, card: Cardinality, fieldPath: string, target: Target): StepResult {
    if !IsReferenced(target) then StepResult(StandaloneStep(db, name, card, fieldPath, target), refs, None)
    else
      var partnerKey := target.list + "__" + target.referenced.value;
      var ownKey := name + "__" + fieldPath;
      if partnerKey !in refs then StepResult(db, refs, Some(MissingPartner(partnerKey)))
      else if refs[partnerKey].takenCare then StepResult(db, refs, None)
      else
        var db' := Issue(db, ReferencedStatement(name, card, fieldPath, target, refs[partnerKey]));
        if ownKey !in refs then StepResult(db', refs, Some(MissingOwnEntry(ownKey)))
        else StepResult(db', refs[ownKey := refs[ownKey].(takenCare := true)], None)
  }

  // ---------------------------------------------------------------------
  // Lists and fields

  /** `_createTable(migration)`: drops a table of the same name first, then
      creates it with the columns of its fields. */
  function CreateTableStep(adapters: seq<ListAdapter>, db: Db, name: string, options: Entries, fields: seq<Field>): (Db, Option<Error>) {
    var table := TableName(options, name);
    var db1 := if table in db.tables then Issue(db, DropTableIfExists(table)) else db;
    match ColumnsOf(adapters, name, fields)
    case Err(e) => (db1, Some(e))
    case Ok(cols) => (Issue(db1, CreateTable(table, cols)), None)
  }

  /** `_createField`, `_updateField`, `_renameField` and `_removeField`. */
  function FieldStep(adapters: seq<ListAdapter>, db: Db, op: Op, list: string, field: Field, before: Option<Field>): (Db, Option<Error>) {
    match op
    case Create =>
      (match FieldColumns(adapters, list, field)
       case Err(e) => (db, Some(e))
       case Ok(cs) => (Issue(db, AlterTable(list, Plain(cs))), None))
    case Update =>
      (match FieldColumns(adapters, list, field)
       case Err(e) => (db, Some(e))
       case Ok(cs) => (Issue(db, AlterTable(list, Altered(cs))), None))
    case Rename =>
      (match before
       case None => (db, Some(MissingBefore))
       case Some(b) => (Issue(db, AlterTable(list, [Call("renameColumn", [Str(b.name), Str(field.name)])])), None))
    case Remove => (Issue(db, AlterTable(list, [Call("dropColumn", [Str(field.name)])])), None)
  }

  /** One pass of the `apply` loop body: the one `_applyIf` whose object and
      op match the record runs; list records other than create and
      association records other than create match none. */
  function Step(adapters: seq<ListAdapter>, db: Db, refs: Refs, m: Migration): StepResult {
    match m
    case ListMigration(op, name, options, fields) =>
      if op == Create then
        var r := CreateTableStep(adapters, db, name, options, fields);
        StepResult(r.0, refs, r.1)
      else StepResult(db, refs, None)
    case FieldMigration(op, _, list, _, field, before) =>
      var r := FieldStep(adapters, db, op, list, field, before);
      StepResult(r.0, refs, r.1)
    case AssociationMigration(op, name, card, fieldPath, target) =>
      if op == Create then AssociationStep(db, refs, name, card, fieldPath, target)
      else StepResult(db, refs, None)
  }

  /** The first `n` records applied in order; the first exception stops the loop. */
  function Run(adapters: seq<ListAdapter>, db: Db, refs: Refs, ms: seq<Migration>, n: nat): StepResult
    requires n <= |ms|
  {
    if n == 0 then StepResult(db, refs, None)
    else
      var p := Run(adapters, db, refs, ms, n - 1);
      if p.failure.Some? then p else Step(adapters, p.db, p.refs, ms[n - 1])
  }

  /** The specification of `apply(migrations, schema)`. */
  function ApplySpec(adapters: seq<ListAdapter>, cacheName: string, db: Db, ms: seq<Migration>, schema: seq<ListSchema>): StepResult {
    var sorted := SortSpec(ms);
    var r := Run(adapters, db, ReferencedState(ms), sorted, |sorted|);
    if r.failure.Some? then r else r.(db := Issue(r.db, InsertSnapshot(cacheName, schema)))
  }

  // ---------------------------------------------------------------------
  // The executor object

  class Executor {
    const listAdapters: seq<ListAdapter>
    const cacheSchemaTableName: string
    var ops: seq<SchemaOp>
    var tables: set<Value>

    function State(): Db
      reads this
    {
      Db(ops, tables)
    }

    /** `new MigrationExecution(listAdapters, knex, options)`, on a database
        that holds `existing`. */
    constructor(listAdapters: seq<ListAdapter>, cacheSchemaTableName: string, existing: set<Value>)
      ensures this.listAdapters == listAdapters && this.cacheSchemaTableName == cacheSchemaTableName
      ensures State() == Db([], existing)
    {
      this.listAdapters := listAdapters;
      this.cacheSchemaTableName := cacheSchemaTableName;
      ops := [];
      tables := existing;
    }

    /** Sends one statement to the database. */
    method Execute(op: SchemaOp)
      modifies this
      ensures State() == Issue(old(State()), op)
    {
      ops := ops + [op];
      match op
      case CreateTable(t, _) => tables := tables + {t};
      case DropTableIfExists(t) => tables := tables - {t};
      case _ =>
    }

    /** `apply(migrations, schema)`. Like `Array.prototype.sort`, the caller's
        array is sorted in place. */
    method Apply(migrations: array<Migration>, schema: seq<ListSchema>) returns (failure: Option<Error>)
      modifies this, migrations
      ensures migrations[..] == SortSpec(old(migrations[..]))
      ensures var r := ApplySpec(listAdapters, cacheSchemaTableName, old(State()), old(migrations[..]), schema);
        State() == r.db && failure == r.failure
    {
      var refs := BuildReferencedAssociationsState(migrations[..]);
      SortMigrations(migrations);
      failure := ApplyAll(migrations, refs);
      if failure.None? {
        SaveFreshDatabaseSchema(schema);
      }
    }

    /** The `for ... of` loop of `apply` over the sorted records: one pass per
        record until the first exception. */
    method ApplyAll(migrations: array<Migration>, refs: Refs) returns (failure: Option<Error>)
      modifies this
      ensures var r := Run(listAdapters, old(State()), refs, migrations[..], migrations.Length);
        State() == r.db && failure == r.failure
    {
      ghost var ms := migrations[..];
      ghost var refs0 := refs;
      var state := refs;
      var i := 0;
      while i < migrations.Length
        invariant 0 <= i <= migrations.Length == |ms|
        invariant migrations[..] == ms
        invariant var p := Run(listAdapters, old(State()), refs0, ms, i);
          p.failure.None? && State() == p.db && state == p.refs
      {
        failure, state := ApplyMigration(migrations[i], state);
        if failure.Some? {
          RunFailureSticks(listAdapters, old(State()), refs0, ms, i + 1, |ms|);
          return;
        }
        i := i + 1;
      }
      return None;
    }

    /** `_buildReferencedAssociationsState(migrations)`. */
    method BuildReferencedAssociationsState(ms: seq<Migration>) returns (refs: Refs)
      ensures refs == ReferencedState(ms)
    {
      refs := map[];
      var i := 0;
      while i < |ms|
        invariant 0 <= i <= |ms|
        invariant refs == ReferencedState(ms[..i])
      {
        var m := ms[i];
        if m.AssociationMigration? && IsReferenced(m.target) {
          refs := refs[m.name + "__" + m.fieldPath := RefEntry(false, m.name, m.fieldPath)];
        }
        assert ms[..i + 1][..i] == ms[..i];
        i := i + 1;
      }
      assert ms[..i] == ms;
    }

    /** The six `_applyIf` calls of the `apply` loop for one record. */
    method ApplyMigration(m: Migration, refs: Refs) returns (failure: Option<Error>, refs': Refs)
      modifies this
      ensures var r := Step(listAdapters, old(State()), refs, m);
        State() == r.db && refs' == r.refs && failure == r.failure
    {
      failure, refs' := None, refs;
      if m.ListMigration? && m.op == Create {
        failure := CreateTableFor(m.name, m.options, m.fields);
      }
      if m.AssociationMigration? && m.op == Create {
        failure, refs' := CreateAssociation(m.name, m.cardinality, m.fieldPath, m.target, refs);
      }
      if m.FieldMigration? && m.op == Create {
        failure := CreateField(m.list, m.field);
      }
      if m.FieldMigration? && m.op == Update {
        failure := UpdateField(m.list, m.field);
      }
      if m.FieldMigration? && m.op == Rename {
        failure := RenameField(m.list, m.field, m.before);
      }
      if m.FieldMigration? && m.op == Remove {
        RemoveField(m.list, m.field);
      }
    }

    /** `_saveFreshDatabaseSchema(schema)`; the `createdAt` date is not modelled. */
    method SaveFreshDatabaseSchema(schema: seq<ListSchema>)
      modifies this
      ensures State() == Issue(old(State()), InsertSnapshot(cacheSchemaTableName, schema))
    {
      Execute(InsertSnapshot(cacheSchemaTableName, schema));
    }

    /** `_createTable(migration)`. */
    method CreateTableFor(name: string, options: Entries, fields: seq<Field>) returns (failure: Option<Error>)
      modifies this
      ensures var r := CreateTableStep(listAdapters, old(State()), name, options, fields);
        State() == r.0 && failure == r.1
    {
      var tableName := TableName(options, name);
      if tableName in tables {
        DropTable(options, name);
      }
      var columns := AddFieldsToTable(name, fields);
      if columns.Err? {
        return Some(columns.error);
      }
      Execute(CreateTable(tableName, columns.value));
      return None;
    }

    /** `_dropTable(migration)`. */
    method DropTable(options: Entries, name: string)
      modifies this
      ensures State() == Issue(old(State()), DropTableIfExists(TableName(options, name)))
    {
      Execute(DropTableIfExists(TableName(options, name)));
    }

    /** The `migration.fields.forEach` inside the `createTable` callback. */
    method AddFieldsToTable(list: string, fields: seq<Field>) returns (r: Result<seq<Call>, Error>)
      ensures r == ColumnsOf(listAdapters, list, fields)
    {
      var cols: seq<Call> := [];
      var i := 0;
      while i < |fields|
        invariant 0 <= i <= |fields|
        invariant ColumnsOf(listAdapters, list, fields[..i]) == Ok(cols)
      {
        assert fields[..i + 1][..i] == fields[..i];
        var cs := FieldColumns(listAdapters, list, fields[i]);
        if cs.Err? {
          ColumnsOfFailureSticks(listAdapters, list, fields, i + 1, |fields|);
          assert fields[..|fields|] == fields;
          return Err(cs.error);
        }
        cols := cols + Plain(cs.value);
        i := i + 1;
      }
      assert fields[..i] == fields;
      return Ok(cols);
    }

    /** `_createField(migration)`. */
    method CreateField(list: string, field: Field) returns (failure: Option<Error>)
      modifies this
      ensures var r := FieldStep(listAdapters, old(State()), Create, list, field, None);
        State() == r.0 && failure == r.1
    {
      var cs := FieldColumns(listAdapters, list, field);
      if cs.Err? {
        return Some(cs.error);
      }
      Execute(AlterTable(list, Plain(cs.value)));
      return None;
    }

    /** `_updateField(migration)`: records the adapter's column calls through
        the introspection proxy, then replays them on `alterTable`. */
    method UpdateField(list: string, field: Field) returns (failure: Option<Error>)
      modifies this
      ensures var r := FieldStep(listAdapters, old(State()), Update, list, field, None);
        State() == r.0 && failure == r.1
    {
      var callStack := FieldColumns(listAdapters, list, field);
      if callStack.Err? {
        return Some(callStack.error);
      }
      var calls := ReplayWithAlter(callStack.value);
      Execute(AlterTable(list, calls));
      return None;
    }

    /** The `callStack.forEach` inside the `alterTable` callback of `_updateField`. */
    method ReplayWithAlter(callStack: seq<ColumnCall>) returns (calls: seq<Call>)
      ensures calls == Altered(callStack)
    {
      calls := [];
      var i := 0;
      while i < |callStack|
        invariant 0 <= i <= |callStack|
        invariant calls == Altered(callStack[..i])
      {
        var alterFieldCall := callStack[i];
        calls := calls + [Call(alterFieldCall.methodName, alterFieldCall.args)];
        var j := 0;
        while j < |alterFieldCall.chainables|
          invariant 0 <= j <= |alterFieldCall.chainables|
          invariant calls == Altered(callStack[..i]) + [Call(alterFieldCall.methodName, alterFieldCall.args)] + alterFieldCall.chainables[..j]
        {
          calls := calls + [alterFieldCall.chainables[j]];
          j := j + 1;
        }
        assert alterFieldCall.chainables[..j] == alterFieldCall.chainables;
        calls := calls + [Alter];
        assert callStack[..i + 1][..i] == callStack[..i];
        i := i + 1;
      }
      assert callStack[..i] == callStack;
    }

    /** `_renameField(migration)`. */
    method RenameField(list: string, field: Field, before: Option<Field>) returns (failure: Option<Error>)
      modifies this
      ensures var r := FieldStep(listAdapters, old(State()), Rename, list, field, before);
        State() == r.0 && failure == r.1
    {
      if before.None? {
        return Some(MissingBefore);
      }
      Execute(AlterTable(list, [Call("renameColumn", [Str(before.value.name), Str(field.name)])]));
      return None;
    }

    /** `_removeField(migration)`. */
    method RemoveField(list: string, field: Field)
      modifies this
      ensures State() == FieldStep(listAdapters, old(State()), Remove, list, field, None).0
    {
      Execute(AlterTable(list, [Call("dropColumn", [Str(field.name)])]));
    }

    /** `_createAssociation(migration, referencedAssociationsState)`. */
    method CreateAssociation(name: string, card: Cardinality, fieldPath: string, target: Target, refs: Refs)
      returns (failure: Option<Error>, refs': Refs)
      modifies this
      ensures var r := AssociationStep(old(State()), refs, name, card, fieldPath, target);
        State() == r.db && refs' == r.refs && failure == r.failure
    {
      refs' := refs;
      if !IsReferenced(target) {
        if card == ManyToOne {
          Execute(AlterTable(name, ForeignKey(fieldPath, target.list)));
        }
        if card == ManyToMany {
          Execute(PivotTable(name + "_" + fieldPath + "_many", name, target.list));
        }
        return None, refs';
      }
      var partnerKey := target.list + "__" + target.referenced.value;
      var ownKey := name + "__" + fieldPath;
      if partnerKey !in refs {
        return Some(MissingPartner(partnerKey)), refs';
      }
      var referencedMigration := refs[partnerKey];
      if referencedMigration.takenCare {
        return None, refs';
      }
      Execute(ReferencedStatement(name, card, fieldPath, target, referencedMigration));
      if ownKey !in refs {
        return Some(MissingOwnEntry(ownKey)), refs';
      }
      refs' := refs[ownKey := refs[ownKey].(takenCare := true)];
      return None, refs';
    }
  }

  lemma {:induction false} RunFailureSticks(adapters: seq<ListAdapter>, db: Db, refs: Refs, ms: seq<Migration>, n: nat, m: nat)
    requires n <= m <= |ms|
    requires Run(adapters, db, refs, ms, n).failure.Some?
    ensures Run(adapters, db, refs, ms, m) == Run(adapters, db, refs, ms, n)
    decreases m
  {
    if m > n {
      RunFailureSticks(adapters, db, refs, ms, n, m - 1);
    }
  }

  lemma {:induction false} ColumnsOfFailureSticks(adapters: seq<ListAdapter>, list: string, fields: seq<Field>, n: nat, m: nat)
    requires n <= m <= |fields|
    requires ColumnsOf(adapters, list, fields[..n]).Err?
    ensures ColumnsOf(adapters, list, fields[..m]) == ColumnsOf(adapters, list, fields[..n])
    decreases m
  {
    if m > n {
      ColumnsOfFailureSticks(adapters, list, fields, n, m - 1);
      assert fields[..m][..m - 1] == fields[..m - 1];
    }
  }

  // ---------------------------------------------------------------------
  // Properties of the state of referenced associations

  /** The state holds one entry per key of a referenced association record,
      none of them taken care of. */
  lemma {:induction false} ReferencedStateKeys(ms: seq<Migration>, k: string)
    ensures k in ReferencedState(ms) <==> exists i :: 0 <= i < |ms| && RefKey(ms[i]) == Some(k)
    ensures k in ReferencedState(ms) ==> !ReferencedState(ms)[k].takenCare
  {
    if |ms| > 0 {
      var init := ms[..|ms| - 1];
      ReferencedStateKeys(init, k);
      if exists i :: 0 <= i < |init| && RefKey(init[i]) == Some(k) {
        var i :| 0 <= i < |init| && RefKey(init[i]) == Some(k);
        assert ms[i] == init[i];
      }
      if exists i :: 0 <= i < |ms| && RefKey(ms[i]) == Some(k) {
        var i :| 0 <= i < |ms| && RefKey(ms[i]) == Some(k);
        if i < |init| {
          assert init[i] == ms[i];
        }
      }
    }
  }

  /** Two records with the same key: the later one's entry is kept. */
  lemma {:induction false} ReferencedStateLastWins(ms: seq<Migration>, i: nat)
    requires i < |ms| && RefKey(ms[i]).Some?
    requires forall j :: i < j < |ms| ==> RefKey(ms[j]) != RefKey(ms[i])
    ensures RefKey(ms[i]).value in ReferencedState(ms)
    ensures ReferencedState(ms)[RefKey(ms[i]).value] == RefEntry(false, ms[i].name, ms[i].fieldPath)
  {
    var init := ms[..|ms| - 1];
    if i < |ms| - 1 {
      assert init[i] == ms[i];
      forall j | i < j < |init| ensures RefKey(init[j]) != RefKey(init[i]) {
        assert init[j] == ms[j];
      }
      ReferencedStateLastWins(init, i);
    }
  }

  /** `after` has the keys of `before`, with the same records, and only
      ever sets `takenCare`. */
  predicate RefsGrow(before: Refs, after: Refs) {
    && after.Keys == before.Keys
    && forall k :: k in before ==>
      && after[k].name == before[k].name && after[k].fieldPath == before[k].fieldPath
      && (before[k].takenCare ==> after[k].takenCare)
  }

  /** `after` is `before` with more statements, none of them a snapshot. */
  predicate Extends(before: Db, after: Db) {
    && |before.ops| <= |after.ops|
    && after.ops[..|before.ops|] == before.ops
    && forall i :: |before.ops| <= i < |after.ops| ==> !after.ops[i].InsertSnapshot?
  }

  /** A record only sends statements and sets `takenCare`: no statement is
      undone, no entry is added or dropped and none is reset. */
  lemma {:induction false} StepGrows(adapters: seq<ListAdapter>, db: Db, refs: Refs, m: Migration)
    ensures var r := Step(adapters, db, refs, m);
      RefsGrow(refs, r.refs) && Extends(db, r.db)
  {
    ExtendsItself(db);
    match m
    case ListMigration(op, name, options, fields) =>
      if op == Create {
        CreateTableStepExtends(adapters, db, name, options, fields);
      }
    case FieldMigration(op, _, list, _, field, before) =>
      FieldStepExtends(adapters, db, op, list, field, before);
    case AssociationMigration(op, name, card, fieldPath, target) =>
      if op == Create {
        AssociationStepGrows(db, refs, name, card, fieldPath, target);
      }
  }

  lemma {:induction false} ExtendsItself(db: Db)
    ensures Extends(db, db)
  {
    assert db.ops[..|db.ops|] == db.ops;
  }

  lemma {:induction false} IssueExtends(db: Db, d: Db, op: SchemaOp)
    requires !op.InsertSnapshot? && Extends(db, d)
    ensures Extends(db, Issue(d, op))
  {
    assert Issue(d, op).ops[..|d.ops|] == d.ops;
    assert Issue(d, op).ops[..|db.ops|] == Issue(d, op).ops[..|d.ops|][..|db.ops|];
  }

  lemma {:induction false} CreateTableStepExtends(adapters: seq<ListAdapter>, db: Db, name: string, options: Entries, fields: seq<Field>)
    ensures Extends(db, CreateTableStep(adapters, db, name, options, fields).0)
  {
    var table := TableName(options, name);
    ExtendsItself(db);
    var db1 := if table in db.tables then Issue(db, DropTableIfExists(table)) else db;
    if table in db.tables {
      IssueExtends(db, db, DropTableIfExists(table));
    }
    match ColumnsOf(adapters, name, fields)
    case Err(_) =>
    case Ok(cols) => IssueExtends(db, db1, CreateTable(table, cols));
  }

  lemma {:induction false} FieldStepExtends(adapters: seq<ListAdapter>, db: Db, op: Op, list: string, field: Field, before: Option<Field>)
    ensures Extends(db, FieldStep(adapters, db, op, list, field, before).0)
  {
    ExtendsItself(db);
    match op {
      case Create =>
        match FieldColumns(adapters, list, field) {
          case Err(_) =>
          case Ok(cs) => IssueExtends(db, db, AlterTable(list, Plain(cs)));
        }
      case Update =>
        match FieldColumns(adapters, list, field) {
          case Err(_) =>
          case Ok(cs) => IssueExtends(db, db, AlterTable(list, Altered(cs)));
        }
      case Rename =>
        match before {
          case None =>
          case Some(b) => IssueExtends(db, db, AlterTable(list, [Call("renameColumn", [Str(b.name), Str(field.name)])]));
        }
      case Remove => IssueExtends(db, db, AlterTable(list, [Call("dropColumn", [Str(field.name)])]));
    }
  }

  lemma {:induction false} AssociationStepGrows(db: Db, refs: Refs, name: string, card: Cardinality, fieldPath: string, target: Target)
    ensures var r := AssociationStep(db, refs, name, card, fieldPath, target);
      RefsGrow(refs, r.refs) && Extends(db, r.db)
  {
    ExtendsItself(db);
    if !IsReferenced(target) {
      match card
      case ManyToOne => IssueExtends(db, db, AlterTable(name, ForeignKey(fieldPath, target.list)));
      case ManyToMany => IssueExtends(db, db, PivotTable(name + "_" + fieldPath + "_many", name, target.list));
      case _ =>
    } else {
      var partnerKey := target.list + "__" + target.referenced.value;
      if partnerKey in refs && !refs[partnerKey].takenCare {
        IssueExtends(db, db, ReferencedStatement(name, card, fieldPath, target, refs[partnerKey]));
      }
    }
  }

  lemma {:induction false} RunGrows(adapters: seq<ListAdapter>, db: Db, refs: Refs, ms: seq<Migration>, n: nat)
    requires n <= |ms|
    ensures var r := Run(adapters, db, refs, ms, n);
      RefsGrow(refs, r.refs) && Extends(db, r.db)
  {
    if n == 0 {
      assert db.ops[..|db.ops|] == db.ops;
    } else {
      RunGrows(adapters, db, refs, ms, n - 1);
      var p := Run(adapters, db, refs, ms, n - 1);
      if p.failure.None? {
        StepGrows(adapters, p.db, p.refs, ms[n - 1]);
        var r := Step(adapters, p.db, p.refs, ms[n - 1]);
        ExtendsTransitive(db, p.db, r.db);
        RefsGrowTransitive(refs, p.refs, r.refs);
      }
    }
  }

  lemma {:induction false} ExtendsTransitive(a: Db, b: Db, c: Db)
    requires Extends(a, b) && Extends(b, c)
    ensures Extends(a, c)
  {
    assert c.ops[..|a.ops|] == c.ops[..|b.ops|][..|a.ops|];
  }

  lemma {:induction false} RefsGrowTransitive(a: Refs, b: Refs, c: Refs)
    requires RefsGrow(a, b) && RefsGrow(b, c)
    ensures RefsGrow(a, c)
  {
  }

  /** A record whose own entry is present never fails to set it. */
  lemma {:induction false} StepFindsOwnEntry(adapters: seq<ListAdapter>, db: Db, refs: Refs, m: Migration)
    requires RefKey(m).Some? ==> RefKey(m).value in refs
    ensures var r := Step(adapters, db, refs, m);
      r.failure.Some? ==> !r.failure.value.MissingOwnEntry?
  {
    if m.ListMigration? {
      ColumnsOfSucceeds(adapters, m.name, m.fields);
    }
  }

  lemma {:induction false} RunFindsOwnEntry(adapters: seq<ListAdapter>, db: Db, refs: Refs, ms: seq<Migration>, n: nat)
    requires n <= |ms|
    requires forall i :: 0 <= i < |ms| && RefKey(ms[i]).Some? ==> RefKey(ms[i]).value in refs
    ensures var r := Run(adapters, db, refs, ms, n);
      r.failure.Some? ==> !r.failure.value.MissingOwnEntry?
  {
    if n > 0 {
      RunFindsOwnEntry(adapters, db, refs, ms, n - 1);
      var p := Run(adapters, db, refs, ms, n - 1);
      if p.failure.None? {
        RunGrows(adapters, db, refs, ms, n - 1);
        StepFindsOwnEntry(adapters, p.db, p.refs, ms[n - 1]);
      }
    }
  }

  /** `apply` builds the state from the records it runs, so writing a
      record's own `takenCare` never throws. */
  lemma {:induction false} ApplyFindsOwnEntry(adapters: seq<ListAdapter>, cacheName: string, db: Db, ms: seq<Migration>, schema: seq<ListSchema>)
    ensures var r := ApplySpec(adapters, cacheName, db, ms, schema);
      r.failure.Some? ==> !r.failure.value.MissingOwnEntry?
  {
    var sorted := SortSpec(ms);
    var refs := ReferencedState(ms);
    SortSpecIsPermutation(ms);
    forall i | 0 <= i < |sorted| && RefKey(sorted[i]).Some? ensures RefKey(sorted[i]).value in refs {
      assert sorted[i] in multiset(ms);
      var j :| 0 <= j < |ms| && ms[j] == sorted[i];
      ReferencedStateKeys(ms, RefKey(sorted[i]).value);
    }
    RunFindsOwnEntry(adapters, db, refs, sorted, |sorted|);
  }

  /** `apply` only adds statements, and the snapshot is stored exactly when
      every record was applied, as the last statement and the only new one
      of its kind. */
  lemma {:induction false} ApplySavesSnapshotOnSuccess(adapters: seq<ListAdapter>, cacheName: string, db: Db, ms: seq<Migration>, schema: seq<ListSchema>)
    ensures var r := ApplySpec(adapters, cacheName, db, ms, schema);
      && |db.ops| <= |r.db.ops| && r.db.ops[..|db.ops|] == db.ops
      && (r.failure.None? <==> |db.ops| < |r.db.ops| && r.db.ops[|r.db.ops| - 1] == InsertSnapshot(cacheName, schema))
      && forall i :: |db.ops| <= i < |r.db.ops| - 1 ==> !r.db.ops[i].InsertSnapshot?
  {
    var sorted := SortSpec(ms);
    RunGrows(adapters, db, ReferencedState(ms), sorted, |sorted|);
    var p := Run(adapters, db, ReferencedState(ms), sorted, |sorted|);
    if p.failure.None? {
      var ops := Issue(p.db, InsertSnapshot(cacheName, schema)).ops;
      assert ops[..|db.ops|] == p.db.ops[..|db.ops|];
      forall i | |db.ops| <= i < |ops| - 1 ensures !ops[i].InsertSnapshot? {
        assert ops[i] == p.db.ops[i];
      }
    }
  }

  // ---------------------------------------------------------------------
  // Properties of associations

  /** Two association records that name each other: each one's target is
      the other's list, referenced through the other's field. */
  predicate Partners(a: Migration, b: Migration) {
    && a.AssociationMigration? && b.AssociationMigration?
    && a.op == Create && b.op == Create
    && a.target == Target(b.name, Some(b.fieldPath)) && b.target == Target(a.name, Some(a.fieldPath))
    && a.fieldPath != "" && b.fieldPath != ""
    && a.name + "__" + a.fieldPath != b.name + "__" + b.fieldPath
  }

  lemma {:induction false} SortSameKey(a: Migration, b: Migration)
    requires Key(a) == Key(b)
    ensures SortSpec([a, b]) == [a, b]
  {
    assert [a, b][..1] == [a];
    assert [a][..0] == [];
    assert SortSpec([a]) == [a];
  }

  /** A record changes only its own entry of the state. */
  lemma {:induction false} StepKeepsOtherEntries(adapters: seq<ListAdapter>, db: Db, refs: Refs, m: Migration, k: string)
    requires k in refs && RefKey(m) != Some(k)
    ensures var r := Step(adapters, db, refs, m);
      k in r.refs && r.refs[k] == refs[k]
  {
    StepGrows(adapters, db, refs, m);
  }

  /** Records without key `k` leave the entry of `k` as it was. */
  lemma {:induction false} RunKeepsOtherEntries(adapters: seq<ListAdapter>, db: Db, refs: Refs, ms: seq<Migration>, lo: nat, n: nat, k: string)
    requires lo <= n <= |ms|
    requires k in Run(adapters, db, refs, ms, lo).refs
    requires forall t :: lo <= t < n ==> RefKey(ms[t]) != Some(k)
    ensures k in Run(adapters, db, refs, ms, n).refs
    ensures Run(adapters, db, refs, ms, n).refs[k] == Run(adapters, db, refs, ms, lo).refs[k]
    decreases n
  {
    if n > lo {
      RunKeepsOtherEntries(adapters, db, refs, ms, lo, n - 1, k);
      var p := Run(adapters, db, refs, ms, n - 1);
      if p.failure.None? {
        StepKeepsOtherEntries(adapters, p.db, p.refs, ms[n - 1], k);
      }
    }
  }

  /** Once an entry is taken care of it stays so. */
  lemma {:induction false} RunKeepsTakenCare(adapters: seq<ListAdapter>, db: Db, refs: Refs, ms: seq<Migration>, lo: nat, n: nat, k: string)
    requires lo <= n <= |ms|
    requires k in Run(adapters, db, refs, ms, lo).refs && Run(adapters, db, refs, ms, lo).refs[k].takenCare
    ensures k in Run(adapters, db, refs, ms, n).refs && Run(adapters, db, refs, ms, n).refs[k].takenCare
    decreases n
  {
    if n > lo {
      RunKeepsTakenCare(adapters, db, refs, ms, lo, n - 1, k);
      var p := Run(adapters, db, refs, ms, n - 1);
      if p.failure.None? {
        StepGrows(adapters, p.db, p.refs, ms[n - 1]);
      }
    }
  }

  /** In any run, of two partner records the earlier one, `ms[i]`, sends
      the statement of the relationship built from its partner's entry and
      marks its own entry; the later one, `ms[j]`, then finds that entry
      taken care of and sends nothing. It is enough that no record before
      `ms[i]` has the later one's key and that nothing throws before `ms[j]`. */
  lemma {:induction false} RunSendsPartnersOnce(adapters: seq<ListAdapter>, db: Db, refs: Refs, ms: seq<Migration>, i: nat, j: nat)
    requires i < j < |ms| && Partners(ms[i], ms[j])
    requires ms[i].name + "__" + ms[i].fieldPath in refs
    requires ms[j].name + "__" + ms[j].fieldPath in refs && !refs[ms[j].name + "__" + ms[j].fieldPath].takenCare
    requires forall t :: 0 <= t < i ==> RefKey(ms[t]) != Some(ms[j].name + "__" + ms[j].fieldPath)
    requires Run(adapters, db, refs, ms, j).failure.None?
    ensures var a, ka, kb := ms[i], ms[i].name + "__" + ms[i].fieldPath, ms[j].name + "__" + ms[j].fieldPath;
      var p := Run(adapters, db, refs, ms, i);
      && ka in p.refs
      && Run(adapters, db, refs, ms, i + 1)
         == StepResult(Issue(p.db, ReferencedStatement(a.name, a.cardinality, a.fieldPath, a.target, refs[kb])),
                       p.refs[ka := p.refs[ka].(takenCare := true)], None)
    ensures Run(adapters, db, refs, ms, j + 1) == Run(adapters, db, refs, ms, j)
  {
    var a, b := ms[i], ms[j];
    var ka, kb := a.name + "__" + a.fieldPath, b.name + "__" + b.fieldPath;
    var p := Run(adapters, db, refs, ms, i);
    if p.failure.Some? {
      RunFailureSticks(adapters, db, refs, ms, i, j);
    }
    RunGrows(adapters, db, refs, ms, i);
    assert Run(adapters, db, refs, ms, 0).refs == refs;
    RunKeepsOtherEntries(adapters, db, refs, ms, 0, i, kb);
    assert a.target.list + "__" + a.target.referenced.value == kb;
    assert Run(adapters, db, refs, ms, i + 1) == Step(adapters, p.db, p.refs, a);
    RunKeepsTakenCare(adapters, db, refs, ms, i + 1, j, ka);
    assert b.target.list + "__" + b.target.referenced.value == ka;
  }

  lemma {:induction false} TwiceCounted(s: seq<Migration>, k: nat, l: nat)
    requires k < l < |s| && s[k] == s[l]
    ensures multiset(s)[s[k]] >= 2
  {
    assert s == s[..k] + [s[k]] + s[k + 1..l] + [s[l]] + s[l + 1..];
  }

  /** `apply` on any batch: of two partner records, the one sorted first
      sends the one statement of the relationship and the other sends
      nothing, provided the later one is the batch's only record with its
      key and nothing throws before it. */
  lemma {:induction false} PartnersIssueOneStatement(adapters: seq<ListAdapter>, db: Db, ms: seq<Migration>, i: nat, j: nat)
    requires i < j < |SortSpec(ms)| && Partners(SortSpec(ms)[i], SortSpec(ms)[j])
    requires multiset(ms)[SortSpec(ms)[j]] == 1
    requires forall m :: m in ms && RefKey(m) == RefKey(SortSpec(ms)[j]) ==> m == SortSpec(ms)[j]
    requires Run(adapters, db, ReferencedState(ms), SortSpec(ms), j).failure.None?
    ensures var sorted, refs := SortSpec(ms), ReferencedState(ms);
      var a, b := sorted[i], sorted[j];
      var p := Run(adapters, db, refs, sorted, i);
      && Run(adapters, db, refs, sorted, i + 1).failure.None?
      && Run(adapters, db, refs, sorted, i + 1).db
         == Issue(p.db, ReferencedStatement(a.name, a.cardinality, a.fieldPath, a.target, RefEntry(false, b.name, b.fieldPath)))
      && Run(adapters, db, refs, sorted, j + 1) == Run(adapters, db, refs, sorted, j)
  {
    var sorted, refs := SortSpec(ms), ReferencedState(ms);
    var a, b := sorted[i], sorted[j];
    var ka, kb := a.name + "__" + a.fieldPath, b.name + "__" + b.fieldPath;
    SortSpecIsPermutation(ms);
    assert RefKey(a) == Some(ka) && RefKey(b) == Some(kb);
    assert a in multiset(ms) && b in multiset(ms);
    var ia :| 0 <= ia < |ms| && ms[ia] == a;
    var ib :| 0 <= ib < |ms| && ms[ib] == b;
    ReferencedStateKeys(ms, ka);
    forall u | ib < u < |ms| ensures RefKey(ms[u]) != RefKey(ms[ib]) {
      if RefKey(ms[u]) == RefKey(ms[ib]) {
        assert ms[u] in ms;
        TwiceCounted(ms, ib, u);
      }
    }
    ReferencedStateLastWins(ms, ib);
    forall t | 0 <= t < i ensures RefKey(sorted[t]) != Some(kb) {
      if RefKey(sorted[t]) == Some(kb) {
        assert sorted[t] in multiset(ms);
        TwiceCounted(sorted, t, j);
      }
    }
    RunSendsPartnersOnce(adapters, db, refs, sorted, i, j);
  }

  /** For a many-to-one record and its one-to-many partner the statement is
      the same whichever is applied first: a foreign key on the many side,
      referencing the one side. */
  lemma {:induction false} ManyToOneOrderIrrelevant(a: Migration, b: Migration)
    requires Partners(a, b) && a.cardinality == ManyToOne && b.cardinality == OneToMany
    ensures ReferencedStatement(a.name, a.cardinality, a.fieldPath, a.target, RefEntry(false, b.name, b.fieldPath))
      == ReferencedStatement(b.name, b.cardinality, b.fieldPath, b.target, RefEntry(false, a.name, a.fieldPath))
      == AlterTable(a.name, ForeignKey(a.fieldPath, b.name))
  {
  }

  // ---------------------------------------------------------------------
  // Properties of columns

  /** The columns of a table are found exactly when every field has an
      adapter; otherwise the exception is the first field's that has none. */
  lemma {:induction false} ColumnsOfSucceeds(adapters: seq<ListAdapter>, list: string, fields: seq<Field>)
    ensures ColumnsOf(adapters, list, fields).Ok? <==> forall i :: 0 <= i < |fields| ==> FieldColumns(adapters, list, fields[i]).Ok?
    ensures ColumnsOf(adapters, list, fields).Err? ==>
      exists i :: (0 <= i < |fields|
        && Err(ColumnsOf(adapters, list, fields).error) == FieldColumns(adapters, list, fields[i])
        && forall j :: 0 <= j < i ==> FieldColumns(adapters, list, fields[j]).Ok?)
  {
    if |fields| > 0 {
      var init := fields[..|fields| - 1];
      ColumnsOfSucceeds(adapters, list, init);
      if ColumnsOf(adapters, list, init).Err? {
        var i :| 0 <= i < |init| && Err(ColumnsOf(adapters, list, init).error) == FieldColumns(adapters, list, init[i])
          && forall j :: 0 <= j < i ==> FieldColumns(adapters, list, init[j]).Ok?;
        assert fields[i] == init[i];
        forall j | 0 <= j < i ensures FieldColumns(adapters, list, fields[j]).Ok? {
          assert fields[j] == init[j];
        }
      } else {
        forall j | 0 <= j < |init| ensures FieldColumns(adapters, list, fields[j]).Ok? {
          assert fields[j] == init[j];
        }
      }
    }
  }

  /** The replayed calls are the plain calls with one `alter()` added per
      column call: every other call occurs as often as in a plain add. */
  lemma {:induction false} AlteredAddsOneCallPerColumn(cs: seq<ColumnCall>)
    ensures |Altered(cs)| == |Plain(cs)| + |cs|
    ensures multiset(Altered(cs))[Alter] == multiset(Plain(cs))[Alter] + |cs|
    ensures forall c :: c != Alter ==> multiset(Altered(cs))[c] == multiset(Plain(cs))[c]
  {
    if |cs| > 0 {
      var init, last := cs[..|cs| - 1], cs[|cs| - 1];
      AlteredAddsOneCallPerColumn(init);
      assert Altered(cs) == Altered(init) + Block(last) + [Alter];
      assert Plain(cs) == Plain(init) + Block(last);
    }
  }

  lemma {:induction false} FindPathFound(fas: seq<FieldAdapter>, fa: FieldAdapter)
    requires fa in fas
    ensures FindPath(fas, fa.path).Some?
  {
    if fas[0] != fa {
      FindPathFound(fas[1..], fa);
    }
  }

  /** The table of a list the builder built from its adapter is created:
      every field of the list has its adapter. */
  lemma {:induction false} BuiltListCreatesItsTable(adapters: seq<ListAdapter>, db: Db, refs: Refs, la: ListAdapter)
    requires FindListAdapter(adapters, la.key) == Some(la)
    ensures var ls := BuildList(la);
      var r := Step(adapters, db, refs, ListMigration(Create, ls.list, ls.options, ls.fields));
      && r.failure.None?
      && TableName(ls.options, ls.list) in r.db.tables
      && r.db.ops[|r.db.ops| - 1].CreateTable?
  {
    var fields := BuildFields(la.fieldAdapters);
    BuildFieldsShape(la.fieldAdapters);
    forall i | 0 <= i < |fields| ensures FieldColumns(adapters, la.key, fields[i]).Ok? {
      assert fields[i] in fields;
      var fa :| fa in la.fieldAdapters && fa.fieldName != RelationshipType && fields[i] == BuildField(fa);
      FindPathFound(la.fieldAdapters, fa);
    }
    ColumnsOfSucceeds(adapters, la.key, fields);
  }

  /** The table of a built list: the `tableName` of its `config` when the
      config has one (falling back to the key when that is falsy), else the
      adapter's `tableName` when truthy, else the list key. */
  lemma {:induction false} BuiltListTableName(la: ListAdapter)
    requires UniqueKeys(la.config)
    ensures TableName(ListOptions(la), la.key) ==
      if HasKey(la.config, "tableName") then
        (if Truthy(Get(la.config, "tableName")) then Get(la.config, "tableName") else Str(la.key))
      else if Truthy(la.tableName) then la.tableName
      else Str(la.key)
  {
    ListOptionsReads(la, "tableName");
  }
}
