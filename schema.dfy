/** The records the migration engine works on: the host framework's list and
    field adapters (as far as the engine reads them), the schema snapshot
    built from them, and the migration records passed from the builder to
    the executor. */
module Schema {
  import opened Wrappers
  import opened JsValues

  /** The `fieldName` of a relationship field adapter. */
  const RelationshipType := "Relationship"

  /** One field of a schema snapshot: `{type, name, options}`. */
  datatype Field = Field(fieldType: string, name: string, options: Entries)

  /** One list of a schema snapshot: `{list, options, fields}`. */
  datatype ListSchema = ListSchema(list: string, options: Entries, fields: seq<Field>)

  /** `rel.cardinality` of a relationship: "1:1", "1:N", "N:1" or "N:N". */
  datatype Cardinality = OneToOne | OneToMany | ManyToOne | ManyToMany

  /** What a relationship adapter says about its relationship:
      `rel.cardinality`, `field.refListKey` and `field.refFieldPath`. */
  datatype Relation = Relation(cardinality: Cardinality, refListKey: string, refFieldPath: Option<string>)

  /** One call on a knex builder: a method name and its arguments. */
  datatype Call = Call(name: string, args: seq<Value>)

  /** One column-builder call a field adapter makes on the table builder,
      with the calls chained on the column builder it returns. */
  datatype ColumnCall = ColumnCall(methodName: string, args: seq<Value>, chainables: seq<Call>)

  /** A field adapter: `fieldName` (the field's type), `path` (its name), the
      properties of its `field`, its own `knexOptions`, its relationship
      (read only for relationship adapters) and the column-builder calls its
      `addToTableSchema` makes, an opaque log from the host framework. */
  datatype FieldAdapter = FieldAdapter(
    fieldName: string,
    path: string,
    field: Entries,
    knexOptions: Value,
    rel: Relation,
    columnCalls: seq<ColumnCall>)

  /** A list adapter, registered under its `key`. */
  datatype ListAdapter = ListAdapter(key: string, tableName: Value, config: Entries, fieldAdapters: seq<FieldAdapter>)

  /** `target` of an association migration: `{list, referenced}`. */
  datatype Target = Target(list: string, referenced: Option<string>)

  datatype Op = Create | Update | Rename | Remove

  /** A migration record `{object, op, name, ...}`. The association field
      path is serialized as `field`; `fieldName` of a field migration is its
      `name`, absent (`undefined`) unless the builder supplied one. */
  datatype Migration =
    | ListMigration(op: Op, name: string, options: Entries, fields: seq<Field>)
    | FieldMigration(op: Op, fieldName: Option<string>, list: string, options: Entries, field: Field, before: Option<Field>)
    | AssociationMigration(op: Op, name: string, cardinality: Cardinality, fieldPath: string, target: Target)

  /** The exceptions the engine can raise. */
  datatype Error =
    | NullHasNoKeys                              // Object.keys(null): TypeError
    | CacheListNotRegistered                     // the schema-history list is not configured
    | MissingListAdapter(key: string)            // reading a property of an undefined list adapter
    | MissingFieldAdapter(list: string, path: string)
    | MissingPartner(key: string)                // reading takenCare of an undefined state entry
    | MissingOwnEntry(key: string)               // writing takenCare of an undefined state entry
    | MissingBefore                              // reading before.name of a record without before

  /** `target.referenced` is truthy: a path that is present and not empty. */
  predicate IsReferenced(t: Target) {
    t.referenced.Some? && t.referenced.value != ""
  }

  function Names(fs: seq<Field>): (r: seq<string>)
    ensures |r| == |fs|
    ensures forall i :: 0 <= i < |fs| ==> r[i] == fs[i].name
  {
    if |fs| == 0 then [] else Names(fs[..|fs| - 1]) + [fs[|fs| - 1].name]
  }

  predicate HasName(fs: seq<Field>, name: string) {
    exists i :: 0 <= i < |fs| && fs[i].name == name
  }

  /** `fields.find(f => f.name === name)`: the first field called `name`. */
  function FindByName(fs: seq<Field>, name: string): Option<Field> {
    if |fs| == 0 then None
    else if fs[0].name == name then Some(fs[0])
    else FindByName(fs[1..], name)
  }

  /** A field is found exactly when one has the name, and it is one of them. */
  lemma {:induction false} FindByNameFound(fs: seq<Field>, name: string)
    ensures FindByName(fs, name).Some? <==> HasName(fs, name)
    ensures FindByName(fs, name).Some? ==> FindByName(fs, name).value in fs && FindByName(fs, name).value.name == name
  {
    if |fs| > 0 && fs[0].name != name {
      FindByNameFound(fs[1..], name);
      if HasName(fs, name) {
        var i :| 0 <= i < |fs| && fs[i].name == name;
        assert fs[1..][i - 1] == fs[i];
      }
      if HasName(fs[1..], name) {
        var i :| 0 <= i < |fs[1..]| && fs[1..][i].name == name;
        assert fs[i + 1] == fs[1..][i];
      }
    }
  }

  predicate UniqueNames(fs: seq<Field>) {
    forall i, j :: 0 <= i < j < |fs| ==> fs[i].name != fs[j].name
  }

  lemma {:induction false} FindByNameUnique(fs: seq<Field>, i: nat)
    requires UniqueNames(fs) && i < |fs|
    ensures FindByName(fs, fs[i].name) == Some(fs[i])
  {
    if i > 0 {
      assert fs[0].name != fs[i].name;
      assert UniqueNames(fs[1..]) by {
        forall a, b | 0 <= a < b < |fs[1..]| ensures fs[1..][a].name != fs[1..][b].name {
          assert fs[1..][a] == fs[a + 1] && fs[1..][b] == fs[b + 1];
        }
      }
      FindByNameUnique(fs[1..], i - 1);
      assert fs[1..][i - 1] == fs[i];
    }
  }

  /** `listAdapters[key]`: the list adapter registered under `key`. */
  function FindListAdapter(adapters: seq<ListAdapter>, key: string): Option<ListAdapter> {
    if |adapters| == 0 then None
    else if adapters[0].key == key then Some(adapters[0])
    else FindListAdapter(adapters[1..], key)
  }

  lemma {:induction false} FindListAdapterFinds(adapters: seq<ListAdapter>, key: string)
    ensures FindListAdapter(adapters, key).Some? ==>
      FindListAdapter(adapters, key).value in adapters && FindListAdapter(adapters, key).value.key == key
  {
    if |adapters| > 0 && adapters[0].key != key {
      FindListAdapterFinds(adapters[1..], key);
    }
  }

  /** `fieldAdaptersByPath[path]`: the field adapter of `path`. */
  function FindPath(fas: seq<FieldAdapter>, path: string): Option<FieldAdapter> {
    if |fas| == 0 then None
    else if fas[0].path == path then Some(fas[0])
    else FindPath(fas[1..], path)
  }
}
