/** The two database tables the handler writes, held in memory:
    the dynamic-model tables (one `ModelSchema` row per layer schema and the
    `FieldSchema` rows attached to it) and the `ExecutionRequest` table that
    tracks an import. A row's primary key is its position in its table. */
module Orm {
  import opened Wrappers

  /** `max_length` as the handler writes it for text columns. */
  const CHAR_MAX_LENGTH: nat := 255

  /** A `ModelSchema` row: the lookup attributes `get_or_create` is given. */
  datatype SchemaRow = SchemaRow(
    name: string,
    dbName: string,
    isManaged: bool,
    useApplableAsTablePrefix: bool)

  /** The `kwargs` dictionary of a field: the `null` entry is always there,
      `max_length` only for text columns; no other key can be expressed. */
  datatype Kwargs = Kwargs(nullable: bool, maxLength: Option<nat>)

  /** A `FieldSchema` row; `modelSchema` is the key of its `ModelSchema` row. */
  datatype FieldRow = FieldRow(
    name: string,
    className: string,
    modelSchema: nat,
    kwargs: Kwargs)

  /** The contents of both dynamic-model tables. */
  datatype Store = Store(schemas: seq<SchemaRow>, fields: seq<FieldRow>)

  /** No two `ModelSchema` rows carry the same lookup attributes, so the
      `get` half of `get_or_create` never finds more than one. */
  ghost predicate UniqueSchemas(schemas: seq<SchemaRow>)
  {
    forall i, j :: 0 <= i < j < |schemas| ==> schemas[i] != schemas[j]
  }

  /** Every field row points at an existing schema row. */
  ghost predicate FieldsAttached(st: Store)
  {
    forall k :: 0 <= k < |st.fields| ==> st.fields[k].modelSchema < |st.schemas|
  }

  ghost predicate ValidStore(st: Store)
  {
    UniqueSchemas(st.schemas) && FieldsAttached(st)
  }

  /** The `get` half of `get_or_create`: the key of the first row with
      exactly these attributes, if any. */
  function FindSchema(schemas: seq<SchemaRow>, key: SchemaRow): (r: Option<nat>)
    ensures r.None? <==> key !in schemas
    ensures r.Some? ==> r.value < |schemas| && schemas[r.value] == key
    ensures r.Some? ==> forall i :: 0 <= i < r.value ==> schemas[i] != key
    decreases |schemas|
  {
    if |schemas| == 0 then None
    else if schemas[0] == key then Some(0)
    else
      match FindSchema(schemas[1..], key)
      case None => None
      case Some(i) => Some(i + 1)
  }

  /** With unique rows the row found is the only one with that key. */
  lemma FindSchemaUnique(schemas: seq<SchemaRow>, key: SchemaRow, i: nat)
    requires UniqueSchemas(schemas)
    requires i < |schemas| && schemas[i] == key
    ensures FindSchema(schemas, key) == Some(i)
  {
  }

  /** The in-memory dynamic-model tables, updated in place by the ORM calls
      the handler makes (`ModelSchema.objects.get_or_create`,
      `FieldSchema.objects.create`). */
  class Datastore {
    var schemas: seq<SchemaRow>
    var fields: seq<FieldRow>

    function State(): Store
      reads this
    {
      Store(schemas, fields)
    }

    constructor (initial: Store)
      ensures State() == initial
    {
      schemas := initial.schemas;
      fields := initial.fields;
    }

    /** `ModelSchema.objects.get_or_create(**key)`: returns the key of the
        matching row and whether it had to be inserted. */
    method GetOrCreateSchema(key: SchemaRow) returns (id: nat, created: bool)
      modifies this
      ensures created <==> key !in old(schemas)
      ensures created ==> id == |old(schemas)| && schemas == old(schemas) + [key]
      ensures !created ==> Some(id) == FindSchema(old(schemas), key) && schemas == old(schemas)
      ensures id < |schemas| && schemas[id] == key
      ensures fields == old(fields)
    {
      var found := FindSchema(schemas, key);
      if found.Some? {
        id, created := found.value, false;
      } else {
        id, created := |schemas|, true;
        schemas := schemas + [key];
      }
    }

    /** `FieldSchema.objects.create(...)`: appends one field row. */
    method CreateField(row: FieldRow)
      modifies this
      ensures fields == old(fields) + [row]
      ensures schemas == old(schemas)
    {
      fields := fields + [row];
    }
  }

  /** `ExecutionRequest.status` values. */
  datatype ExecStatus = Created | Running | Success | Failed

  /** The tracker columns the handler writes. */
  datatype ExecRecord = ExecRecord(status: ExecStatus, lastUpdated: int, log: string)

  /** `ExecutionRequest.objects.filter(exec_id=id).update(status=RUNNING,
      last_updated=t, log=log)`: the row with that id, if there is one, is
      set to RUNNING with the new time and log; no other row changes and no
      row is added. */
  function UpdateRequest(rows: map<string, ExecRecord>, id: string, t: int, log: string)
    : (r: map<string, ExecRecord>)
    ensures r.Keys == rows.Keys
    ensures id in rows ==> r[id] == ExecRecord(Running, t, log)
    ensures forall k {:trigger r[k]} :: k in rows && k != id ==> r[k] == rows[k]
  {
    if id in rows then rows[id := rows[id].(status := Running, lastUpdated := t, log := log)]
    else rows
  }

  /** A second update of the same row overwrites the first entirely: two
      progress writes in a row leave only the later time and log. */
  lemma UpdateRequestOverwrites(rows: map<string, ExecRecord>, id: string, t1: int, log1: string, t2: int, log2: string)
    ensures UpdateRequest(UpdateRequest(rows, id, t1, log1), id, t2, log2) == UpdateRequest(rows, id, t2, log2)
  {
    var once := UpdateRequest(rows, id, t2, log2);
    var twice := UpdateRequest(UpdateRequest(rows, id, t1, log1), id, t2, log2);
    assert forall k :: k in twice ==> twice[k] == once[k];
  }

  /** The `ExecutionRequest` table keyed by `exec_id`. */
  class ExecutionTable {
    var rows: map<string, ExecRecord>

    constructor (initial: map<string, ExecRecord>)
      ensures rows == initial
    {
      rows := initial;
    }

    method Update(id: string, t: int, log: string)
      modifies this
      ensures rows == UpdateRequest(old(rows), id, t, log)
    {
      rows := UpdateRequest(rows, id, t, log);
    }
  }
}
