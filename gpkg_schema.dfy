/** The dynamic-model half of the GeoPackage handler: how one OGR layer's
    field list and geometry column become `FieldSchema` rows under a
    `ModelSchema` row that is looked up or created by layer name. The type
    mapping tables are parameters: `standard` maps an OGR field type name to
    a Django field class, `geometry` maps an OGR geometry type name to a
    geometry field class. */
module GpkgSchema {
  import opened Wrappers
  import opened Text
  import opened Orm

  /** One attribute field of a layer: its name and its OGR type name. */
  datatype OgrField = OgrField(name: string, typeName: string)

  /** One OGR layer: name, attribute fields in order, geometry column name
      and geometry type name. */
  datatype Layer = Layer(
    name: string,
    fields: seq<OgrField>,
    geomColumn: string,
    geomTypeName: string)

  /** One dictionary of the handler's `layer_schema` list. `className` is
      None where the mapping table had no entry; `nullable` is None where
      the dictionary has no `null` key (the geometry entry). */
  datatype FieldSpec = FieldSpec(name: string, className: Option<string>, nullable: Option<bool>)

  /** The queryable model `as_model()` materialises for a schema row. */
  datatype Model = Model(schema: nat)

  /** The result of one schema setup: the tables afterwards and what the
      call returned or raised. */
  datatype SetupOutcome = SetupOutcome(store: Store, result: Result<Model>)

  const DATASTORE_DB: string := "datastore"

  /** `dict.get`. */
  function Lookup(m: map<string, string>, k: string): (r: Option<string>)
    ensures r.Some? <==> k in m
    ensures r.Some? ==> r.value == m[k]
  {
    if k in m then Some(m[k]) else None
  }

  /** `_get_type`: the Django class for a field's OGR type name, if mapped. */
  function GetType(f: OgrField, standard: map<string, string>): (r: Option<string>)
    ensures r.Some? <==> f.typeName in standard
    ensures r.Some? ==> r.value == standard[f.typeName]
  {
    Lookup(standard, f.typeName)
  }

  /** The lookup attributes `_setup_dynamic_model` passes to `get_or_create`. */
  function SchemaKey(layer: Layer): SchemaRow
  {
    SchemaRow(layer.name, DATASTORE_DB, false, false)
  }

  /** `layer_schema`: one entry per source field, then one for the geometry column. */
  function LayerSchema(layer: Layer, standard: map<string, string>, geometry: map<string, string>)
    : (specs: seq<FieldSpec>)
  {
    SourceSpecs(layer.fields, standard)
      + [FieldSpec(layer.geomColumn, Lookup(geometry, layer.geomTypeName), None)]
  }

  /** The entries for the source fields: lowercased name, mapped class,
      explicitly nullable, one per field and in the same order. */
  function SourceSpecs(fields: seq<OgrField>, standard: map<string, string>): (specs: seq<FieldSpec>)
    ensures |specs| == |fields|
    ensures forall k {:trigger specs[k]} :: 0 <= k < |fields| ==>
      specs[k] == FieldSpec(Lower(fields[k].name), GetType(fields[k], standard), Some(true))
    decreases |fields|
  {
    if |fields| == 0 then []
    else
      [FieldSpec(Lower(fields[0].name), GetType(fields[0], standard), Some(true))]
        + SourceSpecs(fields[1..], standard)
  }

  /** The `kwargs` the loop builds: `null` from the entry (True when the
      entry has none), plus `max_length = 255` for a `...CharField` class. */
  function KwargsFor(nullable: Option<bool>, className: string): Kwargs
  {
    Kwargs(
      if nullable.Some? then nullable.value else true,
      if EndsWith(className, "CharField") then Some(CHAR_MAX_LENGTH) else None)
  }

  /** The field row the loop creates for a mapped entry. */
  function RowFor(spec: FieldSpec, schema: nat): FieldRow
    requires spec.className.Some?
  {
    FieldRow(spec.name, spec.className.value, schema, KwargsFor(spec.nullable, spec.className.value))
  }

  /** Every entry of the list has a class name. */
  predicate AllMapped(specs: seq<FieldSpec>)
  {
    forall k :: 0 <= k < |specs| ==> specs[k].className.Some?
  }

  /** The rows `FieldSchema.objects.create` persists before the loop ends:
      one per entry, in order, up to (not including) the first entry without
      a class name, where `.endswith` on None stops the loop. */
  function CreatedRows(specs: seq<FieldSpec>, schema: nat): (rows: seq<FieldRow>)
    ensures |rows| <= |specs|
    ensures forall k :: 0 <= k < |rows| ==> specs[k].className.Some? && rows[k] == RowFor(specs[k], schema)
    ensures |rows| < |specs| ==> specs[|rows|].className.None?
    decreases |specs|
  {
    if |specs| == 0 || specs[0].className.None? then []
    else [RowFor(specs[0], schema)] + CreatedRows(specs[1..], schema)
  }

  /** `_setup_dynamic_model` followed, for a new schema, by
      `create_dynamic_model_instance`. */
  function SchemaSetup(st: Store, layer: Layer, standard: map<string, string>, geometry: map<string, string>)
    : SetupOutcome
  {
    var key := SchemaKey(layer);
    match FindSchema(st.schemas, key)
    case Some(id) => SetupOutcome(st, Ok(Model(id)))
    case None =>
      var id := |st.schemas|;
      var specs := LayerSchema(layer, standard, geometry);
      SetupOutcome(
        Store(st.schemas + [key], st.fields + CreatedRows(specs, id)),
        if AllMapped(specs) then Ok(Model(id)) else Err(AttributeError))
  }

  // ---------------------------------------------------------------------------
  // Properties of the field list

  /** For a layer with n fields, every name and type is mapped exactly when
      the built list has all its n + 1 rows: the first n carry the source
      names lowercased and the mapped field classes, in source order, and the
      last carries the geometry column's name as is and the mapped geometry
      class. */
  lemma {:induction false} LayerRows(layer: Layer, standard: map<string, string>, geometry: map<string, string>, schema: nat)
    ensures var rows := CreatedRows(LayerSchema(layer, standard, geometry), schema);
      var n := |layer.fields|;
      && (|rows| == n + 1 <==>
           (forall k :: 0 <= k < n ==> layer.fields[k].typeName in standard) && layer.geomTypeName in geometry)
      && (|rows| == n + 1 ==>
           && (forall k :: 0 <= k < n ==>
                 rows[k].name == Lower(layer.fields[k].name)
                 && rows[k].className == standard[layer.fields[k].typeName])
           && rows[n].name == layer.geomColumn
           && rows[n].className == geometry[layer.geomTypeName])
      && (forall k :: 0 <= k < |rows| ==> rows[k].modelSchema == schema)
  {
    var specs := LayerSchema(layer, standard, geometry);
    var rows := CreatedRows(specs, schema);
    var n := |layer.fields|;
    assert |specs| == n + 1;
    if |rows| == n + 1 {
      forall k | 0 <= k < n ensures layer.fields[k].typeName in standard {
        assert specs[k].className.Some?;
      }
      assert specs[n].className.Some?;
    }
    if (forall k :: 0 <= k < n ==> layer.fields[k].typeName in standard) && layer.geomTypeName in geometry {
      assert AllMapped(specs) by {
        forall k | 0 <= k < |specs| ensures specs[k].className.Some? {
          if k < n { assert layer.fields[k].typeName in standard; }
        }
      }
    }
  }

  /** Every created row is nullable (the geometry row through the missing
      `null` key defaulting to True); `max_length` is 255 exactly for a
      `...CharField` class and absent otherwise. */
  lemma RowKwargs(layer: Layer, standard: map<string, string>, geometry: map<string, string>, schema: nat)
    ensures var rows := CreatedRows(LayerSchema(layer, standard, geometry), schema);
      forall k :: 0 <= k < |rows| ==>
        && rows[k].kwargs.nullable
        && (rows[k].kwargs.maxLength == Some(255) <==> EndsWith(rows[k].className, "CharField"))
        && (rows[k].kwargs.maxLength.None? <==> !EndsWith(rows[k].className, "CharField"))
  {
    var specs := LayerSchema(layer, standard, geometry);
    var rows := CreatedRows(specs, schema);
    forall k | 0 <= k < |rows|
      ensures rows[k].kwargs.nullable
    {
      assert k < |specs| && specs[k].className.Some?;
      if k < |layer.fields| {
        assert specs[k].nullable == Some(true);
      } else {
        assert specs[k].nullable == None;
      }
    }
  }

  /** The loop stops at the first entry whose class is unmapped: the rows
      before it stay persisted and the call raises. */
  lemma UnmappedStops(layer: Layer, standard: map<string, string>, geometry: map<string, string>, st: Store, k: nat)
    requires SchemaKey(layer) !in st.schemas
    requires k <= |layer.fields|
    requires forall j :: 0 <= j < k ==> layer.fields[j].typeName in standard
    requires if k < |layer.fields| then layer.fields[k].typeName !in standard
             else layer.geomTypeName !in geometry
    ensures var out := SchemaSetup(st, layer, standard, geometry);
      && out.result == Err(AttributeError)
      && out.store.schemas == st.schemas + [SchemaKey(layer)]
      && |out.store.fields| == |st.fields| + k
      && out.store.fields[..|st.fields|] == st.fields
  {
    var specs := LayerSchema(layer, standard, geometry);
    var rows := CreatedRows(specs, |st.schemas|);
    assert specs[k].className.None?;
    assert !AllMapped(specs);
    var out := SchemaSetup(st, layer, standard, geometry);
    assert out.store.fields == st.fields + rows;
    assert out.store.fields[..|st.fields|] == st.fields;
  }

  // ---------------------------------------------------------------------------
  // Properties of get-or-create

  /** Setup keeps the tables well formed: schema rows stay unique and every
      field row stays attached to an existing schema row. */
  lemma SetupKeepsValid(st: Store, layer: Layer, standard: map<string, string>, geometry: map<string, string>)
    requires ValidStore(st)
    ensures ValidStore(SchemaSetup(st, layer, standard, geometry).store)
  {
    var out := SchemaSetup(st, layer, standard, geometry);
    var key := SchemaKey(layer);
    if key !in st.schemas {
      var s' := st.schemas + [key];
      forall i, j | 0 <= i < j < |s'| ensures s'[i] != s'[j] {
        if j == |st.schemas| { assert s'[i] == st.schemas[i]; }
      }
      var rows := CreatedRows(LayerSchema(layer, standard, geometry), |st.schemas|);
      forall k | 0 <= k < |out.store.fields| ensures out.store.fields[k].modelSchema < |out.store.schemas| {
        if k >= |st.fields| { assert out.store.fields[k] == rows[k - |st.fields|]; }
      }
    }
  }

  /** After any setup of a layer, successful or not, a schema row for that
      layer exists, and it is the row the result names. */
  lemma SetupLeavesSchema(st: Store, layer: Layer, standard: map<string, string>, geometry: map<string, string>)
    ensures var out := SchemaSetup(st, layer, standard, geometry);
      && SchemaKey(layer) in out.store.schemas
      && (out.result.Ok? ==> out.store.schemas[out.result.value.schema] == SchemaKey(layer))
      && |st.schemas| <= |out.store.schemas| <= |st.schemas| + 1
      && out.store.schemas[..|st.schemas|] == st.schemas
      && out.store.fields[..|st.fields|] == st.fields
      && forall key :: key in st.schemas ==> key in out.store.schemas
  {
    var out := SchemaSetup(st, layer, standard, geometry);
    assert out.store.schemas[|out.store.schemas| - 1] == SchemaKey(layer) || SchemaKey(layer) in st.schemas;
  }

  /** Setup is idempotent: a second setup of the same layer finds the schema
      the first one left (whether or not the first one raised), changes no
      table and returns that schema's model. */
  lemma SetupIdempotent(st: Store, layer: Layer, standard: map<string, string>, geometry: map<string, string>)
    ensures var first := SchemaSetup(st, layer, standard, geometry);
      var second := SchemaSetup(first.store, layer, standard, geometry);
      && second.store == first.store
      && second.result == Ok(Model(FindSchema(first.store.schemas, SchemaKey(layer)).value))
      && (first.result.Ok? ==> second.result == first.result)
  {
    SetupLeavesSchema(st, layer, standard, geometry);
    var first := SchemaSetup(st, layer, standard, geometry);
    var key := SchemaKey(layer);
    if key !in st.schemas {
      var id := |st.schemas|;
      assert first.store.schemas[id] == key;
      assert FindSchema(first.store.schemas, key) == Some(id);
    } else {
      assert first.store == st;
    }
  }

  /** Two setups of a new layer whose types are all mapped leave exactly
      one schema row for it, holding exactly n + 1 field rows: the ones the
      first setup added. */
  lemma SetupTwiceCounts(st: Store, layer: Layer, standard: map<string, string>, geometry: map<string, string>)
    requires ValidStore(st)
    requires SchemaKey(layer) !in st.schemas
    requires forall k :: 0 <= k < |layer.fields| ==> layer.fields[k].typeName in standard
    requires layer.geomTypeName in geometry
    ensures var first := SchemaSetup(st, layer, standard, geometry);
      var second := SchemaSetup(first.store, layer, standard, geometry);
      var id := |st.schemas|;
      && second.store.schemas == st.schemas + [SchemaKey(layer)]
      && |second.store.fields| == |st.fields| + |layer.fields| + 1
      && (forall k :: 0 <= k < |second.store.fields| ==>
            (second.store.fields[k].modelSchema == id <==> k >= |st.fields|))
  {
    SetupIdempotent(st, layer, standard, geometry);
    LayerRows(layer, standard, geometry, |st.schemas|);
    var first := SchemaSetup(st, layer, standard, geometry);
    var rows := CreatedRows(LayerSchema(layer, standard, geometry), |st.schemas|);
    assert first.store.fields == st.fields + rows;
    forall k | 0 <= k < |first.store.fields|
      ensures first.store.fields[k].modelSchema == |st.schemas| <==> k >= |st.fields|
    {
      if k < |st.fields| {
        assert first.store.fields[k] == st.fields[k];
      } else {
        assert first.store.fields[k] == rows[k - |st.fields|];
      }
    }
  }
}
