/** The GeoPackage handler (`GPKGFileHandler`): its task list, its file
    validation and its import, which for each layer of the file writes a
    progress line to the execution tracker and sets up the layer's dynamic
    model, then writes a last progress line and runs `ogr2ogr`.

    What the handler reads from outside is passed in: the layers `ogr.Open`
    yields (None when it could not open the file), the time `timezone.now()`
    gives at each tracker update, the `GEODATABASE_URL` setting, the paths
    that exist on disk, and what the `ogr2ogr` process writes for a given
    command line. */
module GpkgHandler {
  import opened Wrappers
  import opened Text
  import opened Orm
  import opened GpkgSchema
  import opened Ogr2ogr

  /** The pipeline stages the handler asks the orchestrator to run, in order. */
  const TASKS_LIST: seq<string> := [
    "start_import",
    "importer.import_resource",
    "importer.publish_resource",
    "importer.create_gn_resource"
  ]

  /** Four distinct stages, the import right after the start and before
      publishing and resource creation. */
  lemma TasksListStages()
    ensures |TASKS_LIST| == 4
    ensures forall i, j :: 0 <= i < j < |TASKS_LIST| ==> TASKS_LIST[i] != TASKS_LIST[j]
    ensures TASKS_LIST[0] == "start_import" && TASKS_LIST[1] == "importer.import_resource"
  {
  }

  const BASE_FILE: string := "base_file"
  const IMPORT_LOG: string := "importing layer"

  /** The progress line written before a layer's schema setup. */
  function SetupLog(layerName: string): string
  {
    "setting up dynamic model for layer: " + layerName
  }

  /** `is_valid`: every path the upload names exists. Python's `all` of an
      empty list is True, so an upload naming no file is valid. */
  function IsValid(files: map<string, string>, existing: set<string>): (ok: bool)
    ensures ok <==> forall role :: role in files ==> files[role] in existing
    ensures files == map[] ==> ok
  {
    files.Values <= existing
  }

  // ---------------------------------------------------------------------------
  // The import as a function of the state before it

  /** What the handler does, in order, as seen from outside. */
  datatype Event =
    | WroteTracker(log: string)    // `_update_execution_request`
    | SetUpSchema(layer: string)   // `_setup_dynamic_model`
    | RanOgr2ogr(command: string)  // `Popen` of the command line

  /** The database: dynamic-model tables and execution tracker. */
  datatype World = World(store: Store, tracker: map<string, ExecRecord>)

  /** The state after the layer loop has run over some layers: how many
      layers it reached, the error that stopped it, if any, and the events. */
  datatype Progress = Progress(world: World, failure: Option<Error>, done: nat, trace: seq<Event>)

  datatype ImportOutcome = ImportOutcome(world: World, result: Result<seq<byte>>, trace: seq<Event>)

  /** The events of the loop body for each of `layers`: a tracker write
      naming the layer, then its schema setup. */
  function LayerEvents(layers: seq<Layer>): seq<Event>
    decreases |layers|
  {
    if |layers| == 0 then []
    else
      var last := layers[|layers| - 1].name;
      LayerEvents(layers[..|layers| - 1]) + [WroteTracker(SetupLog(last)), SetUpSchema(last)]
  }

  /** The k-th layer's two events sit at positions 2k and 2k + 1. */
  lemma {:induction false} LayerEventsAt(layers: seq<Layer>, k: nat)
    requires k < |layers|
    ensures |LayerEvents(layers)| == 2 * |layers|
    ensures LayerEvents(layers)[2 * k] == WroteTracker(SetupLog(layers[k].name))
    ensures LayerEvents(layers)[2 * k + 1] == SetUpSchema(layers[k].name)
    decreases |layers|
  {
    var init := layers[..|layers| - 1];
    if k < |layers| - 1 {
      LayerEventsAt(init, k);
      assert init[k] == layers[k];
    } else if |layers| > 1 {
      LayerEventsAt(init, 0);
    }
  }

  /** Where each event sits when more events follow the layers' ones. */
  lemma LayerEventsThen(layers: seq<Layer>, tail: seq<Event>)
    ensures var t := LayerEvents(layers) + tail;
      && |t| == 2 * |layers| + |tail|
      && (forall k :: 0 <= k < |layers| ==>
            t[2 * k] == WroteTracker(SetupLog(layers[k].name)) && t[2 * k + 1] == SetUpSchema(layers[k].name))
      && (forall j :: 0 <= j < |tail| ==> t[2 * |layers| + j] == tail[j])
  {
    var e := LayerEvents(layers);
    var t := e + tail;
    if |layers| > 0 {
      LayerEventsAt(layers, 0);
    }
    assert |e| == 2 * |layers|;
    forall k | 0 <= k < |layers|
      ensures t[2 * k] == WroteTracker(SetupLog(layers[k].name))
      ensures t[2 * k + 1] == SetUpSchema(layers[k].name)
    {
      LayerEventsAt(layers, k);
      assert t[2 * k] == e[2 * k] && t[2 * k + 1] == e[2 * k + 1];
    }
    forall j | 0 <= j < |tail|
      ensures t[2 * |layers| + j] == tail[j]
    {
    }
  }

  /** The layer loop of `import_resource` over `layers`, stopping at the
      first layer whose setup raises. */
  function LayersSetup(w: World, layers: seq<Layer>, execId: string, clock: nat -> int,
                       standard: map<string, string>, geometry: map<string, string>): (p: Progress)
    ensures p.done <= |layers|
    ensures p.failure.None? ==> p.done == |layers|
    ensures p.failure.Some? ==> p.done >= 1
    decreases |layers|
  {
    if |layers| == 0 then Progress(w, None, 0, [])
    else
      var init := layers[..|layers| - 1];
      var before := LayersSetup(w, init, execId, clock, standard, geometry);
      if before.failure.Some? then before
      else
        var k := |layers| - 1;
        var log := SetupLog(layers[k].name);
        var tracker := UpdateRequest(before.world.tracker, execId, clock(k), log);
        var out := SchemaSetup(before.world.store, layers[k], standard, geometry);
        Progress(
          World(out.store, tracker),
          if out.result.Err? then Some(out.result.error) else None,
          k + 1,
          before.trace + [WroteTracker(log), SetUpSchema(layers[k].name)])
  }

  /** The loop's events: for each layer it reached, in order, the tracker
      write naming the layer and then the layer's schema setup. */
  lemma {:induction false} LayersSetupTrace(w: World, layers: seq<Layer>, execId: string, clock: nat -> int,
                                            standard: map<string, string>, geometry: map<string, string>)
    ensures var p := LayersSetup(w, layers, execId, clock, standard, geometry);
      p.trace == LayerEvents(layers[..p.done])
    decreases |layers|
  {
    if |layers| > 0 {
      var init := layers[..|layers| - 1];
      var before := LayersSetup(w, init, execId, clock, standard, geometry);
      LayersSetupTrace(w, init, execId, clock, standard, geometry);
      assert init[..before.done] == layers[..before.done];
      if before.failure.None? {
        assert layers[..|layers|] == layers;
      }
    }
  }

  /** The loop's effect on the tracker is a single progress write: the one
      naming the last layer it reached, or none when it reached no layer. */
  lemma {:induction false} LayersSetupTracker(w: World, layers: seq<Layer>, execId: string, clock: nat -> int,
                                              standard: map<string, string>, geometry: map<string, string>)
    ensures var p := LayersSetup(w, layers, execId, clock, standard, geometry);
      p.world.tracker ==
        if p.done == 0 then w.tracker
        else UpdateRequest(w.tracker, execId, clock(p.done - 1), SetupLog(layers[p.done - 1].name))
    decreases |layers|
  {
    if |layers| > 0 {
      var init := layers[..|layers| - 1];
      var p := LayersSetup(w, layers, execId, clock, standard, geometry);
      var before := LayersSetup(w, init, execId, clock, standard, geometry);
      LayersSetupTracker(w, init, execId, clock, standard, geometry);
      if before.failure.None? {
        var k := |layers| - 1;
        if before.done > 0 {
          assert init[before.done - 1] == layers[before.done - 1];
          UpdateRequestOverwrites(w.tracker, execId, clock(k - 1), SetupLog(layers[k - 1].name),
                                  clock(k), SetupLog(layers[k].name));
        }
      } else {
        assert p == before;
        if p.done > 0 {
          assert init[p.done - 1] == layers[p.done - 1];
        }
      }
    }
  }

  /** `import_resource` followed by `_run_ogr2ogr_import`. */
  function ImportRun(w: World, files: map<string, string>, source: Option<seq<Layer>>, execId: string,
                     clock: nat -> int, url: string, run: string -> ProcOutput,
                     standard: map<string, string>, geometry: map<string, string>): ImportOutcome
  {
    if source.None? then ImportOutcome(w, Err(TypeError), [])
    else
      var layers := source.value;
      var p := LayersSetup(w, layers, execId, clock, standard, geometry);
      if p.failure.Some? then ImportOutcome(p.world, Err(p.failure.value), p.trace)
      else
        var w' := World(p.world.store, UpdateRequest(p.world.tracker, execId, clock(|layers|), IMPORT_LOG));
        var trace := p.trace + [WroteTracker(IMPORT_LOG)];
        match ParseUrl(url)
        case Err(e) => ImportOutcome(w', Err(e), trace)
        case Ok(conn) =>
          if BASE_FILE !in files then ImportOutcome(w', Err(TypeError), trace)
          else
            var command := Command(Options(conn, files[BASE_FILE]));
            ImportOutcome(w', Outcome(run(command)), trace + [RanOgr2ogr(command)])
  }

  // ---------------------------------------------------------------------------
  // The handler object

  class GpkgFileHandler {
    /** `STANDARD_TYPE_MAPPING`: OGR field type name to Django field class. */
    const standard: map<string, string>
    /** `GEOM_TYPE_MAPPING`: OGR geometry type name to geometry field class. */
    const geometry: map<string, string>

    constructor (standard: map<string, string>, geometry: map<string, string>)
      ensures this.standard == standard && this.geometry == geometry
    {
      this.standard := standard;
      this.geometry := geometry;
    }

    /** `create_dynamic_model_instance`: one field row per entry of the
        layer schema, in order, until an entry has no class name. */
    method CreateDynamicModelInstance(db: Datastore, layer: Layer, schema: nat) returns (r: Result<Model>)
      modifies db
      ensures db.schemas == old(db.schemas)
      ensures db.fields == old(db.fields) + CreatedRows(LayerSchema(layer, standard, geometry), schema)
      ensures r == if AllMapped(LayerSchema(layer, standard, geometry)) then Ok(Model(schema)) else Err(AttributeError)
    {
      var specs := LayerSchema(layer, standard, geometry);
      var i := 0;
      while i < |specs|
        invariant 0 <= i <= |specs|
        invariant forall k :: 0 <= k < i ==> specs[k].className.Some?
        invariant db.schemas == old(db.schemas)
        invariant db.fields == old(db.fields) + CreatedRows(specs[..i], schema)
      {
        var field := specs[i];
        var kwargs := Kwargs(if field.nullable.Some? then field.nullable.value else true, None);
        if field.className.None? {
          CreatedRowsStop(specs, i, schema);
          r := Err(AttributeError);
          return;
        }
        var className := field.className.value;
        if EndsWith(className, "CharField") {
          kwargs := kwargs.(maxLength := Some(CHAR_MAX_LENGTH));
        }
        var row := FieldRow(field.name, className, schema, kwargs);
        CreatedRowsStep(old(db.fields), specs, i, schema);
        assert row == RowFor(specs[i], schema);
        db.CreateField(row);
        i := i + 1;
      }
      assert specs[..i] == specs;
      r := Ok(Model(schema));
    }

    /** `_setup_dynamic_model`: get or create the layer's schema row, and
        build its fields only when the row is new. */
    method SetupDynamicModel(db: Datastore, layer: Layer) returns (r: Result<Model>)
      modifies db
      ensures SetupOutcome(db.State(), r) == SchemaSetup(old(db.State()), layer, standard, geometry)
    {
      var id, created := db.GetOrCreateSchema(SchemaKey(layer));
      if !created {
        r := Ok(Model(id));
        return;
      }
      r := CreateDynamicModelInstance(db, layer, id);
    }

    /** `_update_execution_request`. */
    method UpdateExecutionRequest(tracker: ExecutionTable, execId: string, lastUpdated: int, log: string)
      modifies tracker
      ensures tracker.rows == UpdateRequest(old(tracker.rows), execId, lastUpdated, log)
    {
      tracker.Update(execId, lastUpdated, log);
    }

    /** `_run_ogr2ogr_import`: parse the URL, assemble the options, run the
        command line and apply the stderr policy. `command` is the line
        handed to the shell, None when the call raised before it. */
    method RunOgr2ogrImport(files: map<string, string>, url: string, run: string -> ProcOutput)
      returns (r: Result<seq<byte>>, command: Option<string>)
      ensures ParseUrl(url).Err? ==> r == Err(ParseUrl(url).error) && command == None
      ensures ParseUrl(url).Ok? && BASE_FILE !in files ==> r == Err(TypeError) && command == None
      ensures ParseUrl(url).Ok? && BASE_FILE in files ==>
        && command == Some(OGR_EXE + " " + Options(ParseUrl(url).value, files[BASE_FILE]))
        && r == Outcome(run(command.value))
    {
      var parsed := ParseUrl(url);
      if parsed.Err? {
        return Err(parsed.error), None;
      }
      var conn := parsed.value;
      var options := "-progress ";
      options := options + "--config PG_USE_COPY YES ";
      options := options + "-f PostgreSQL PG:\" " + Descriptor(conn) + " \" ";
      if BASE_FILE !in files {
        return Err(TypeError), None;
      }
      options := options + files[BASE_FILE] + " ";
      options := options + "-lco DIM=2 ";
      options := options + "-overwrite ";
      var commands := [OGR_EXE] + Split(options, ' ');
      var line := Join(commands, ' ');
      CommandVerbatim(options);
      command := Some(line);
      r := Outcome(run(line));
    }

    /** `import_resource`. `source` is what `ogr.Open` yields for the base
        file, `clock(k)` the time of the k-th tracker update. */
    method ImportResource(db: Datastore, tracker: ExecutionTable, files: map<string, string>,
                          source: Option<seq<Layer>>, execId: string, clock: nat -> int,
                          url: string, run: string -> ProcOutput)
      returns (r: Result<seq<byte>>, ghost trace: seq<Event>)
      modifies db, tracker
      ensures ImportOutcome(World(db.State(), tracker.rows), r, trace)
        == ImportRun(World(old(db.State()), old(tracker.rows)), files, source, execId, clock, url, run, standard, geometry)
    {
      ghost var w0 := World(db.State(), tracker.rows);
      if source.None? {
        return Err(TypeError), [];
      }
      var layers := source.value;
      trace := [];
      var i := 0;
      while i < |layers|
        invariant 0 <= i <= |layers|
        invariant LayersSetup(w0, layers[..i], execId, clock, standard, geometry)
          == Progress(World(db.State(), tracker.rows), None, i, trace)
      {
        UpdateExecutionRequest(tracker, execId, clock(i), SetupLog(layers[i].name));
        var model := SetupDynamicModel(db, layers[i]);
        trace := trace + [WroteTracker(SetupLog(layers[i].name)), SetUpSchema(layers[i].name)];
        LayersSetupNext(w0, layers, i, execId, clock, standard, geometry);
        if model.Err? {
          FailureSticks(w0, layers, i + 1, execId, clock, standard, geometry);
          return Err(model.error), trace;
        }
        i := i + 1;
      }
      assert layers[..i] == layers;
      UpdateExecutionRequest(tracker, execId, clock(|layers|), IMPORT_LOG);
      trace := trace + [WroteTracker(IMPORT_LOG)];
      var command;
      r, command := RunOgr2ogrImport(files, url, run);
      if command.Some? {
        CommandVerbatim(Options(ParseUrl(url).value, files[BASE_FILE]));
        trace := trace + [RanOgr2ogr(command.value)];
      }
    }
  }

  // ---------------------------------------------------------------------------
  // Proof steps for the loops

  /** One more mapped entry adds its row after the rows built so far. */
  lemma CreatedRowsStep(prefix: seq<FieldRow>, specs: seq<FieldSpec>, i: nat, schema: nat)
    requires i < |specs| && specs[i].className.Some?
    requires forall k :: 0 <= k < i ==> specs[k].className.Some?
    ensures forall k :: 0 <= k < i + 1 ==> specs[k].className.Some?
    ensures prefix + CreatedRows(specs[..i + 1], schema)
         == (prefix + CreatedRows(specs[..i], schema)) + [RowFor(specs[i], schema)]
  {
    assert specs[..i + 1] == specs[..i] + [specs[i]];
    CreatedRowsAppend(specs[..i], specs[i], schema);
  }

  /** Rows of a fully mapped list followed by one more mapped entry. */
  lemma {:induction false} CreatedRowsAppend(specs: seq<FieldSpec>, spec: FieldSpec, schema: nat)
    requires AllMapped(specs) && spec.className.Some?
    ensures CreatedRows(specs + [spec], schema) == CreatedRows(specs, schema) + [RowFor(spec, schema)]
    decreases |specs|
  {
    if |specs| > 0 {
      assert (specs + [spec])[1..] == specs[1..] + [spec];
      CreatedRowsAppend(specs[1..], spec, schema);
    }
  }

  /** An unmapped entry ends the rows: nothing after it is created. */
  lemma CreatedRowsStop(specs: seq<FieldSpec>, i: nat, schema: nat)
    requires i < |specs| && specs[i].className.None?
    requires forall k :: 0 <= k < i ==> specs[k].className.Some?
    ensures CreatedRows(specs, schema) == CreatedRows(specs[..i], schema)
    ensures !AllMapped(specs)
  {
    var a := CreatedRows(specs[..i], schema);
    var b := CreatedRows(specs, schema);
    assert |a| == i;
    assert |b| == i;
  }

  /** Once the loop has stopped on an error, further layers change nothing. */
  lemma {:induction false} FailureSticks(w: World, layers: seq<Layer>, k: nat, execId: string, clock: nat -> int,
                                         standard: map<string, string>, geometry: map<string, string>)
    requires k <= |layers|
    requires LayersSetup(w, layers[..k], execId, clock, standard, geometry).failure.Some?
    ensures LayersSetup(w, layers, execId, clock, standard, geometry)
         == LayersSetup(w, layers[..k], execId, clock, standard, geometry)
    decreases |layers| - k
  {
    if k < |layers| {
      LayersSetupStops(w, layers, k, execId, clock, standard, geometry);
      FailureSticks(w, layers, k + 1, execId, clock, standard, geometry);
    } else {
      assert layers[..k] == layers;
    }
  }

  /** A failed prefix stays failed when one more layer follows. */
  lemma LayersSetupStops(w: World, layers: seq<Layer>, k: nat, execId: string, clock: nat -> int,
                         standard: map<string, string>, geometry: map<string, string>)
    requires k < |layers|
    requires LayersSetup(w, layers[..k], execId, clock, standard, geometry).failure.Some?
    ensures LayersSetup(w, layers[..k + 1], execId, clock, standard, geometry)
         == LayersSetup(w, layers[..k], execId, clock, standard, geometry)
  {
    assert layers[..k + 1][..k] == layers[..k];
  }

  // ---------------------------------------------------------------------------
  // Properties of the layer loop

  /** One more layer after a loop that has not failed: its setup runs on
      the tables the loop left. */
  lemma LayersSetupStep(w: World, layers: seq<Layer>, execId: string, clock: nat -> int,
                        standard: map<string, string>, geometry: map<string, string>)
    requires |layers| > 0
    requires LayersSetup(w, layers[..|layers| - 1], execId, clock, standard, geometry).failure.None?
    ensures var before := LayersSetup(w, layers[..|layers| - 1], execId, clock, standard, geometry);
      var p := LayersSetup(w, layers, execId, clock, standard, geometry);
      && p.done == |layers|
      && p.world.store == SchemaSetup(before.world.store, layers[|layers| - 1], standard, geometry).store
  {
  }

  /** The loop's step on the `i`-th layer, as the prefix of length `i + 1`
      sees it. */
  lemma LayersSetupNext(w: World, layers: seq<Layer>, i: nat, execId: string, clock: nat -> int,
                        standard: map<string, string>, geometry: map<string, string>)
    requires i < |layers|
    requires LayersSetup(w, layers[..i], execId, clock, standard, geometry).failure.None?
    ensures var before := LayersSetup(w, layers[..i], execId, clock, standard, geometry);
      var log := SetupLog(layers[i].name);
      var out := SchemaSetup(before.world.store, layers[i], standard, geometry);
      LayersSetup(w, layers[..i + 1], execId, clock, standard, geometry)
        == Progress(
             World(out.store, UpdateRequest(before.world.tracker, execId, clock(i), log)),
             if out.result.Err? then Some(out.result.error) else None,
             i + 1,
             before.trace + [WroteTracker(log), SetUpSchema(layers[i].name)])
  {
    assert layers[..i + 1][..i] == layers[..i];
  }

  /** The schema rows there before the loop stay, in place. */
  lemma {:induction false} LayersSetupKeepsSchemas(w: World, layers: seq<Layer>, execId: string, clock: nat -> int,
                                                   standard: map<string, string>, geometry: map<string, string>)
    ensures var p := LayersSetup(w, layers, execId, clock, standard, geometry);
      && |w.store.schemas| <= |p.world.store.schemas|
      && p.world.store.schemas[..|w.store.schemas|] == w.store.schemas
    decreases |layers|
  {
    if |layers| > 0 {
      var init := layers[..|layers| - 1];
      var before := LayersSetup(w, init, execId, clock, standard, geometry);
      LayersSetupKeepsSchemas(w, init, execId, clock, standard, geometry);
      if before.failure.None? {
        LayersSetupStep(w, layers, execId, clock, standard, geometry);
        var b := before.world.store.schemas;
        SetupLeavesSchema(before.world.store, layers[|layers| - 1], standard, geometry);
        var o := SchemaSetup(before.world.store, layers[|layers| - 1], standard, geometry).store.schemas;
        assert o[..|w.store.schemas|] == o[..|b|][..|w.store.schemas|];
      }
    }
  }

  /** Every layer the loop reached has its schema row afterwards. */
  lemma {:induction false} LayersSetupSchemas(w: World, layers: seq<Layer>, execId: string, clock: nat -> int,
                                              standard: map<string, string>, geometry: map<string, string>)
    ensures var p := LayersSetup(w, layers, execId, clock, standard, geometry);
      forall k :: 0 <= k < p.done ==> SchemaKey(layers[k]) in p.world.store.schemas
    decreases |layers|
  {
    if |layers| > 0 {
      var init := layers[..|layers| - 1];
      var p := LayersSetup(w, layers, execId, clock, standard, geometry);
      var before := LayersSetup(w, init, execId, clock, standard, geometry);
      LayersSetupSchemas(w, init, execId, clock, standard, geometry);
      if before.failure.None? {
        LayersSetupStep(w, layers, execId, clock, standard, geometry);
        forall k | 0 <= k < |layers| - 1 ensures SchemaKey(layers[k]) in before.world.store.schemas {
          assert init[k] == layers[k];
        }
        SetupKeepsKeys(before.world.store, layers, standard, geometry);
      } else {
        assert p == before;
        forall k | 0 <= k < p.done ensures SchemaKey(layers[k]) in p.world.store.schemas {
          assert init[k] == layers[k];
        }
      }
    }
  }

  /** The setup of the last of `layers` keeps the schema rows of the ones
      before it and leaves one for itself. */
  lemma SetupKeepsKeys(st: Store, layers: seq<Layer>, standard: map<string, string>, geometry: map<string, string>)
    requires |layers| > 0
    requires forall k :: 0 <= k < |layers| - 1 ==> SchemaKey(layers[k]) in st.schemas
    ensures var schemas := SchemaSetup(st, layers[|layers| - 1], standard, geometry).store.schemas;
      forall k :: 0 <= k < |layers| ==> SchemaKey(layers[k]) in schemas
  {
    SetupLeavesSchema(st, layers[|layers| - 1], standard, geometry);
  }

  /** When every layer already has its schema row the loop runs to the end
      and changes no dynamic-model table. */
  lemma {:induction false} LayersSetupPresent(w: World, layers: seq<Layer>, execId: string, clock: nat -> int,
                                              standard: map<string, string>, geometry: map<string, string>)
    requires forall k :: 0 <= k < |layers| ==> SchemaKey(layers[k]) in w.store.schemas
    ensures var p := LayersSetup(w, layers, execId, clock, standard, geometry);
      p.failure.None? && p.world.store == w.store
    decreases |layers|
  {
    if |layers| > 0 {
      var init := layers[..|layers| - 1];
      forall k | 0 <= k < |init| ensures SchemaKey(init[k]) in w.store.schemas {
        assert init[k] == layers[k];
      }
      LayersSetupPresent(w, init, execId, clock, standard, geometry);
    }
  }

  /** The loop keeps the dynamic-model tables well formed. */
  lemma {:induction false} LayersSetupValid(w: World, layers: seq<Layer>, execId: string, clock: nat -> int,
                                            standard: map<string, string>, geometry: map<string, string>)
    requires ValidStore(w.store)
    ensures ValidStore(LayersSetup(w, layers, execId, clock, standard, geometry).world.store)
    decreases |layers|
  {
    if |layers| > 0 {
      var init := layers[..|layers| - 1];
      LayersSetupValid(w, init, execId, clock, standard, geometry);
      var before := LayersSetup(w, init, execId, clock, standard, geometry);
      SetupKeepsValid(before.world.store, layers[|layers| - 1], standard, geometry);
    }
  }

  // ---------------------------------------------------------------------------
  // Properties of the import

  /** The import touches only the tracker row with the given `exec_id`: no
      row is added or removed and every other row is unchanged. */
  lemma ImportTrackerFrame(w: World, files: map<string, string>, source: Option<seq<Layer>>, execId: string,
                           clock: nat -> int, url: string, run: string -> ProcOutput,
                           standard: map<string, string>, geometry: map<string, string>)
    ensures var out := ImportRun(w, files, source, execId, clock, url, run, standard, geometry);
      && out.world.tracker.Keys == w.tracker.Keys
      && forall k :: k in w.tracker && k != execId ==> out.world.tracker[k] == w.tracker[k]
  {
    if source.Some? {
      LayersSetupTracker(w, source.value, execId, clock, standard, geometry);
    }
  }

  /** A successful import wrote one tracker line per layer, each just before
      that layer's schema setup and in layer order, then the "importing
      layer" line, and last ran `ogr2ogr` with the executable followed by
      the options verbatim. */
  lemma ImportSuccessTrace(w: World, files: map<string, string>, source: Option<seq<Layer>>, execId: string,
                           clock: nat -> int, url: string, run: string -> ProcOutput,
                           standard: map<string, string>, geometry: map<string, string>)
    requires ImportRun(w, files, source, execId, clock, url, run, standard, geometry).result.Ok?
    ensures source.Some? && ParseUrl(url).Ok? && BASE_FILE in files
    ensures var out := ImportRun(w, files, source, execId, clock, url, run, standard, geometry);
      var layers := source.value;
      var n := |layers|;
      && |out.trace| == 2 * n + 2
      && (forall k :: 0 <= k < n ==>
            && out.trace[2 * k] == WroteTracker(SetupLog(layers[k].name))
            && out.trace[2 * k + 1] == SetUpSchema(layers[k].name))
      && out.trace[2 * n] == WroteTracker(IMPORT_LOG)
      && out.trace[2 * n + 1] == RanOgr2ogr(OGR_EXE + " " + Options(ParseUrl(url).value, files[BASE_FILE]))
  {
    var layers := source.value;
    var n := |layers|;
    var p := LayersSetup(w, layers, execId, clock, standard, geometry);
    var options := Options(ParseUrl(url).value, files[BASE_FILE]);
    var tail := [WroteTracker(IMPORT_LOG), RanOgr2ogr(Command(options))];
    ImportRunOk(w, files, source, execId, clock, url, run, standard, geometry);
    CommandVerbatim(options);
    LayersSetupTrace(w, layers, execId, clock, standard, geometry);
    assert layers[..n] == layers;
    LayerEventsThen(layers, tail);
    assert tail[0] == WroteTracker(IMPORT_LOG) && tail[1] == RanOgr2ogr(Command(options));
  }

  /** What an import that returned a result went through: the file opened,
      the layer loop ran to the end, the URL parsed and the base file was
      given, so the tracker was written once more and `ogr2ogr` ran. */
  lemma ImportRunOk(w: World, files: map<string, string>, source: Option<seq<Layer>>, execId: string,
                    clock: nat -> int, url: string, run: string -> ProcOutput,
                    standard: map<string, string>, geometry: map<string, string>)
    requires ImportRun(w, files, source, execId, clock, url, run, standard, geometry).result.Ok?
    ensures source.Some? && ParseUrl(url).Ok? && BASE_FILE in files
    ensures var p := LayersSetup(w, source.value, execId, clock, standard, geometry);
      var out := ImportRun(w, files, source, execId, clock, url, run, standard, geometry);
      var command := Command(Options(ParseUrl(url).value, files[BASE_FILE]));
      && p.failure.None?
      && out.trace == p.trace + [WroteTracker(IMPORT_LOG), RanOgr2ogr(command)]
      && out.result == Outcome(run(command))
      && out.world == World(p.world.store, UpdateRequest(p.world.tracker, execId, clock(|source.value|), IMPORT_LOG))
  {
  }

  /** A successful import's result is the standard output of the `ogr2ogr`
      run, which came with an empty standard error; the tracker row is
      RUNNING with the "importing layer" line; and every layer has its
      schema row. */
  lemma ImportSuccessState(w: World, files: map<string, string>, source: Option<seq<Layer>>, execId: string,
                           clock: nat -> int, url: string, run: string -> ProcOutput,
                           standard: map<string, string>, geometry: map<string, string>)
    requires ImportRun(w, files, source, execId, clock, url, run, standard, geometry).result.Ok?
    ensures source.Some? && ParseUrl(url).Ok? && BASE_FILE in files
    ensures var out := ImportRun(w, files, source, execId, clock, url, run, standard, geometry);
      var layers := source.value;
      var command := OGR_EXE + " " + Options(ParseUrl(url).value, files[BASE_FILE]);
      && run(command).stderr == []
      && out.result == Ok(run(command).stdout)
      && (execId in w.tracker ==>
            execId in out.world.tracker
            && out.world.tracker[execId] == ExecRecord(Running, clock(|layers|), IMPORT_LOG))
      && (forall k :: 0 <= k < |layers| ==> SchemaKey(layers[k]) in out.world.store.schemas)
  {
    LayersSetupSchemas(w, source.value, execId, clock, standard, geometry);
    LayersSetupTracker(w, source.value, execId, clock, standard, geometry);
    CommandVerbatim(Options(ParseUrl(url).value, files[BASE_FILE]));
  }

  /** Importing the same file a second time, after a first import whose
      layer loop ran to the end, leaves the dynamic-model tables exactly as
      the first import left them: no schema row and no field row is added. */
  lemma ImportIdempotentSchemas(w: World, files: map<string, string>, layers: seq<Layer>, execId: string,
                                clock: nat -> int, url: string, run: string -> ProcOutput,
                                execId2: string, clock2: nat -> int, url2: string, run2: string -> ProcOutput,
                                standard: map<string, string>, geometry: map<string, string>)
    requires LayersSetup(w, layers, execId, clock, standard, geometry).failure.None?
    ensures var first := ImportRun(w, files, Some(layers), execId, clock, url, run, standard, geometry);
      var second := ImportRun(first.world, files, Some(layers), execId2, clock2, url2, run2, standard, geometry);
      second.world.store == first.world.store
  {
    var first := ImportRun(w, files, Some(layers), execId, clock, url, run, standard, geometry);
    LayersSetupSchemas(w, layers, execId, clock, standard, geometry);
    LayersSetupPresent(first.world, layers, execId2, clock2, standard, geometry);
  }

  /** Every import, successful or not, keeps the dynamic-model tables well
      formed: unique schema rows and field rows attached to existing ones. */
  lemma ImportKeepsValid(w: World, files: map<string, string>, source: Option<seq<Layer>>, execId: string,
                         clock: nat -> int, url: string, run: string -> ProcOutput,
                         standard: map<string, string>, geometry: map<string, string>)
    requires ValidStore(w.store)
    ensures ValidStore(ImportRun(w, files, source, execId, clock, url, run, standard, geometry).world.store)
  {
    if source.Some? {
      LayersSetupValid(w, source.value, execId, clock, standard, geometry);
    }
  }

  /** Once the layer loop has run to the end the import has written, in
      order, the events of every layer and then the "importing layer" line,
      whatever happens afterwards. */
  lemma ImportLateTrace(w: World, files: map<string, string>, layers: seq<Layer>, execId: string,
                        clock: nat -> int, url: string, run: string -> ProcOutput,
                        standard: map<string, string>, geometry: map<string, string>)
    requires LayersSetup(w, layers, execId, clock, standard, geometry).failure.None?
    ensures var out := ImportRun(w, files, Some(layers), execId, clock, url, run, standard, geometry);
      && |out.trace| >= 2 * |layers| + 1
      && out.trace[..2 * |layers| + 1] == LayerEvents(layers) + [WroteTracker(IMPORT_LOG)]
  {
    var p := LayersSetup(w, layers, execId, clock, standard, geometry);
    var out := ImportRun(w, files, Some(layers), execId, clock, url, run, standard, geometry);
    LayersSetupTrace(w, layers, execId, clock, standard, geometry);
    assert layers[..|layers|] == layers;
    if |layers| > 0 {
      LayerEventsAt(layers, 0);
    }
    var pre := LayerEvents(layers) + [WroteTracker(IMPORT_LOG)];
    if ParseUrl(url).Ok? && BASE_FILE in files {
      assert out.trace == pre + [RanOgr2ogr(Command(Options(ParseUrl(url).value, files[BASE_FILE])))];
    } else {
      assert out.trace == pre;
    }
  }

  /** The ways an import can fail after its layer loop: a malformed URL
      raises before `ogr2ogr` runs, as does a missing base file; a non-empty
      standard error from the run is raised as the error. */
  lemma ImportLateFailures(w: World, files: map<string, string>, layers: seq<Layer>, execId: string,
                           clock: nat -> int, url: string, run: string -> ProcOutput,
                           standard: map<string, string>, geometry: map<string, string>)
    requires LayersSetup(w, layers, execId, clock, standard, geometry).failure.None?
    ensures var out := ImportRun(w, files, Some(layers), execId, clock, url, run, standard, geometry);
      && (ParseUrl(url).Err? ==> out.result == Err(ParseUrl(url).error) && |out.trace| == 2 * |layers| + 1)
      && (ParseUrl(url).Ok? && BASE_FILE !in files ==> out.result == Err(TypeError) && |out.trace| == 2 * |layers| + 1)
      && (ParseUrl(url).Ok? && BASE_FILE in files ==>
            var command := OGR_EXE + " " + Options(ParseUrl(url).value, files[BASE_FILE]);
            out.result.Err? <==> run(command).stderr != [])
  {
    LayersSetupTrace(w, layers, execId, clock, standard, geometry);
    assert layers[..|layers|] == layers;
    if |layers| > 0 {
      LayerEventsAt(layers, 0);
    }
    if ParseUrl(url).Ok? && BASE_FILE in files {
      CommandVerbatim(Options(ParseUrl(url).value, files[BASE_FILE]));
    }
  }

  /** An early failure: when OGR cannot open the file nothing is written. */
  lemma ImportUnopened(w: World, files: map<string, string>, execId: string,
                       clock: nat -> int, url: string, run: string -> ProcOutput,
                       standard: map<string, string>, geometry: map<string, string>)
    ensures ImportRun(w, files, None, execId, clock, url, run, standard, geometry)
         == ImportOutcome(w, Err(TypeError), [])
  {
  }
}
