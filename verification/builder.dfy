/**
 * `WindFarmDBBuilder` of scripts/create_duckdb.py: one DuckDB database per
 * wind farm, filled from the farm's raw directory. The SCADA time series is
 * required; the channel metadata, digital I/O mappings and system modes are
 * optional lookup tables whose absence is only warned about. Indexes and
 * table comments are best effort, and validation warns about empty tables.
 *
 * Each step is specified by a pure function from the catalog it starts from
 * to a `Step`: the new catalog, the statements it issued in order, the
 * warnings it logged, and the error it raised, if any. The builder's methods
 * are proved to do exactly what those functions say, on a `Connection`.
 */
module Builder {
  import opened Outcomes
  import opened Engine
  import FileReaders
  import Quoting
  import opened Sequences

  const ScadaTable := "scada_data"
  const ChannelsTable := "channels_metadata"
  const DigitalIoTable := "digital_io_mappings"
  const SystemModesTable := "system_modes"

  const ScadaFile := "scada_data.parquet"
  const ChannelsFile := "SCADA_Channels_Metadata.csv"
  const DigitalIoFile := "system_digital_io_states_mappings.csv"
  const SystemModesFile := "system_modes_mapping.json"

  /** The argument text every builder reader call carries after the path. */
  const AutoDetectSuffix := ", " + FileReaders.AutoDetectArg

  // ---------------------------------------------------------------------------
  // Where a farm's files live

  datatype Layout = Layout(raw: Path, processed: Path, database: Path)

  /** `raw_path`, `processed_path` and `db_path` for a farm under a base path. */
  function FarmLayout(farm: string, base: Path): Layout
  {
    var processed := base + ["data", "processed"];
    Layout(base + ["data", "raw", farm], processed, processed + [farm + ".duckdb"])
  }

  /**
   * Two farms never share a raw directory or a database file, so building
   * one farm cannot touch another's inputs or output.
   */
  lemma LayoutsSeparate(f1: string, f2: string, base: Path)
    requires f1 != f2
    ensures FarmLayout(f1, base).raw != FarmLayout(f2, base).raw
    ensures FarmLayout(f1, base).database != FarmLayout(f2, base).database
    ensures FarmLayout(f1, base).processed == FarmLayout(f2, base).processed
  {
    var l1, l2 := FarmLayout(f1, base), FarmLayout(f2, base);
    assert l1.raw[|base| + 2] == f1 && l2.raw[|base| + 2] == f2;
    var d1, d2 := f1 + ".duckdb", f2 + ".duckdb";
    assert l1.database[|base| + 2] == d1 && l2.database[|base| + 2] == d2;
    assert d1[..|f1|] == f1 && d2[..|f2|] == f2;
  }

  // ---------------------------------------------------------------------------
  // Steps

  datatype Warning =
    | MissingSource(path: Path)
    | PrimaryKeyFailed(column: string)
    | IndexFailed(name: string)
    | EmptyTable(table: string)

  datatype BuildError = NoParquetFile(directory: Path) | CreateFailed(statement: string)

  /** What a step leaves behind: catalog, statements issued, warnings logged, error raised. */
  datatype Step = Step(db: Database, issued: seq<string>, warnings: seq<Warning>, failure: Option<BuildError>)

  /** `b` run after `a`, on the catalog `a` left. */
  function Then(a: Step, b: Step): Step
  {
    Step(b.db, a.issued + b.issued, a.warnings + b.warnings, b.failure)
  }

  function Lookup(files: Files, p: Path): Option<FileData>
  {
    if p in files then Some(files[p]) else None
  }

  /**
   * `CREATE TABLE t AS SELECT * FROM reader('path'suffix)`; an engine error
   * propagates. The path is written as an escaped literal (see Findings).
   */
  function CreateStep(db: Database, table: string, format: Format, path: Path, suffix: string, files: Files): Step
  {
    var sql := FileReaders.SourceQuery(table, format, path, suffix);
    var (db', ok) := CreateTable(db, table, format, Lookup(files, path), false);
    if ok then Step(db', [sql], [], None) else Step(db, [sql], [], Some(CreateFailed(sql)))
  }

  /**
   * The statement names the file in an escaped literal; it succeeds exactly
   * when the name is free and the file exists and is of the reader's format,
   * and then adds just that table; otherwise it raises and changes nothing.
   */
  lemma CreateStepOutcome(db: Database, table: string, format: Format, path: Path, suffix: string, files: Files)
    requires format != Excel
    ensures var r := CreateStep(db, table, format, path, suffix, files);
      r.issued == [FileReaders.SourceQuery(table, format, path, suffix)] && r.warnings == [] &&
      (r.failure.None? <==> table !in db.tables && path in files && files[path].Readable? && files[path].format == format) &&
      (r.failure.None? ==> r.db == db.(tables := db.tables[table := files[path].table])) &&
      (r.failure.Some? ==> r.db == db && r.failure == Some(CreateFailed(r.issued[0])))
  {
  }

  /** The parquet file the SCADA table comes from: the conventional name, else the first listed. */
  function ScadaSource(raw: Path, files: Files, parquetFiles: seq<Path>): Option<Path>
  {
    var preferred := raw + [ScadaFile];
    if preferred in files then Some(preferred)
    else if parquetFiles != [] then Some(parquetFiles[0])
    else None
  }

  /** `_create_scada_data_table`. */
  function ScadaStep(db: Database, raw: Path, files: Files, parquetFiles: seq<Path>): Step
  {
    match ScadaSource(raw, files, parquetFiles)
    case None => Step(db, [], [], Some(NoParquetFile(raw)))
    case Some(p) =>
      var c := CreateStep(db, ScadaTable, Parquet, p, "", files);
      if c.failure.Some? then c else Step(c.db, c.issued + [CountSql(ScadaTable)], [], None)
  }

  /**
   * Without a parquet file the SCADA step raises before issuing anything.
   * Otherwise it never warns, only ever adds the SCADA table, and on success
   * that table holds the chosen file's data and its rows are counted.
   */
  lemma ScadaStepOutcome(db: Database, raw: Path, files: Files, parquetFiles: seq<Path>)
    ensures var r := ScadaStep(db, raw, files, parquetFiles);
      (ScadaSource(raw, files, parquetFiles).None? ==> r == Step(db, [], [], Some(NoParquetFile(raw)))) &&
      r.warnings == [] && (r.failure.Some? ==> r.db == db) &&
      Extends(db, r.db, {ScadaTable}) && r.db.indexes == db.indexes && r.db.comments == db.comments
    ensures var r := ScadaStep(db, raw, files, parquetFiles);
      r.failure.None? ==>
        var p := ScadaSource(raw, files, parquetFiles).value;
        ScadaTable !in db.tables && p in files && files[p].Readable? &&
        r.db == db.(tables := db.tables[ScadaTable := files[p].table]) &&
        r.issued == [FileReaders.SourceQuery(ScadaTable, Parquet, p, ""), CountSql(ScadaTable)]
  {
    if ScadaSource(raw, files, parquetFiles).Some? {
      CreateStepOutcome(db, ScadaTable, Parquet, ScadaSource(raw, files, parquetFiles).value, "", files);
    }
  }

  /** The column the metadata table is keyed on: `channel_id` if present, else `id`. */
  function KeyColumn(columns: seq<string>): (r: Option<string>)
    ensures r.Some? <==> "channel_id" in columns || "id" in columns
    ensures r.Some? ==> r.value in columns
    ensures r == Some("id") ==> "channel_id" !in columns
  {
    if "channel_id" in columns then Some("channel_id")
    else if "id" in columns then Some("id")
    else None
  }

  /** Describe the metadata table and try to add its primary key; a refusal is only warned about. */
  function KeyStep(db: Database): Step
    requires ChannelsTable in db.tables
  {
    var describe := DescribeSql(ChannelsTable);
    match KeyColumn(db.tables[ChannelsTable].columns)
    case None => Step(db, [describe], [], None)
    case Some(k) =>
      var (db', ok) := AddPrimaryKey(db, ChannelsTable, k);
      Step(db', [describe, PrimaryKeySql(ChannelsTable, k)], if ok then [] else [PrimaryKeyFailed(k)], None)
  }

  /**
   * Keying the metadata table touches only its primary key: `channel_id` if
   * present, else `id`; a key the engine refuses is warned about and leaves
   * the keys as they were.
   */
  lemma KeyStepOutcome(db: Database)
    requires ChannelsTable in db.tables
    ensures var r := KeyStep(db);
      var key := KeyColumn(db.tables[ChannelsTable].columns);
      var accepted := key.Some? && ChannelsTable !in db.primaryKeys && key.value in db.tables[ChannelsTable].uniqueColumns;
      r.db.tables == db.tables && r.db.indexes == db.indexes && r.db.comments == db.comments && r.failure.None? &&
      (accepted ==> r.db.primaryKeys == db.primaryKeys[ChannelsTable := key.value] && r.warnings == []) &&
      (!accepted ==> r.db.primaryKeys == db.primaryKeys) &&
      (key.Some? && !accepted ==> r.warnings == [PrimaryKeyFailed(key.value)]) &&
      (key.None? ==> r.warnings == []) &&
      r.issued == [DescribeSql(ChannelsTable)] + (if key.Some? then [PrimaryKeySql(ChannelsTable, key.value)] else [])
  {
  }

  /** `_create_channels_metadata_table`. */
  function ChannelsStep(db: Database, raw: Path, files: Files): Step
  {
    var p := raw + [ChannelsFile];
    if p !in files then Step(db, [], [MissingSource(p)], None)
    else
      var c := CreateStep(db, ChannelsTable, Csv, p, AutoDetectSuffix, files);
      if c.failure.Some? then c
      else
        var k := KeyStep(c.db);
        Step(k.db, c.issued + k.issued + [CountSql(ChannelsTable)], k.warnings, None)
  }

  /**
   * A missing metadata file is only warned about, a failed load changes
   * nothing, and only the metadata table is ever added.
   */
  lemma ChannelsStepOutcome(db: Database, raw: Path, files: Files)
    ensures var r := ChannelsStep(db, raw, files);
      (raw + [ChannelsFile] !in files ==> r == Step(db, [], [MissingSource(raw + [ChannelsFile])], None)) &&
      (r.failure.Some? ==> r.db == db && r.warnings == []) &&
      Extends(db, r.db, {ChannelsTable}) && r.db.indexes == db.indexes && r.db.comments == db.comments
  {
    var p := raw + [ChannelsFile];
    if p in files {
      CreateStepOutcome(db, ChannelsTable, Csv, p, AutoDetectSuffix, files);
      var c := CreateStep(db, ChannelsTable, Csv, p, AutoDetectSuffix, files);
      if c.failure.None? {
        KeyStepOutcome(c.db);
      }
    }
  }

  /**
   * Once the metadata table is loaded, it is keyed on `channel_id` if it has
   * that column and on `id` otherwise; a key the engine refuses is warned
   * about and leaves the keys as they were.
   */
  lemma ChannelsStepKeyed(db: Database, raw: Path, files: Files)
    ensures var r := ChannelsStep(db, raw, files);
      raw + [ChannelsFile] in files && r.failure.None? ==>
        var data := files[raw + [ChannelsFile]];
        data.Readable? && ChannelsTable !in db.tables && r.db.tables == db.tables[ChannelsTable := data.table] &&
        var key := KeyColumn(data.table.columns);
        (key.None? ==> r.db.primaryKeys == db.primaryKeys && r.warnings == []) &&
        (key.Some? && ChannelsTable !in db.primaryKeys && key.value in data.table.uniqueColumns ==>
          r.db.primaryKeys == db.primaryKeys[ChannelsTable := key.value] && r.warnings == []) &&
        (key.Some? && !(ChannelsTable !in db.primaryKeys && key.value in data.table.uniqueColumns) ==>
          r.db.primaryKeys == db.primaryKeys && r.warnings == [PrimaryKeyFailed(key.value)]) &&
        r.issued == [FileReaders.SourceQuery(ChannelsTable, Csv, raw + [ChannelsFile], AutoDetectSuffix),
                     DescribeSql(ChannelsTable)] +
                    (if key.Some? then [PrimaryKeySql(ChannelsTable, key.value)] else []) + [CountSql(ChannelsTable)]
  {
    var p := raw + [ChannelsFile];
    if p in files {
      CreateStepOutcome(db, ChannelsTable, Csv, p, AutoDetectSuffix, files);
      var c := CreateStep(db, ChannelsTable, Csv, p, AutoDetectSuffix, files);
      if c.failure.None? {
        KeyStepOutcome(c.db);
        var k := KeyStep(c.db);
        AppendAssoc(c.issued, [DescribeSql(ChannelsTable)], k.issued[1..]);
        assert k.issued == [DescribeSql(ChannelsTable)] + k.issued[1..];
      }
    }
  }

  /** `_create_digital_io_table` and `_create_system_modes_table`: an optional lookup table. */
  function OptionalStep(db: Database, raw: Path, files: Files, fileName: string, table: string, format: Format): Step
  {
    var p := raw + [fileName];
    if p !in files then Step(db, [], [MissingSource(p)], None)
    else
      var c := CreateStep(db, table, format, p, AutoDetectSuffix, files);
      if c.failure.Some? then c else Step(c.db, c.issued + [CountSql(table)], [], None)
  }

  /**
   * A missing lookup file is only warned about. Otherwise the table is
   * created from it and counted, and only that table is ever added.
   */
  lemma OptionalStepOutcome(db: Database, raw: Path, files: Files, fileName: string, table: string, format: Format)
    requires format != Excel
    ensures var r := OptionalStep(db, raw, files, fileName, table, format);
      (raw + [fileName] !in files ==> r == Step(db, [], [MissingSource(raw + [fileName])], None)) &&
      (raw + [fileName] in files ==>
        r.warnings == [] && |r.issued| >= 1 &&
        r.issued[0] == FileReaders.SourceQuery(table, format, raw + [fileName], AutoDetectSuffix)) &&
      (r.failure.Some? ==> r.db == db) &&
      Extends(db, r.db, {table}) && r.db.indexes == db.indexes && r.db.comments == db.comments
    ensures var r := OptionalStep(db, raw, files, fileName, table, format);
      raw + [fileName] in files && r.failure.None? ==>
        table !in db.tables && files[raw + [fileName]].Readable? &&
        r.db == db.(tables := db.tables[table := files[raw + [fileName]].table]) &&
        r.issued == [r.issued[0], CountSql(table)]
  {
    if raw + [fileName] in files {
      CreateStepOutcome(db, table, format, raw + [fileName], AutoDetectSuffix, files);
    }
  }

  /** The four tables, in order; the first error ends the build. */
  function LoadTables(db: Database, raw: Path, files: Files, parquetFiles: seq<Path>): Step
  {
    var s1 := ScadaStep(db, raw, files, parquetFiles);
    if s1.failure.Some? then s1
    else
      var s2 := Then(s1, ChannelsStep(s1.db, raw, files));
      if s2.failure.Some? then s2
      else
        var s3 := Then(s2, OptionalStep(s2.db, raw, files, DigitalIoFile, DigitalIoTable, Csv));
        if s3.failure.Some? then s3
        else Then(s3, OptionalStep(s3.db, raw, files, SystemModesFile, SystemModesTable, Json))
  }

  /** The tables the builder creates. */
  const BuiltTables := {ScadaTable, ChannelsTable, DigitalIoTable, SystemModesTable}

  /** `db'` keeps every table of `db` as it was and adds only tables named in `names`. */
  predicate Extends(db: Database, db': Database, names: set<string>)
  {
    (forall t :: t in db.tables ==> t in db'.tables && db'.tables[t] == db.tables[t]) &&
    (forall t :: t in db'.tables ==> t in db.tables || t in names)
  }

  lemma ExtendsTransitive(a: Database, b: Database, c: Database, m: set<string>, n: set<string>)
    requires Extends(a, b, m) && Extends(b, c, n)
    ensures Extends(a, c, m + n)
  {
  }

  /** An optional table, once the build is past it, holds its file's data if the file exists. */
  predicate LoadedIfPresent(db: Database, raw: Path, files: Files, fileName: string, table: string)
  {
    raw + [fileName] in files ==>
      files[raw + [fileName]].Readable? && table in db.tables && db.tables[table] == files[raw + [fileName]].table
  }

  lemma LoadedStaysLoaded(db: Database, db': Database, names: set<string>, raw: Path, files: Files, fileName: string, table: string)
    requires LoadedIfPresent(db, raw, files, fileName, table) && Extends(db, db', names)
    ensures LoadedIfPresent(db', raw, files, fileName, table)
  {
  }

  /**
   * Loading the tables never drops or alters a table already in the
   * database, adds only the four tables the builder knows, and creates no
   * index or comment.
   */
  lemma {:induction false} LoadTablesExtends(db: Database, raw: Path, files: Files, parquetFiles: seq<Path>)
    ensures var r := LoadTables(db, raw, files, parquetFiles);
      Extends(db, r.db, BuiltTables) && r.db.indexes == db.indexes && r.db.comments == db.comments
  {
    var s1 := ScadaStep(db, raw, files, parquetFiles);
    ScadaStepOutcome(db, raw, files, parquetFiles);
    if s1.failure.None? {
      var s2 := Then(s1, ChannelsStep(s1.db, raw, files));
      ChannelsStepOutcome(s1.db, raw, files);
      ExtendsTransitive(db, s1.db, s2.db, {ScadaTable}, {ChannelsTable});
      if s2.failure.None? {
        var s3 := Then(s2, OptionalStep(s2.db, raw, files, DigitalIoFile, DigitalIoTable, Csv));
        OptionalStepOutcome(s2.db, raw, files, DigitalIoFile, DigitalIoTable, Csv);
        ExtendsTransitive(db, s2.db, s3.db, {ScadaTable, ChannelsTable}, {DigitalIoTable});
        if s3.failure.None? {
          var s4 := Then(s3, OptionalStep(s3.db, raw, files, SystemModesFile, SystemModesTable, Json));
          OptionalStepOutcome(s3.db, raw, files, SystemModesFile, SystemModesTable, Json);
          ExtendsTransitive(db, s3.db, s4.db, {ScadaTable, ChannelsTable, DigitalIoTable}, {SystemModesTable});
        }
      }
    }
  }

  /** Without a parquet file the build stops before it issues any statement. */
  lemma NoParquetStopsLoad(db: Database, raw: Path, files: Files, parquetFiles: seq<Path>)
    requires raw + [ScadaFile] !in files && parquetFiles == []
    ensures LoadTables(db, raw, files, parquetFiles) == Step(db, [], [], Some(NoParquetFile(raw)))
  {
  }

  /**
   * When loading completes, the SCADA table is new and every optional lookup
   * table whose file exists holds that file's data.
   */
  lemma {:induction false} LoadTablesComplete(db: Database, raw: Path, files: Files, parquetFiles: seq<Path>)
    ensures var r := LoadTables(db, raw, files, parquetFiles);
      r.failure.None? ==>
        ScadaTable !in db.tables && ScadaTable in r.db.tables &&
        LoadedIfPresent(r.db, raw, files, ChannelsFile, ChannelsTable) &&
        LoadedIfPresent(r.db, raw, files, DigitalIoFile, DigitalIoTable) &&
        LoadedIfPresent(r.db, raw, files, SystemModesFile, SystemModesTable)
  {
    var s1 := ScadaStep(db, raw, files, parquetFiles);
    ScadaStepOutcome(db, raw, files, parquetFiles);
    if s1.failure.None? {
      var s2 := Then(s1, ChannelsStep(s1.db, raw, files));
      ChannelsStepOutcome(s1.db, raw, files);
      ChannelsStepKeyed(s1.db, raw, files);
      if s2.failure.None? {
        var s3 := Then(s2, OptionalStep(s2.db, raw, files, DigitalIoFile, DigitalIoTable, Csv));
        OptionalStepOutcome(s2.db, raw, files, DigitalIoFile, DigitalIoTable, Csv);
        if s3.failure.None? {
          var s4 := Then(s3, OptionalStep(s3.db, raw, files, SystemModesFile, SystemModesTable, Json));
          OptionalStepOutcome(s3.db, raw, files, SystemModesFile, SystemModesTable, Json);
          LoadedStaysLoaded(s2.db, s3.db, {DigitalIoTable}, raw, files, ChannelsFile, ChannelsTable);
          LoadedStaysLoaded(s3.db, s4.db, {SystemModesTable}, raw, files, ChannelsFile, ChannelsTable);
          LoadedStaysLoaded(s3.db, s4.db, {SystemModesTable}, raw, files, DigitalIoFile, DigitalIoTable);
          assert ScadaTable in s2.db.tables && ScadaTable in s3.db.tables;
        }
      }
    }
  }

  /** Load the tables and, if that completes, index and document them. */
  function Prepare(db: Database, raw: Path, files: Files, parquetFiles: seq<Path>): Step
  {
    var l := LoadTables(db, raw, files, parquetFiles);
    if l.failure.Some? then l
    else
      var i := Then(l, IndexesStep(l.db, IndexPlan));
      Then(i, DocumentStep(i.db, Documentation))
  }

  /**
   * Indexing and documenting change neither the tables, nor their keys, nor
   * the outcome of loading them; they only add statements and warnings.
   */
  lemma PrepareKeepsLoad(db: Database, raw: Path, files: Files, parquetFiles: seq<Path>)
    ensures var l := LoadTables(db, raw, files, parquetFiles);
      var r := Prepare(db, raw, files, parquetFiles);
      r.failure == l.failure && r.db.tables == l.db.tables && r.db.primaryKeys == l.db.primaryKeys &&
      l.issued <= r.issued && l.warnings <= r.warnings
  {
    var l := LoadTables(db, raw, files, parquetFiles);
    if l.failure.None? {
      IndexesPlanOutcome(l.db);
      var i := Then(l, IndexesStep(l.db, IndexPlan));
      DocumentationPlanOutcome(i.db);
    }
  }

  /** The builder's two indexes, on the SCADA table. */
  lemma IndexesPlanOutcome(db: Database)
    ensures var r := IndexesStep(db, IndexPlan);
      r.db.tables == db.tables && r.db.primaryKeys == db.primaryKeys && r.db.comments == db.comments &&
      r.failure.None? &&
      (IndexPlan[0].0 in r.db.indexes <==> IndexPlan[0].0 in db.indexes || Indexable(db, IndexPlan[0])) &&
      (IndexPlan[1].0 in r.db.indexes <==> IndexPlan[1].0 in db.indexes || Indexable(db, IndexPlan[1]))
  {
    assert IndexPlan[0].0 != IndexPlan[1].0;
    assert DistinctIndexNames(IndexPlan);
    IndexesOutcome(db, IndexPlan);
    IndexesKeep(db, IndexPlan);
  }

  /** The builder's four comments. */
  lemma DocumentationPlanOutcome(db: Database)
    ensures var r := DocumentStep(db, Documentation);
      r.db.tables == db.tables && r.db.primaryKeys == db.primaryKeys && r.db.indexes == db.indexes &&
      r.warnings == [] && r.failure.None? &&
      (Documentation[0].0 in db.tables ==>
         (Documentation[0].0 in r.db.comments && r.db.comments[Documentation[0].0] == Documentation[0].1))
  {
    assert DistinctDocumentedTables(Documentation);
    DocumentationOutcome(db, Documentation);
    DocumentationIssued(db, Documentation);
    DocumentStepSilent(db, Documentation);
  }

  /**
   * After a complete build the SCADA table carries its comment, and its
   * timestamp and channel indexes exist exactly when it has those columns and
   * the engine can index them (or the index names were already taken).
   */
  lemma PrepareEnriches(db: Database, raw: Path, files: Files, parquetFiles: seq<Path>)
    ensures var r := Prepare(db, raw, files, parquetFiles);
      r.failure.None? ==>
        ScadaTable in r.db.tables && ScadaTable in r.db.comments &&
        r.db.comments[ScadaTable] == Documentation[0].1 &&
        var scada := r.db.tables[ScadaTable];
        (IndexPlan[0].0 in r.db.indexes <==>
           IndexPlan[0].0 in db.indexes || ("timestamp" in scada.columns && "timestamp" in scada.indexableColumns)) &&
        (IndexPlan[1].0 in r.db.indexes <==>
           IndexPlan[1].0 in db.indexes || ("channel_id" in scada.columns && "channel_id" in scada.indexableColumns))
  {
    var l := LoadTables(db, raw, files, parquetFiles);
    if l.failure.None? {
      LoadTablesExtends(db, raw, files, parquetFiles);
      LoadTablesComplete(db, raw, files, parquetFiles);
      IndexesPlanOutcome(l.db);
      var i := Then(l, IndexesStep(l.db, IndexPlan));
      DocumentationPlanOutcome(i.db);
      assert Indexable(l.db, IndexPlan[0]) <==>
        "timestamp" in l.db.tables[ScadaTable].columns && "timestamp" in l.db.tables[ScadaTable].indexableColumns;
      assert Indexable(l.db, IndexPlan[1]) <==>
        "channel_id" in l.db.tables[ScadaTable].columns && "channel_id" in l.db.tables[ScadaTable].indexableColumns;
    }
  }

  // ---------------------------------------------------------------------------
  // Findings: the path literal

  /**
   * The statement as `_create_scada_data_table` and its three siblings write
   * it: the path's text pasted between quotes unchanged.
   */
  function UnescapedSourceQuery(table: string, format: Format, path: Path, suffix: string): string
  {
    FileReaders.CreateSql(table, format, Render(path), suffix)
  }

  /**
   * For a path without a quote the statement as written and the escaped one
   * are the same text, so for such paths `CreateStep` issues exactly what the
   * four `_create_*` methods issue.
   */
  lemma UnescapedAgreesWithoutQuote(db: Database, table: string, format: Format, path: Path, suffix: string, files: Files)
    requires '\'' !in Render(path)
    ensures UnescapedSourceQuery(table, format, path, suffix) == FileReaders.SourceQuery(table, format, path, suffix)
    ensures CreateStep(db, table, format, path, suffix, files).issued == [UnescapedSourceQuery(table, format, path, suffix)]
  {
  }

  /**
   * When the path holds a quote, the literal of the statement as written
   * ends at that quote: the engine reads a shorter path, and the rest of the
   * path becomes SQL text.
   */
  lemma UnescapedLiteralEndsAtQuote(table: string, format: Format, path: Path, suffix: string, a: string, b: string)
    requires Render(path) == a + "'" + b && '\'' !in a && b != [] && b[0] != '\''
    ensures var q := UnescapedSourceQuery(table, format, path, suffix);
      var n := |FileReaders.QueryPrefix(table, format)| + 1;
      |q| >= n && Quoting.ReadLiteral(q[n..]) == Some((a, b + "'" + suffix + ")")) && a != Render(path)
  {
    Quoting.NoQuoteCountsZero(a);
    Quoting.ReadDoubled(a, b + "'" + suffix + ")");
    var prefix := FileReaders.QueryPrefix(table, format);
    var q := UnescapedSourceQuery(table, format, path, suffix);
    assert q == (prefix + "'") + (Quoting.DoubleQuotes(a) + "'" + (b + "'" + suffix + ")"));
  }

  /** Joining three components, the last of which splits at `q`, regroups around `q`. */
  lemma RegroupJoined(d: string, r: string, o: string, q: string, b: string, f: string, sep: string)
    ensures d + sep + (r + sep + ((o + q + b) + sep + f)) == (d + sep + r + sep + o) + q + (b + sep + f)
  {
    AppendAssoc(o + q + b, sep, f);
    AppendAssoc(o + q, b, sep + f);
    AppendAssoc(o, q, b + sep + f);
  }

  /** The SCADA file of a farm directory named `o'brien`, as `str()` renders it. */
  lemma QuotedFarmPath(path: Path)
    requires path == ["data", "raw", "o'brien", ScadaFile]
    ensures Render(path) == "data/raw/o" + "'" + ("brien/" + ScadaFile)
  {
    var p2 := ["o'brien", ScadaFile];
    var p1 := ["raw"] + p2;
    assert p2[1..] == [ScadaFile] && p1[1..] == p2 && path == ["data"] + p1;
    assert Quoting.Join("/", p2) == "o'brien" + "/" + ScadaFile;
    assert Quoting.Join("/", p1) == "raw" + "/" + Quoting.Join("/", p2);
    assert "o'brien" == "o" + "'" + "brien";
    RegroupJoined("data", "raw", "o", "'", "brien", ScadaFile, "/");
    assert "data/raw/o" == "data" + "/" + "raw" + "/" + "o";
    assert "brien/" + ScadaFile == "brien" + "/" + ScadaFile;
  }

  /**
   * A farm directory named `o'brien`: as written, the SCADA statement's
   * literal denotes the path `data/raw/o`, and the rest of the path is left
   * over as SQL text.
   */
  lemma QuotedFarmDirectory(path: Path)
    requires path == ["data", "raw", "o'brien", ScadaFile]
    ensures var n := |FileReaders.QueryPrefix(ScadaTable, Parquet)| + 1;
      Quoting.ReadLiteral(UnescapedSourceQuery(ScadaTable, Parquet, path, "")[n..]) ==
        Some(("data/raw/o", "brien/" + ScadaFile + "')"))
  {
    QuotedFarmPath(path);
    var a, b := "data/raw/o", "brien/" + ScadaFile;
    assert '\'' !in a;
    UnescapedLiteralEndsAtQuote(ScadaTable, Parquet, path, "", a, b);
    assert b + "'" + "" + ")" == "brien/" + ScadaFile + "')";
  }

  /** With the path escaped, the same statement's literal denotes the whole path, quote included. */
  lemma QuotedFarmDirectoryEscaped(path: Path)
    requires path == ["data", "raw", "o'brien", ScadaFile]
    ensures var n := |FileReaders.QueryPrefix(ScadaTable, Parquet)| + 1;
      Quoting.ReadLiteral(FileReaders.SourceQuery(ScadaTable, Parquet, path, "")[n..]) ==
        Some(("data/raw/o" + "'" + ("brien/" + ScadaFile), ")"))
  {
    QuotedFarmPath(path);
    assert "" + ")" == ")";
  }

  // ---------------------------------------------------------------------------
  // Indexes

  /** `(index name, table, column)` for each index `_create_indexes` tries. */
  const IndexPlan: seq<(string, string, string)> :=
    [("idx_scada_timestamp", ScadaTable, "timestamp"), ("idx_scada_channel", ScadaTable, "channel_id")]

  /**
   * One planned index: `DESCRIBE` the table (a missing table is an error that
   * is only warned about), then create the index if the column is there (a
   * refusal is also only warned about).
   */
  function IndexStep(db: Database, name: string, table: string, column: string): Step
  {
    var describe := DescribeSql(table);
    if table !in db.tables then Step(db, [describe], [IndexFailed(name)], None)
    else if column !in db.tables[table].columns then Step(db, [describe], [], None)
    else
      var (db', ok) := CreateIndex(db, name, table, column);
      Step(db', [describe, IndexSql(name, table, column)], if ok then [] else [IndexFailed(name)], None)
  }

  function IndexesStep(db: Database, plan: seq<(string, string, string)>): Step
    decreases |plan|
  {
    if plan == [] then Step(db, [], [], None)
    else
      var s := IndexesStep(db, plan[..|plan| - 1]);
      var e := plan[|plan| - 1];
      Then(s, IndexStep(s.db, e.0, e.1, e.2))
  }

  function IndexNames(plan: seq<(string, string, string)>): set<string>
  {
    set i | 0 <= i < |plan| :: plan[i].0
  }

  predicate DistinctIndexNames(plan: seq<(string, string, string)>)
  {
    forall i, j :: 0 <= i < j < |plan| ==> plan[i].0 != plan[j].0
  }

  /** Whether `_create_indexes` issues the planned `CREATE INDEX`: its table has the column. */
  predicate Attempted(db: Database, e: (string, string, string))
  {
    e.1 in db.tables && e.2 in db.tables[e.1].columns
  }

  /** Whether the planned index `e` can be created on `db`'s tables: it is attempted on a column the engine can index. */
  predicate Indexable(db: Database, e: (string, string, string))
  {
    Attempted(db, e) && e.2 in db.tables[e.1].indexableColumns
  }

  /** One planned index: what `IndexStep` does to the catalog and what it warns about. */
  lemma IndexStepOutcome(db: Database, e: (string, string, string))
    ensures var r := IndexStep(db, e.0, e.1, e.2);
      r.db.tables == db.tables && r.db.primaryKeys == db.primaryKeys && r.db.comments == db.comments &&
      r.failure.None? &&
      (forall n :: n in db.indexes ==> n in r.db.indexes && r.db.indexes[n] == db.indexes[n]) &&
      (forall n :: n in r.db.indexes && n !in db.indexes ==> n == e.0) &&
      (e.0 in r.db.indexes <==> e.0 in db.indexes || Indexable(db, e)) &&
      (e.0 !in db.indexes && Indexable(db, e) ==> r.db.indexes[e.0] == Index(e.1, e.2)) &&
      (forall w :: w in r.warnings ==> w == IndexFailed(e.0)) &&
      (IndexFailed(e.0) in r.warnings <==>
         e.1 !in db.tables || (Attempted(db, e) && (e.0 in db.indexes || !Indexable(db, e))))
  {
  }

  /**
   * Indexing touches nothing but indexes: every index that existed stays as
   * it was, a new one bears a planned name, and every warning names a
   * planned index.
   */
  lemma {:induction false} IndexesKeep(db: Database, plan: seq<(string, string, string)>)
    ensures var r := IndexesStep(db, plan);
      r.db.tables == db.tables && r.db.primaryKeys == db.primaryKeys && r.db.comments == db.comments &&
      r.failure.None? &&
      (forall n :: n in db.indexes ==> n in r.db.indexes && r.db.indexes[n] == db.indexes[n]) &&
      (forall n :: n in r.db.indexes && n !in db.indexes ==> n in IndexNames(plan)) &&
      (forall w :: w in r.warnings ==> w.IndexFailed? && w.name in IndexNames(plan))
    decreases |plan|
  {
    if plan != [] {
      var init := plan[..|plan| - 1];
      var e := plan[|plan| - 1];
      IndexesKeep(db, init);
      IndexStepOutcome(IndexesStep(db, init).db, e);
      assert IndexNames(plan) == IndexNames(init) + {e.0} by {
        assert forall i :: 0 <= i < |init| ==> plan[i].0 == init[i].0;
      }
    }
  }

  /**
   * Each planned index exists afterwards exactly when it already did or its
   * table has its column and the engine can index that column, and a fresh
   * one is on that table and column. It is warned about exactly when the
   * table is missing, or the CREATE INDEX was issued and refused (the name
   * was taken or the column cannot be indexed).
   */
  lemma {:induction false} IndexesOutcome(db: Database, plan: seq<(string, string, string)>)
    requires DistinctIndexNames(plan)
    ensures var r := IndexesStep(db, plan);
      forall i :: 0 <= i < |plan| ==>
        (plan[i].0 in r.db.indexes <==> plan[i].0 in db.indexes || Indexable(db, plan[i])) &&
        (plan[i].0 !in db.indexes && Indexable(db, plan[i]) ==> r.db.indexes[plan[i].0] == Index(plan[i].1, plan[i].2)) &&
        (IndexFailed(plan[i].0) in r.warnings <==>
           plan[i].1 !in db.tables || (Attempted(db, plan[i]) && (plan[i].0 in db.indexes || !Indexable(db, plan[i]))))
    decreases |plan|
  {
    if plan != [] {
      var init := plan[..|plan| - 1];
      var e := plan[|plan| - 1];
      assert DistinctIndexNames(init);
      IndexesOutcome(db, init);
      IndexesKeep(db, init);
      var s := IndexesStep(db, init);
      IndexStepOutcome(s.db, e);
      assert forall i :: 0 <= i < |init| ==> init[i] == plan[i];
      assert e.0 !in IndexNames(init) by {
        forall i | 0 <= i < |init| ensures init[i].0 != e.0 {
          assert init[i] == plan[i];
        }
      }
      assert e.0 in s.db.indexes <==> e.0 in db.indexes;
      assert Indexable(s.db, e) == Indexable(db, e);
      assert Attempted(s.db, e) == Attempted(db, e);
    }
  }

  // ---------------------------------------------------------------------------
  // Documentation

  /** `(table, comment)` in the order `_add_documentation` writes them. */
  const Documentation: seq<(string, string)> := [
    (ScadaTable, "Time series data from SCADA system"),
    (ChannelsTable, "Lookup table: channel definitions and metadata"),
    (DigitalIoTable, "Lookup table: digital I/O state descriptions"),
    (SystemModesTable, "Lookup table: system operating mode definitions")
  ]

  /** Comment each table in turn; a failure is swallowed without a warning. */
  function DocumentStep(db: Database, plan: seq<(string, string)>): Step
    decreases |plan|
  {
    if plan == [] then Step(db, [], [], None)
    else
      var s := DocumentStep(db, plan[..|plan| - 1]);
      var e := plan[|plan| - 1];
      Then(s, Step(CommentOn(s.db, e.0, e.1).0, [CommentSql(e.0, e.1)], [], None))
  }

  /** Documenting never warns and never fails: a comment the engine refuses is skipped. */
  lemma {:induction false} DocumentStepSilent(db: Database, plan: seq<(string, string)>)
    ensures DocumentStep(db, plan).warnings == [] && DocumentStep(db, plan).failure.None?
    decreases |plan|
  {
    if plan != [] {
      DocumentStepSilent(db, plan[..|plan| - 1]);
    }
  }

  function DocumentedTables(plan: seq<(string, string)>): set<string>
  {
    set i | 0 <= i < |plan| :: plan[i].0
  }

  predicate DistinctDocumentedTables(plan: seq<(string, string)>)
  {
    forall i, j :: 0 <= i < j < |plan| ==> plan[i].0 != plan[j].0
  }

  /** One comment: set on an existing table, silently skipped otherwise. */
  lemma CommentStepOutcome(db: Database, e: (string, string))
    ensures var r := CommentOn(db, e.0, e.1).0;
      r.tables == db.tables && r.primaryKeys == db.primaryKeys && r.indexes == db.indexes &&
      (forall t :: t in db.comments && t != e.0 ==> t in r.comments && r.comments[t] == db.comments[t]) &&
      (forall t :: t in r.comments && t != e.0 ==> t in db.comments) &&
      (e.0 in db.tables ==> e.0 in r.comments && r.comments[e.0] == e.1) &&
      (e.0 !in db.tables ==> r.comments == db.comments)
  {
  }

  /**
   * Documentation issues one comment statement per planned table, in order,
   * and changes neither the tables, nor their keys, nor the indexes.
   */
  lemma {:induction false} DocumentationIssued(db: Database, plan: seq<(string, string)>)
    ensures var r := DocumentStep(db, plan);
      r.db.tables == db.tables && r.db.primaryKeys == db.primaryKeys && r.db.indexes == db.indexes &&
      |r.issued| == |plan| && (forall i :: 0 <= i < |plan| ==> r.issued[i] == CommentSql(plan[i].0, plan[i].1))
    decreases |plan|
  {
    if plan != [] {
      var init := plan[..|plan| - 1];
      DocumentationIssued(db, init);
      assert forall i :: 0 <= i < |init| ==> init[i] == plan[i];
    }
  }

  /**
   * Each planned table that exists gets its comment, a planned table that
   * does not keeps whatever it had, and every other comment stays as it was.
   */
  lemma {:induction false} DocumentationOutcome(db: Database, plan: seq<(string, string)>)
    requires DistinctDocumentedTables(plan)
    ensures var r := DocumentStep(db, plan);
      (forall t :: t in db.comments && t !in DocumentedTables(plan) ==> t in r.db.comments && r.db.comments[t] == db.comments[t]) &&
      (forall t :: t in r.db.comments && t !in DocumentedTables(plan) ==> t in db.comments)
    ensures var r := DocumentStep(db, plan);
      forall i :: 0 <= i < |plan| ==>
        (plan[i].0 in db.tables ==> plan[i].0 in r.db.comments && r.db.comments[plan[i].0] == plan[i].1) &&
        (plan[i].0 !in db.tables ==> (plan[i].0 in r.db.comments <==> plan[i].0 in db.comments))
    decreases |plan|
  {
    if plan != [] {
      var init := plan[..|plan| - 1];
      var e := plan[|plan| - 1];
      assert DistinctDocumentedTables(init);
      DocumentationOutcome(db, init);
      DocumentationIssued(db, init);
      var s := DocumentStep(db, init);
      CommentStepOutcome(s.db, e);
      assert forall i :: 0 <= i < |init| ==> init[i] == plan[i];
      assert e.0 !in DocumentedTables(init) by {
        forall i | 0 <= i < |init| ensures init[i].0 != e.0 {
          assert init[i] == plan[i];
        }
      }
      assert e.0 in s.db.comments <==> e.0 in db.comments;
      assert DocumentedTables(plan) == DocumentedTables(init) + {e.0} by {
        assert forall i :: 0 <= i < |init| ==> plan[i].0 == init[i].0;
      }
    }
  }

  // ---------------------------------------------------------------------------
  // Validation

  function CountStatements(listed: seq<string>): (r: seq<string>)
    ensures |r| == |listed|
    decreases |listed|
  {
    if listed == [] then []
    else CountStatements(listed[..|listed| - 1]) + [CountSql(listed[|listed| - 1])]
  }

  function EmptyTables(db: Database, listed: seq<string>): seq<Warning>
    decreases |listed|
  {
    if listed == [] then []
    else
      var t := listed[|listed| - 1];
      EmptyTables(db, listed[..|listed| - 1]) + (if t in db.tables && db.tables[t].rows == 0 then [EmptyTable(t)] else [])
  }

  /** `_validate_database` over the tables `SHOW TABLES` listed, in its order. */
  function ValidateStep(db: Database, listed: seq<string>): Step
  {
    Step(db, [ShowTablesSql] + CountStatements(listed), EmptyTables(db, listed), None)
  }

  /**
   * Validation changes nothing, counts every listed table in order, and
   * warns about a table exactly when it is listed and has no rows.
   */
  lemma {:induction false} ValidationOutcome(db: Database, listed: seq<string>)
    ensures var r := ValidateStep(db, listed);
      r.db == db && r.failure.None? && |r.issued| == |listed| + 1 && r.issued[0] == ShowTablesSql &&
      (forall i :: 0 <= i < |listed| ==> r.issued[i + 1] == CountSql(listed[i])) &&
      (forall w :: w in r.warnings ==> w.EmptyTable?) &&
      (forall t :: EmptyTable(t) in r.warnings <==> t in listed && t in db.tables && db.tables[t].rows == 0)
    decreases |listed|
  {
    if listed != [] {
      var init := listed[..|listed| - 1];
      ValidationOutcome(db, init);
      assert forall i :: 0 <= i < |init| ==> init[i] == listed[i];
      assert listed == init + [listed[|listed| - 1]];
    }
  }

  // ---------------------------------------------------------------------------
  // The builder

  predicate Distinct(xs: seq<string>)
  {
    forall i, j :: 0 <= i < j < |xs| ==> xs[i] != xs[j]
  }

  /** `WindFarmDBBuilder`: a farm's name and the paths derived from it. */
  class WindFarmDBBuilder {
    const farmName: string
    const basePath: Path
    const rawPath: Path
    const processedPath: Path
    const dbPath: Path

    /** `__init__`; creating the processed directory on disk is not modelled. */
    constructor (farmName: string, basePath: Path)
      ensures this.farmName == farmName && this.basePath == basePath
      ensures Layout(rawPath, processedPath, dbPath) == FarmLayout(farmName, basePath)
    {
      this.farmName := farmName;
      this.basePath := basePath;
      rawPath := basePath + ["data", "raw", farmName];
      processedPath := basePath + ["data", "processed"];
      dbPath := basePath + ["data", "processed"] + [farmName + ".duckdb"];
    }

    /** `CREATE TABLE t AS SELECT * FROM reader('path'suffix)`, the statement each `_create_*` method runs. */
    method CreateFrom(con: Connection, files: Files, path: Path, table: string, format: Format, suffix: string)
      returns (failure: Option<BuildError>)
      requires con.isOpen && format != Excel
      modifies con
      ensures var s := CreateStep(old(con.Catalog()), table, format, path, suffix, files);
        con.Catalog() == s.db && con.log == old(con.log) + s.issued && failure == s.failure
      ensures con.Session() == old(con.Session())
    {
      var sql := FileReaders.CreateSql(table, format, FileReaders.EscapePath(path), suffix);
      var ok := con.CreateTableAs(table, format, Lookup(files, path), sql);
      failure := if ok then None else Some(CreateFailed(sql));
    }

    /** `_create_scada_data_table`. */
    method CreateScadaDataTable(con: Connection, files: Files, parquetFiles: seq<Path>) returns (failure: Option<BuildError>)
      requires con.isOpen
      modifies con
      ensures var s := ScadaStep(old(con.Catalog()), rawPath, files, parquetFiles);
        con.Catalog() == s.db && con.log == old(con.log) + s.issued && failure == s.failure
      ensures con.Session() == old(con.Session())
    {
      var parquetFile := rawPath + [ScadaFile];
      if parquetFile !in files {
        if parquetFiles == [] {
          return Some(NoParquetFile(rawPath));
        }
        parquetFile := parquetFiles[0];
      }
      failure := CreateFrom(con, files, parquetFile, ScadaTable, Parquet, "");
      if failure.None? {
        var rows := con.Count(ScadaTable);
      }
    }

    /** The `try` block of `_create_channels_metadata_table`: describe, then key on `channel_id` or `id`. */
    method AddChannelsKey(con: Connection) returns (warnings: seq<Warning>)
      requires con.isOpen && ChannelsTable in con.tables
      modifies con
      ensures var s := KeyStep(old(con.Catalog()));
        con.Catalog() == s.db && con.log == old(con.log) + s.issued && warnings == s.warnings
      ensures con.Session() == old(con.Session())
    {
      var columns := con.Describe(ChannelsTable);
      warnings := [];
      var key: Option<string> := None;
      if "channel_id" in columns.value {
        key := Some("channel_id");
      } else if "id" in columns.value {
        key := Some("id");
      }
      if key.Some? {
        var keyed := con.AddPrimaryKeyTo(ChannelsTable, key.value);
        if !keyed {
          warnings := [PrimaryKeyFailed(key.value)];
        }
      }
    }

    /** `_create_channels_metadata_table`. */
    method CreateChannelsMetadataTable(con: Connection, files: Files) returns (warnings: seq<Warning>, failure: Option<BuildError>)
      requires con.isOpen
      modifies con
      ensures var s := ChannelsStep(old(con.Catalog()), rawPath, files);
        con.Catalog() == s.db && con.log == old(con.log) + s.issued && warnings == s.warnings && failure == s.failure
      ensures con.Session() == old(con.Session())
    {
      var csvFile := rawPath + [ChannelsFile];
      if csvFile !in files {
        return [MissingSource(csvFile)], None;
      }
      ghost var log0 := con.log;
      ghost var c := CreateStep(con.Catalog(), ChannelsTable, Csv, csvFile, AutoDetectSuffix, files);
      failure := CreateFrom(con, files, csvFile, ChannelsTable, Csv, AutoDetectSuffix);
      if failure.Some? {
        return [], failure;
      }
      ghost var k := KeyStep(c.db);
      warnings := AddChannelsKey(con);
      var rows := con.Count(ChannelsTable);
      AppendAssoc(log0, c.issued, k.issued);
      AppendAssoc(log0, c.issued + k.issued, [CountSql(ChannelsTable)]);
    }

    /** The body shared by `_create_digital_io_table` and `_create_system_modes_table`. */
    method CreateLookupTable(con: Connection, files: Files, fileName: string, table: string, format: Format)
      returns (warnings: seq<Warning>, failure: Option<BuildError>)
      requires con.isOpen && format != Excel
      modifies con
      ensures var s := OptionalStep(old(con.Catalog()), rawPath, files, fileName, table, format);
        con.Catalog() == s.db && con.log == old(con.log) + s.issued && warnings == s.warnings && failure == s.failure
      ensures con.Session() == old(con.Session())
    {
      var file := rawPath + [fileName];
      if file !in files {
        return [MissingSource(file)], None;
      }
      warnings := [];
      failure := CreateFrom(con, files, file, table, format, AutoDetectSuffix);
      if failure.None? {
        var rows := con.Count(table);
      }
    }

    /** `_create_digital_io_table`. */
    method CreateDigitalIoTable(con: Connection, files: Files) returns (warnings: seq<Warning>, failure: Option<BuildError>)
      requires con.isOpen
      modifies con
      ensures var s := OptionalStep(old(con.Catalog()), rawPath, files, DigitalIoFile, DigitalIoTable, Csv);
        con.Catalog() == s.db && con.log == old(con.log) + s.issued && warnings == s.warnings && failure == s.failure
      ensures con.Session() == old(con.Session())
    {
      warnings, failure := CreateLookupTable(con, files, DigitalIoFile, DigitalIoTable, Csv);
    }

    /** `_create_system_modes_table`. */
    method CreateSystemModesTable(con: Connection, files: Files) returns (warnings: seq<Warning>, failure: Option<BuildError>)
      requires con.isOpen
      modifies con
      ensures var s := OptionalStep(old(con.Catalog()), rawPath, files, SystemModesFile, SystemModesTable, Json);
        con.Catalog() == s.db && con.log == old(con.log) + s.issued && warnings == s.warnings && failure == s.failure
      ensures con.Session() == old(con.Session())
    {
      warnings, failure := CreateLookupTable(con, files, SystemModesFile, SystemModesTable, Json);
    }

    /** One entry of `_create_indexes`. */
    method CreateIndex(con: Connection, name: string, table: string, column: string) returns (warnings: seq<Warning>)
      requires con.isOpen
      modifies con
      ensures var s := IndexStep(old(con.Catalog()), name, table, column);
        con.Catalog() == s.db && con.log == old(con.log) + s.issued && warnings == s.warnings
      ensures con.Session() == old(con.Session())
    {
      warnings := [];
      var columns := con.Describe(table);
      if columns.None? {
        warnings := [IndexFailed(name)];
      } else if column in columns.value {
        var ok := con.CreateIndexOn(name, table, column);
        if !ok {
          warnings := [IndexFailed(name)];
        }
      }
    }

    /** `_create_indexes`. */
    method CreateIndexes(con: Connection) returns (warnings: seq<Warning>)
      requires con.isOpen
      modifies con
      ensures var s := IndexesStep(old(con.Catalog()), IndexPlan);
        con.Catalog() == s.db && con.log == old(con.log) + s.issued && warnings == s.warnings
      ensures con.Session() == old(con.Session())
    {
      warnings := [];
      ghost var log0 := con.log;
      var k := 0;
      while k < |IndexPlan|
        invariant 0 <= k <= |IndexPlan| && con.Session() == old(con.Session())
        invariant var s := IndexesStep(old(con.Catalog()), IndexPlan[..k]);
          con.Catalog() == s.db && con.log == log0 + s.issued && warnings == s.warnings
      {
        ghost var s := IndexesStep(old(con.Catalog()), IndexPlan[..k]);
        var (name, table, column) := IndexPlan[k];
        var w := CreateIndex(con, name, table, column);
        ghost var t := IndexStep(s.db, name, table, column);
        assert IndexPlan[..k + 1][..k] == IndexPlan[..k];
        assert IndexesStep(old(con.Catalog()), IndexPlan[..k + 1]) == Then(s, t);
        AppendAssoc(log0, s.issued, t.issued);
        warnings := warnings + w;
        k := k + 1;
      }
      assert IndexPlan[..k] == IndexPlan;
    }

    /** `_add_documentation`. */
    method AddDocumentation(con: Connection)
      requires con.isOpen
      modifies con
      ensures var s := DocumentStep(old(con.Catalog()), Documentation);
        con.Catalog() == s.db && con.log == old(con.log) + s.issued
      ensures con.Session() == old(con.Session())
    {
      var k := 0;
      while k < |Documentation|
        invariant 0 <= k <= |Documentation| && con.Session() == old(con.Session())
        invariant var s := DocumentStep(old(con.Catalog()), Documentation[..k]);
          con.Catalog() == s.db && con.log == old(con.log) + s.issued
      {
        var (table, comment) := Documentation[k];
        var _ := con.CommentOnTable(table, comment);
        assert Documentation[..k + 1][..k] == Documentation[..k];
        k := k + 1;
      }
      assert Documentation[..k] == Documentation;
    }

    /** `_validate_database`: the tables as `SHOW TABLES` lists them, and the warnings. */
    method ValidateDatabase(con: Connection) returns (listed: seq<string>, warnings: seq<Warning>)
      requires con.isOpen
      modifies con
      ensures (set t | t in listed) == old(con.Catalog()).tables.Keys && Distinct(listed)
      ensures var s := ValidateStep(old(con.Catalog()), listed);
        con.Catalog() == s.db && con.log == old(con.log) + s.issued && warnings == s.warnings
      ensures con.Session() == old(con.Session())
    {
      listed := con.ShowTables();
      warnings := [];
      var k := 0;
      while k < |listed|
        invariant 0 <= k <= |listed| && con.Session() == old(con.Session())
        invariant con.Catalog() == old(con.Catalog())
        invariant con.log == old(con.log) + [ShowTablesSql] + CountStatements(listed[..k])
        invariant warnings == EmptyTables(con.Catalog(), listed[..k])
      {
        assert listed[k] in (set t | t in listed);
        var rows := con.Count(listed[k]);
        if rows == 0 {
          warnings := warnings + [EmptyTable(listed[k])];
        }
        assert listed[..k + 1][..k] == listed[..k];
        assert CountStatements(listed[..k + 1]) == CountStatements(listed[..k]) + [CountSql(listed[k])];
        AppendAssoc(old(con.log) + [ShowTablesSql], CountStatements(listed[..k]), [CountSql(listed[k])]);
        k := k + 1;
      }
      assert listed[..k] == listed;
      AppendAssoc(old(con.log), [ShowTablesSql], CountStatements(listed));
    }

    /** The four `_create_*` calls at the head of `build`; the first error stops them. */
    method CreateTables(con: Connection, files: Files, parquetFiles: seq<Path>)
      returns (warnings: seq<Warning>, failure: Option<BuildError>)
      requires con.isOpen
      modifies con
      ensures var s := LoadTables(old(con.Catalog()), rawPath, files, parquetFiles);
        con.Catalog() == s.db && con.log == old(con.log) + s.issued && warnings == s.warnings && failure == s.failure
      ensures con.Session() == old(con.Session())
    {
      ghost var l := LoadTables(old(con.Catalog()), rawPath, files, parquetFiles);
      ghost var log0 := con.log;
      ghost var s := ScadaStep(old(con.Catalog()), rawPath, files, parquetFiles);
      warnings := [];
      failure := CreateScadaDataTable(con, files, parquetFiles);
      if failure.Some? {
        assert l == s;
        return;
      }
      ghost var t := ChannelsStep(s.db, rawPath, files);
      var w;
      w, failure := CreateChannelsMetadataTable(con, files);
      AppendAssoc(log0, s.issued, t.issued);
      s := Then(s, t);
      warnings := warnings + w;
      if failure.Some? {
        assert l == s;
        return;
      }
      t := OptionalStep(s.db, rawPath, files, DigitalIoFile, DigitalIoTable, Csv);
      w, failure := CreateDigitalIoTable(con, files);
      AppendAssoc(log0, s.issued, t.issued);
      s := Then(s, t);
      warnings := warnings + w;
      if failure.Some? {
        assert l == s;
        return;
      }
      t := OptionalStep(s.db, rawPath, files, SystemModesFile, SystemModesTable, Json);
      w, failure := CreateSystemModesTable(con, files);
      AppendAssoc(log0, s.issued, t.issued);
      s := Then(s, t);
      warnings := warnings + w;
      assert l == s;
    }

    /**
     * `build`: connect to the farm's database file (holding `stored`), run
     * the steps in order, stop at the first error, and close the connection
     * on every path.
     */
    method Build(files: Files, parquetFiles: seq<Path>, stored: Database) returns (con: Connection, outcome: Step, listed: seq<string>)
      ensures fresh(con) && !con.isOpen
      ensures con.Catalog() == outcome.db && con.log == outcome.issued
      ensures var p := Prepare(stored, rawPath, files, parquetFiles);
        (p.failure.Some? ==> outcome == p && listed == []) &&
        (p.failure.None? ==>
          (set t | t in listed) == p.db.tables.Keys && Distinct(listed) && outcome == Then(p, ValidateStep(p.db, listed)))
    {
      con := new Connection.Open(stored, false, false, false);
      listed := [];
      var warnings, failure := CreateTables(con, files, parquetFiles);
      ghost var l := LoadTables(stored, rawPath, files, parquetFiles);
      assert con.log == l.issued;
      if failure.None? {
        ghost var p := Prepare(stored, rawPath, files, parquetFiles);
        ghost var i := IndexesStep(l.db, IndexPlan);
        var w := CreateIndexes(con);
        warnings := warnings + w;
        ghost var d := DocumentStep(i.db, Documentation);
        AddDocumentation(con);
        DocumentStepSilent(i.db, Documentation);
        AppendAssoc(l.issued, i.issued, d.issued);
        assert con.log == p.issued && con.Catalog() == p.db;
        assert warnings == p.warnings;
        listed, w := ValidateDatabase(con);
        warnings := warnings + w;
      }
      con.Close();
      outcome := Step(con.Catalog(), con.log, warnings, failure);
    }
  }

  // ---------------------------------------------------------------------------
  // main

  /** What `main` finds on disk: the files, each directory's `*.parquet` listing, and existing database files. */
  datatype Disk = Disk(files: Files, listings: map<Path, seq<Path>>, databases: map<Path, Database>)

  function Listing(disk: Disk, dir: Path): seq<Path>
  {
    if dir in disk.listings then disk.listings[dir] else []
  }

  /** An existing database file is opened as it is; a missing one starts empty. */
  function StoredDatabase(disk: Disk, path: Path): Database
  {
    if path in disk.databases then disk.databases[path] else EmptyDatabase
  }

  /** Building one farm, up to validation. */
  function FarmBuild(farm: string, base: Path, disk: Disk): Step
  {
    var l := FarmLayout(farm, base);
    Prepare(StoredDatabase(disk, l.database), l.raw, disk.files, Listing(disk, l.raw))
  }

  datatype FarmReport = FarmReport(farm: string, db: Database, warnings: seq<Warning>, failure: Option<BuildError>)

  /**
   * `report` is what building `farm` yields: its final catalog, its error,
   * and its build warnings; after a complete build these are followed by
   * validation's warnings, which name exactly the empty tables.
   */
  ghost predicate Reports(report: FarmReport, farm: string, base: Path, disk: Disk)
  {
    var b := FarmBuild(farm, base, disk);
    report.farm == farm && report.db == b.db && report.failure == b.failure &&
    (b.failure.Some? ==> report.warnings == b.warnings) &&
    (b.failure.None? ==>
      b.warnings <= report.warnings &&
      var checks := report.warnings[|b.warnings|..];
      (forall w :: w in checks ==> w.EmptyTable?) &&
      (forall t :: EmptyTable(t) in checks <==> t in b.db.tables && b.db.tables[t].rows == 0))
  }

  /** `WindFarmDBBuilder(farm, base_path).build()`. */
  method BuildFarm(farm: string, base: Path, disk: Disk) returns (report: FarmReport)
    ensures Reports(report, farm, base, disk)
  {
    var builder := new WindFarmDBBuilder(farm, base);
    var con, outcome, listed := builder.Build(disk.files, Listing(disk, builder.rawPath), StoredDatabase(disk, builder.dbPath));
    report := FarmReport(farm, outcome.db, outcome.warnings, outcome.failure);
    var b := FarmBuild(farm, base, disk);
    if b.failure.None? {
      ValidationOutcome(b.db, listed);
      assert report.warnings[|b.warnings|..] == ValidateStep(b.db, listed).warnings;
    }
  }

  /**
   * `main`: with `--farm all`, every farm directory is built in turn and a
   * farm's error is logged and does not stop the others; otherwise the one
   * farm is built and its error is raised.
   */
  method RunMain(farmArg: string, base: Path, farmDirs: seq<string>, disk: Disk)
    returns (reports: seq<FarmReport>, raised: Option<BuildError>)
    ensures farmArg == "all" ==>
      raised.None? && |reports| == |farmDirs| &&
      (forall i :: 0 <= i < |farmDirs| ==> Reports(reports[i], farmDirs[i], base, disk))
    ensures farmArg != "all" ==> |reports| == 1 && Reports(reports[0], farmArg, base, disk) && raised == reports[0].failure
  {
    if farmArg == "all" {
      reports := [];
      var k := 0;
      while k < |farmDirs|
        invariant 0 <= k <= |farmDirs| && |reports| == k
        invariant forall i :: 0 <= i < k ==> Reports(reports[i], farmDirs[i], base, disk)
      {
        var report := BuildFarm(farmDirs[k], base, disk);
        reports := reports + [report];
        k := k + 1;
      }
      raised := None;
    } else {
      var report := BuildFarm(farmArg, base, disk);
      reports, raised := [report], report.failure;
    }
  }
}
