/**
 * The embedded DuckDB engine, seen from outside: which files exist and what
 * its readers make of them, which tables the open database holds (their
 * columns and row counts), and the primary keys, indexes and table comments
 * added to them. Every statement a connection executes is appended to its
 * log, so a caller's contract can say which statements it issued and in
 * which order.
 */
module Engine {
  import opened Outcomes
  import Quoting

  /** A filesystem path as its components; `Path(".")` has none. */
  type Path = seq<string>

  /** `str(path)`: the components joined by `/`, and `.` for the empty path. */
  function Render(p: Path): string
  {
    if p == [] then "." else Quoting.Join("/", p)
  }

  /** The four source formats, each with its own DuckDB reader function. */
  datatype Format = Parquet | Csv | Json | Excel

  function ReaderName(f: Format): string
  {
    match f
    case Parquet => "read_parquet"
    case Csv => "read_csv"
    case Json => "read_json"
    case Excel => "read_excel"
  }

  /**
   * A table as the engine reports it: column names in order (`DESCRIBE`),
   * row count (`SELECT COUNT(*)`), the columns whose values are unique and
   * non-null, on which the engine accepts a primary key, and the columns whose
   * type the engine can build an index on.
   */
  datatype Table = Table(columns: seq<string>, rows: nat, uniqueColumns: set<string>, indexableColumns: set<string>)

  /** What the engine's reader makes of an existing file. */
  datatype FileData = Readable(format: Format, table: Table) | Unreadable

  /** The files that exist, each with what reading it yields. */
  type Files = map<Path, FileData>

  datatype Index = Index(table: string, column: string)

  /** The database catalog: tables, primary keys by table, indexes by name, comments by table. */
  datatype Database = Database(
    tables: map<string, Table>,
    primaryKeys: map<string, string>,
    indexes: map<string, Index>,
    comments: map<string, string>)

  const EmptyDatabase := Database(map[], map[], map[], map[])

  function CountSql(table: string): string { "SELECT COUNT(*) FROM " + table }
  function DescribeSql(table: string): string { "DESCRIBE " + table }
  function PrimaryKeySql(table: string, column: string): string
  {
    "ALTER TABLE " + table + " ADD PRIMARY KEY (" + column + ")"
  }
  function IndexSql(name: string, table: string, column: string): string
  {
    "CREATE INDEX " + name + " ON " + table + "(" + column + ")"
  }
  function CommentSql(table: string, comment: string): string
  {
    "COMMENT ON TABLE " + table + " IS '" + comment + "'"
  }
  const ShowTablesSql := "SHOW TABLES"
  const LoadExcelSql := "LOAD 'excel'"
  const InstallExcelSql := "INSTALL 'excel'"

  /**
   * `CREATE TABLE name AS SELECT * FROM reader(...)`: fails when the name is
   * taken, the file is missing or unreadable, it is not of the reader's
   * format, or (for spreadsheets) the excel extension is not loaded.
   */
  function CreateTable(db: Database, name: string, reader: Format, source: Option<FileData>, extensionLoaded: bool): (Database, bool)
  {
    if name !in db.tables && source.Some? && source.value.Readable? && source.value.format == reader
       && (reader == Excel ==> extensionLoaded)
    then (db.(tables := db.tables[name := source.value.table]), true)
    else (db, false)
  }

  /** `ALTER TABLE t ADD PRIMARY KEY (c)`: needs the table, no key yet, and unique non-null values. */
  function AddPrimaryKey(db: Database, table: string, column: string): (Database, bool)
  {
    if table in db.tables && table !in db.primaryKeys && column in db.tables[table].columns
       && column in db.tables[table].uniqueColumns
    then (db.(primaryKeys := db.primaryKeys[table := column]), true)
    else (db, false)
  }

  /** `CREATE INDEX n ON t(c)`: needs the table, the column, a column type the engine can index, and a free index name. */
  function CreateIndex(db: Database, name: string, table: string, column: string): (Database, bool)
  {
    if table in db.tables && column in db.tables[table].columns && column in db.tables[table].indexableColumns
       && name !in db.indexes
    then (db.(indexes := db.indexes[name := Index(table, column)]), true)
    else (db, false)
  }

  /** `COMMENT ON TABLE t IS '...'`: needs the table; replaces any earlier comment. */
  function CommentOn(db: Database, table: string, comment: string): (Database, bool)
  {
    if table in db.tables then (db.(comments := db.comments[table := comment]), true) else (db, false)
  }

  /** A DuckDB connection: the catalog it changes in place and the statements it has run. */
  class Connection {
    var tables: map<string, Table>
    var primaryKeys: map<string, string>
    var indexes: map<string, Index>
    var comments: map<string, string>
    /** whether the excel extension is installed on this machine */
    var extensionInstalled: bool
    /** whether the excel extension is loaded into this connection */
    var extensionLoaded: bool
    /** whether `INSTALL 'excel'` can fetch the extension */
    const installAvailable: bool
    /** whether `LOAD 'excel'` of an installed extension succeeds on this machine */
    const loadWorks: bool
    var isOpen: bool
    var log: seq<string>

    function Catalog(): Database
      reads this
    {
      Database(tables, primaryKeys, indexes, comments)
    }

    /** The connection's state apart from its catalog and its log. */
    function Session(): (bool, bool, bool)
      reads this
    {
      (extensionInstalled, extensionLoaded, isOpen)
    }

    /** `duckdb.connect(path)` on a database file holding `db`. */
    constructor Open(db: Database, installed: bool, installable: bool, loadable: bool)
      ensures Catalog() == db && log == [] && isOpen
      ensures extensionInstalled == installed && !extensionLoaded && installAvailable == installable
      ensures loadWorks == loadable
    {
      tables, primaryKeys, indexes, comments := db.tables, db.primaryKeys, db.indexes, db.comments;
      extensionInstalled, extensionLoaded, installAvailable, loadWorks := installed, false, installable, loadable;
      isOpen, log := true, [];
    }

    method CreateTableAs(name: string, reader: Format, source: Option<FileData>, sql: string) returns (ok: bool)
      requires isOpen
      modifies this
      ensures (Catalog(), ok) == CreateTable(old(Catalog()), name, reader, source, extensionLoaded)
      ensures log == old(log) + [sql] && Session() == old(Session())
    {
      var r := CreateTable(Catalog(), name, reader, source, extensionLoaded);
      tables := r.0.tables;
      ok := r.1;
      log := log + [sql];
    }

    method Count(table: string) returns (rows: nat)
      requires isOpen && table in tables
      modifies this
      ensures Catalog() == old(Catalog()) && Session() == old(Session())
      ensures rows == tables[table].rows
      ensures log == old(log) + [CountSql(table)]
    {
      rows := tables[table].rows;
      log := log + [CountSql(table)];
    }

    /** `DESCRIBE t`: the column names, or None (an exception) when there is no such table. */
    method Describe(table: string) returns (columns: Option<seq<string>>)
      requires isOpen
      modifies this
      ensures columns == if table in tables then Some(tables[table].columns) else None
      ensures Catalog() == old(Catalog()) && Session() == old(Session())
      ensures log == old(log) + [DescribeSql(table)]
    {
      columns := if table in tables then Some(tables[table].columns) else None;
      log := log + [DescribeSql(table)];
    }

    /** `SHOW TABLES`: every table once, in an order the engine chooses. */
    method ShowTables() returns (names: seq<string>)
      requires isOpen
      modifies this
      ensures (set t | t in names) == tables.Keys
      ensures forall i, j :: 0 <= i < j < |names| ==> names[i] != names[j]
      ensures Catalog() == old(Catalog()) && Session() == old(Session())
      ensures log == old(log) + [ShowTablesSql]
    {
      names := [];
      var rest := tables.Keys;
      while rest != {}
        invariant (set t | t in names) + rest == tables.Keys
        invariant forall t :: t in names ==> t !in rest
        invariant forall i, j :: 0 <= i < j < |names| ==> names[i] != names[j]
        decreases rest
      {
        var t :| t in rest;
        names := names + [t];
        rest := rest - {t};
      }
      log := log + [ShowTablesSql];
    }

    /** `LOAD 'excel'`: succeeds when the extension is installed and loading works on this machine. */
    method LoadExtension() returns (ok: bool)
      requires isOpen
      modifies this
      ensures ok == (extensionInstalled && loadWorks) && extensionLoaded == (old(extensionLoaded) || ok)
      ensures extensionInstalled == old(extensionInstalled) && isOpen
      ensures Catalog() == old(Catalog()) && log == old(log) + [LoadExcelSql]
    {
      ok := extensionInstalled && loadWorks;
      extensionLoaded := extensionLoaded || ok;
      log := log + [LoadExcelSql];
    }

    /** `INSTALL 'excel'`: succeeds when the extension can be fetched. */
    method InstallExtension() returns (ok: bool)
      requires isOpen
      modifies this
      ensures ok == installAvailable && extensionInstalled == (old(extensionInstalled) || ok)
      ensures extensionLoaded == old(extensionLoaded) && isOpen
      ensures Catalog() == old(Catalog()) && log == old(log) + [InstallExcelSql]
    {
      ok := installAvailable;
      extensionInstalled := extensionInstalled || ok;
      log := log + [InstallExcelSql];
    }

    method AddPrimaryKeyTo(table: string, column: string) returns (ok: bool)
      requires isOpen
      modifies this
      ensures (Catalog(), ok) == AddPrimaryKey(old(Catalog()), table, column)
      ensures log == old(log) + [PrimaryKeySql(table, column)] && Session() == old(Session())
    {
      var r := AddPrimaryKey(Catalog(), table, column);
      primaryKeys := r.0.primaryKeys;
      ok := r.1;
      log := log + [PrimaryKeySql(table, column)];
    }

    method CreateIndexOn(name: string, table: string, column: string) returns (ok: bool)
      requires isOpen
      modifies this
      ensures (Catalog(), ok) == CreateIndex(old(Catalog()), name, table, column)
      ensures log == old(log) + [IndexSql(name, table, column)] && Session() == old(Session())
    {
      var r := CreateIndex(Catalog(), name, table, column);
      indexes := r.0.indexes;
      ok := r.1;
      log := log + [IndexSql(name, table, column)];
    }

    method CommentOnTable(table: string, comment: string) returns (ok: bool)
      requires isOpen
      modifies this
      ensures (Catalog(), ok) == CommentOn(old(Catalog()), table, comment)
      ensures log == old(log) + [CommentSql(table, comment)] && Session() == old(Session())
    {
      var r := CommentOn(Catalog(), table, comment);
      comments := r.0.comments;
      ok := r.1;
      log := log + [CommentSql(table, comment)];
    }

    /** `con.close()`; closing twice is harmless. */
    method Close()
      modifies this
      ensures !isOpen
      ensures Catalog() == old(Catalog()) && log == old(log)
      ensures extensionInstalled == old(extensionInstalled) && extensionLoaded == old(extensionLoaded)
    {
      isOpen := false;
    }
  }
}
