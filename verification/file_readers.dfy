/**
 * The four loaders of scripts/utils/file_readers.py: each checks that its file
 * exists before it issues any statement, builds one `CREATE TABLE ... AS
 * SELECT * FROM read_<format>('<escaped path>'<arguments>)` statement, and
 * reports the table it asked for with the engine's row count and column names.
 */
module FileReaders {
  import opened Outcomes
  import opened Engine
  import Quoting
  import Decimal
  import opened Sequences

  /** `_escape_path`: the rendered path with every single quote doubled. */
  function EscapePath(p: Path): (r: string)
    ensures |r| == |Render(p)| + Quoting.CountQuotes(Render(p))
    ensures '\'' !in Render(p) ==> r == Render(p)
    ensures Quoting.ReadLiteral(r + "'") == Some((Render(p), ""))
  {
    Quoting.NoQuoteCountsZero(Render(p));
    Quoting.ReadDoubled(Render(p), "");
    assert Quoting.DoubleQuotes(Render(p)) + "'" + "" == Quoting.DoubleQuotes(Render(p)) + "'";
    Quoting.DoubleQuotes(Render(p))
  }

  // ---------------------------------------------------------------------------
  // read_csv_to_table's keyword options

  /** A keyword option's value; floats are not modelled. */
  datatype OptionValue = BoolValue(b: bool) | IntValue(i: int) | TextValue(s: string)

  /** A bool becomes a bare `true`/`false`, an int a bare decimal, anything else a quoted literal. */
  function ValueText(v: OptionValue): string
  {
    match v
    case BoolValue(b) => if b then "true" else "false"
    case IntValue(i) => Decimal.IntToString(i)
    case TextValue(s) => "'" + Quoting.DoubleQuotes(s) + "'"
  }

  /** One `name=value` entry of the reader's argument list. */
  function EncodeOption(key: string, v: OptionValue): string
  {
    key + "=" + ValueText(v)
  }

  /** Position of the first occurrence of `c` in `s`. */
  function FirstIndex(s: string, c: char): (r: Option<nat>)
    ensures r.Some? ==> r.value < |s| && s[r.value] == c && c !in s[..r.value]
    ensures r.None? ==> c !in s
  {
    if s == [] then None
    else if s[0] == c then Some(0)
    else match FirstIndex(s[1..], c)
      case None => None
      case Some(i) => (assert s[..i + 1] == [s[0]] + s[1..][..i]; Some(i + 1))
  }

  /** How the engine reads an option value back: a boolean word, a quoted literal or an integer. */
  function DecodeValue(text: string): Option<OptionValue>
  {
    if text == "true" then Some(BoolValue(true))
    else if text == "false" then Some(BoolValue(false))
    else if |text| >= 1 && text[0] == '\'' then
      match Quoting.ReadLiteral(text[1..])
      case Some(p) => if p.1 == "" then Some(TextValue(p.0)) else None
      case None => None
    else
      match Decimal.ParseInt(text)
      case Some(i) => Some(IntValue(i))
      case None => None
  }

  /** Splits an entry at its first `=` into the option's name and value. */
  function DecodeOption(entry: string): Option<(string, OptionValue)>
  {
    match FirstIndex(entry, '=')
    case None => None
    case Some(i) =>
      match DecodeValue(entry[i + 1..])
      case None => None
      case Some(v) => Some((entry[..i], v))
  }

  /** Every encoded value reads back as itself, and bools, ints and text never get confused. */
  lemma DecodeValueText(v: OptionValue)
    ensures DecodeValue(ValueText(v)) == Some(v)
  {
    match v
    case BoolValue(b) =>
    case IntValue(i) =>
      Decimal.IntTextIsBare(i);
      Decimal.ParseIntToString(i);
      var t := ValueText(v);
      assert t[0] != 't' && t[0] != 'f' && t[0] != '\'';
    case TextValue(s) =>
      var d := Quoting.DoubleQuotes(s);
      Quoting.ReadDoubled(s, "");
      var t := ValueText(v);
      assert t == "'" + (d + "'");
      assert t[0] == '\'' && t[1..] == d + "'" + "";
      assert t != "true" && t != "false";
  }

  /** The first `=` of `key=...` is the one after the key, when the key holds none. */
  lemma {:induction false} FirstEqualsAfterKey(key: string, rest: string)
    requires '=' !in key
    ensures FirstIndex(key + "=" + rest, '=') == Some(|key|)
  {
    if key != [] {
      FirstEqualsAfterKey(key[1..], rest);
      assert (key + "=" + rest)[1..] == key[1..] + "=" + rest;
    }
  }

  /** An entry decodes to the option it was built from, when the option's name holds no `=`. */
  lemma DecodeEncodeOption(key: string, v: OptionValue)
    requires '=' !in key
    ensures DecodeOption(EncodeOption(key, v)) == Some((key, v))
  {
    var e := EncodeOption(key, v);
    FirstEqualsAfterKey(key, ValueText(v));
    assert e[..|key|] == key;
    assert e[|key| + 1..] == ValueText(v);
    DecodeValueText(v);
  }

  const AutoDetectArg := "auto_detect=true"

  /** One entry per option, in the options' order. */
  function EncodeAll(options: seq<(string, OptionValue)>): (r: seq<string>)
    ensures |r| == |options|
  {
    if options == [] then []
    else EncodeAll(options[..|options| - 1]) + [EncodeOption(options[|options| - 1].0, options[|options| - 1].1)]
  }

  lemma {:induction false} EncodeAllAt(options: seq<(string, OptionValue)>, i: nat)
    requires i < |options|
    ensures EncodeAll(options)[i] == EncodeOption(options[i].0, options[i].1)
  {
    if i < |options| - 1 {
      EncodeAllAt(options[..|options| - 1], i);
    }
  }

  /** The argument list read_csv_to_table builds: `auto_detect=true` first if asked for, then one entry per option. */
  function CsvArgList(autoDetect: bool, options: seq<(string, OptionValue)>): seq<string>
  {
    (if autoDetect then [AutoDetectArg] else []) + EncodeAll(options)
  }

  /** The loop of read_csv_to_table that appends one entry per option. */
  method BuildCsvArgs(autoDetect: bool, options: seq<(string, OptionValue)>) returns (args: seq<string>)
    ensures args == CsvArgList(autoDetect, options)
  {
    args := [];
    if autoDetect {
      args := args + [AutoDetectArg];
    }
    ghost var head := args;
    var k := 0;
    while k < |options|
      invariant 0 <= k <= |options|
      invariant head == (if autoDetect then [AutoDetectArg] else [])
      invariant args == head + EncodeAll(options[..k])
    {
      var (key, v) := options[k];
      var entry;
      match v {
        case BoolValue(b) => entry := key + "=" + (if b then "true" else "false");
        case IntValue(n) => entry := key + "=" + Decimal.IntToString(n);
        case TextValue(s) => entry := key + "=" + ("'" + Quoting.DoubleQuotes(s) + "'");
      }
      assert entry == EncodeOption(options[k].0, options[k].1);
      assert options[..k + 1][..k] == options[..k];
      assert EncodeAll(options[..k + 1]) == EncodeAll(options[..k]) + [entry];
      AppendAssoc(head, EncodeAll(options[..k]), [entry]);
      args := args + [entry];
      k := k + 1;
    }
    assert options[..k] == options;
  }

  /**
   * Keyword names are Python identifiers: no `=`, comma or quote in them, and
   * never `auto_detect`, which binds the named parameter.
   */
  predicate KeywordNames(options: seq<(string, OptionValue)>)
  {
    forall i :: 0 <= i < |options| ==>
      '=' !in options[i].0 && ',' !in options[i].0 && '\'' !in options[i].0 && options[i].0 != "auto_detect"
  }

  /** Entry `off + i` of the list reads back as option `i`, so every option is passed on exactly once, in order. */
  lemma CsvArgsDecode(autoDetect: bool, options: seq<(string, OptionValue)>)
    requires KeywordNames(options)
    ensures var args := CsvArgList(autoDetect, options);
      var off := if autoDetect then 1 else 0;
      |args| == off + |options| &&
      forall i :: 0 <= i < |options| ==> DecodeOption(args[off + i]) == Some(options[i])
  {
    var args := CsvArgList(autoDetect, options);
    var off := if autoDetect then 1 else 0;
    forall i | 0 <= i < |options|
      ensures DecodeOption(args[off + i]) == Some(options[i])
    {
      EncodedEntry(autoDetect, options, i);
      DecodeEncodeOption(options[i].0, options[i].1);
    }
  }

  /** Entry `off + i` of the list is option `i`'s encoding. */
  lemma EncodedEntry(autoDetect: bool, options: seq<(string, OptionValue)>, i: nat)
    requires i < |options|
    ensures var off := if autoDetect then 1 else 0;
      off + i < |CsvArgList(autoDetect, options)| &&
      CsvArgList(autoDetect, options)[off + i] == EncodeOption(options[i].0, options[i].1)
  {
    EncodeAllAt(options, i);
  }

  /** `auto_detect=true` reads back as the option it spells. */
  lemma AutoDetectArgDecodes()
    ensures DecodeOption(AutoDetectArg) == Some(("auto_detect", BoolValue(true)))
  {
    assert AutoDetectArg == EncodeOption("auto_detect", BoolValue(true));
    DecodeEncodeOption("auto_detect", BoolValue(true));
  }

  /** The list starts with `auto_detect=true` exactly when auto-detection was asked for. */
  lemma CsvArgsAutoDetectFirst(autoDetect: bool, options: seq<(string, OptionValue)>)
    requires KeywordNames(options)
    ensures var args := CsvArgList(autoDetect, options);
      (|args| > 0 && args[0] == AutoDetectArg) <==> autoDetect
  {
    if !autoDetect && |CsvArgList(autoDetect, options)| > 0 {
      EncodedEntry(autoDetect, options, 0);
      DecodeEncodeOption(options[0].0, options[0].1);
      AutoDetectArgDecodes();
    }
  }

  /** `args_sql`: empty for no arguments, otherwise `, ` and the entries joined by `, `. */
  function ArgsSuffix(args: seq<string>): (r: string)
    ensures r == "" <==> args == []
    ensures r != "" ==> r[0] == ','
  {
    if args == [] then "" else ", " + Quoting.Join(", ", args)
  }

  /**
   * How the engine reads a suffix back into its entries: none for the empty
   * suffix, otherwise the list after the leading `, `, split at each comma
   * outside a literal.
   */
  function ReadArgsSuffix(t: string): Option<seq<string>>
  {
    if t == "" then Some([])
    else if |t| >= 2 && t[..2] == ", " then Quoting.SplitArgs(t[2..])
    else None
  }

  /** A suffix of entries reads back as exactly those entries. */
  lemma ArgsSuffixReadsBack(args: seq<string>)
    requires forall i :: 0 <= i < |args| ==> Quoting.IsEntry(args[i])
    ensures ReadArgsSuffix(ArgsSuffix(args)) == Some(args)
  {
    if args != [] {
      Quoting.SplitJoin(args);
      var t := ArgsSuffix(args);
      assert t[..2] == ", " && t[2..] == Quoting.Join(", ", args);
    }
  }

  /** Every encoded option is one entry: its value's commas and quotes stay inside its literal. */
  lemma EncodedOptionIsEntry(key: string, v: OptionValue)
    requires ',' !in key && '\'' !in key
    ensures Quoting.IsEntry(EncodeOption(key, v))
  {
    Quoting.PlainEntry(key);
    Quoting.PlainEntry("=");
    Quoting.EntryConcat(key, "=");
    match v {
      case BoolValue(b) =>
        Quoting.PlainEntry(if b then "true" else "false");
      case IntValue(n) =>
        var text := Decimal.IntToString(n);
        var digits := Decimal.NatToString(if n < 0 then -n else n);
        assert text == (if n < 0 then "-" + digits else digits);
        assert forall c :: c in text ==> c == '-' || Decimal.IsDigit(c);
        Quoting.PlainEntry(text);
      case TextValue(t) =>
        Quoting.QuotedEntry(t);
    }
    Quoting.EntryConcat(key + "=", ValueText(v));
  }

  /**
   * The CSV reader's argument suffix reads back as its list, and entry
   * `off + i` of that list as option `i`: the engine receives every option,
   * once, in order, whatever its text value holds.
   */
  lemma CsvSuffixReadsBack(autoDetect: bool, options: seq<(string, OptionValue)>)
    requires KeywordNames(options)
    ensures var args := CsvArgList(autoDetect, options);
      var off := if autoDetect then 1 else 0;
      ReadArgsSuffix(ArgsSuffix(args)) == Some(args) && |args| == off + |options| &&
      forall i :: 0 <= i < |options| ==> DecodeOption(args[off + i]) == Some(options[i])
  {
    var args := CsvArgList(autoDetect, options);
    var off := if autoDetect then 1 else 0;
    forall j | 0 <= j < |args|
      ensures Quoting.IsEntry(args[j])
    {
      if j < off {
        Quoting.PlainEntry(AutoDetectArg);
      } else {
        EncodedEntry(autoDetect, options, j - off);
        EncodedOptionIsEntry(options[j - off].0, options[j - off].1);
      }
    }
    ArgsSuffixReadsBack(args);
    CsvArgsDecode(autoDetect, options);
  }

  /** read_json_to_table's fragment: the suffix the CSV rule gives for auto-detection and no options. */
  function JsonFragment(autoDetect: bool): (r: string)
    ensures r == ArgsSuffix(CsvArgList(autoDetect, []))
    ensures r == "" <==> !autoDetect
  {
    var argsSql := if autoDetect then AutoDetectArg else "";
    if argsSql != "" then ", " + argsSql else ""
  }

  // ---------------------------------------------------------------------------
  // read_excel_to_table's sheet selector

  /** A sheet given by name or by 0-based position. */
  datatype Sheet = SheetName(name: string) | SheetIndex(index: int)

  /** `str(sheet)`. */
  function SheetText(s: Sheet): string
  {
    match s
    case SheetName(n) => n
    case SheetIndex(i) => Decimal.IntToString(i)
  }

  const SheetArgHead := ", sheet='"

  /** No argument without a sheet; otherwise `, sheet='...'` whose literal denotes `str(sheet)`. */
  function SheetArg(sheet: Option<Sheet>): (r: string)
    ensures sheet.None? <==> r == ""
    ensures sheet.Some? ==> (|r| >= |SheetArgHead| && r[..|SheetArgHead|] == SheetArgHead
      && Quoting.ReadLiteral(r[|SheetArgHead|..]) == Some((SheetText(sheet.value), "")))
  {
    match sheet
    case None => ""
    case Some(s) =>
      var text := Quoting.DoubleQuotes(SheetText(s));
      Quoting.ReadDoubled(SheetText(s), "");
      assert (SheetArgHead + text + "'")[|SheetArgHead|..] == text + "'" + "";
      SheetArgHead + text + "'"
  }

  /** An index is sent as quoted text, the same argument as a sheet named by its digits. */
  lemma SheetIndexQuoted(i: int)
    ensures SheetArg(Some(SheetIndex(i))) == SheetArg(Some(SheetName(Decimal.IntToString(i))))
    ensures SheetArg(Some(SheetIndex(0))) == ", sheet='0'"
  {
  }

  // ---------------------------------------------------------------------------
  // The generated statement

  /** Everything before the path literal's opening quote. */
  function QueryPrefix(table: string, format: Format): string
  {
    "CREATE TABLE " + table + " AS SELECT * FROM " + ReaderName(format) + "("
  }

  /** The prefix holds a quote only if the table name does. */
  lemma QueryPrefixQuotes(table: string, format: Format)
    ensures '\'' in QueryPrefix(table, format) ==> '\'' in table
  {
    var x := "CREATE TABLE ";
    var y := " AS SELECT * FROM ";
    var z := ReaderName(format) + "(";
    assert '\'' !in x && '\'' !in y && '\'' !in z;
    assert QueryPrefix(table, format) == x + table + y + z;
  }

  function CreateSql(table: string, format: Format, pathSql: string, suffix: string): string
  {
    QueryPrefix(table, format) + "'" + pathSql + "'" + suffix + ")"
  }

  lemma LiteralBeforeSuffix(p: string, suffix: string)
    ensures (suffix == [] || suffix[0] != '\'') ==>
      Quoting.ReadLiteral(Quoting.DoubleQuotes(p) + "'" + (suffix + ")")) == Some((p, suffix + ")"))
  {
    if suffix == [] || suffix[0] != '\'' {
      Quoting.ReadDoubled(p, suffix + ")");
    }
  }

  /**
   * The statement a loader issues for `path`. When the table name holds no
   * quote, its first quote is the one that follows the prefix, and the
   * literal it opens denotes exactly the rendered path; what follows that
   * literal is the argument suffix and `)`.
   */
  function SourceQuery(table: string, format: Format, path: Path, suffix: string): (q: string)
    ensures |q| > |QueryPrefix(table, format)| && q[..|QueryPrefix(table, format)| + 1] == QueryPrefix(table, format) + "'"
    ensures '\'' !in table ==> '\'' !in QueryPrefix(table, format)
    ensures (suffix == [] || suffix[0] != '\'') ==>
      Quoting.ReadLiteral(q[|QueryPrefix(table, format)| + 1..]) == Some((Render(path), suffix + ")"))
  {
    var head := QueryPrefix(table, format) + "'";
    var lit := EscapePath(path);
    var tail := suffix + ")";
    var q := CreateSql(table, format, lit, suffix);
    AppendAssoc(head + lit + "'", suffix, ")");
    AppendAssoc(head + lit, "'", tail);
    AppendAssoc(head, lit, "'" + tail);
    AppendAssoc(lit, "'", tail);
    assert q == head + (lit + "'" + tail);
    assert q[..|head|] == head && q[|head|..] == lit + "'" + tail;
    LiteralBeforeSuffix(Render(path), suffix);
    QueryPrefixQuotes(table, format);
    q
  }

  // ---------------------------------------------------------------------------
  // The loaders' common contract

  /** `{"table": ..., "rows": ..., "columns": ...}`. */
  datatype LoadResult = LoadResult(table: string, rows: nat, columns: seq<string>)

  datatype LoadError = FileNotFound(path: Path) | ExtensionUnavailable | ExecutionFailed(statement: string)

  /** A loader's effect: the new catalog, the statements issued, and what it returns or raises. */
  datatype Loaded = Loaded(db: Database, issued: seq<string>, result: Result<LoadResult, LoadError>)

  /**
   * Create, count and describe, for a file that exists. On success exactly the
   * requested table is added, holding what the engine read from the file, and
   * the result reports that table's name, row count and column names; on
   * failure nothing changes.
   */
  function CreateSpec(db: Database, files: Files, path: Path, table: string, format: Format, suffix: string,
                      extensionLoaded: bool): (r: Loaded)
    requires path in files
    ensures |r.issued| >= 1 && r.issued[0] == SourceQuery(table, format, path, suffix)
    ensures r.result.Success? <==> CreateTable(db, table, format, Some(files[path]), extensionLoaded).1
    ensures r.result.Success? ==>
      table !in db.tables && files[path].Readable? && files[path].format == format &&
      r.db == db.(tables := db.tables[table := files[path].table]) &&
      r.result.value == LoadResult(table, files[path].table.rows, files[path].table.columns) &&
      r.issued == [SourceQuery(table, format, path, suffix), CountSql(table), DescribeSql(table)]
    ensures r.result.Failure? ==> r.db == db && r.issued == [SourceQuery(table, format, path, suffix)]
  {
    var sql := SourceQuery(table, format, path, suffix);
    var (db', ok) := CreateTable(db, table, format, Some(files[path]), extensionLoaded);
    if !ok then Loaded(db, [sql], Failure(ExecutionFailed(sql)))
    else
      var t := db'.tables[table];
      Loaded(db', [sql, CountSql(table), DescribeSql(table)], Success(LoadResult(table, t.rows, t.columns)))
  }

  /** The whole loader: FileNotFound, with no statement issued, for a missing file. */
  function LoadSpec(db: Database, files: Files, path: Path, table: string, format: Format, suffix: string,
                    extensionLoaded: bool): (r: Loaded)
    ensures path !in files ==> r == Loaded(db, [], Failure(FileNotFound(path)))
    ensures r.result.Failure? ==> r.db == db
    ensures r.result.Success? ==> (r.result.value.table == table && table in r.db.tables &&
      r.result.value.rows == r.db.tables[table].rows && r.result.value.columns == r.db.tables[table].columns)
  {
    if path !in files then Loaded(db, [], Failure(FileNotFound(path)))
    else CreateSpec(db, files, path, table, format, suffix, extensionLoaded)
  }

  /** The create/count/describe tail shared by the four loaders. */
  method CreateCountDescribe(con: Connection, files: Files, path: Path, table: string, format: Format, suffix: string)
    returns (r: Result<LoadResult, LoadError>)
    requires con.isOpen && path in files
    modifies con
    ensures var s := CreateSpec(old(con.Catalog()), files, path, table, format, suffix, old(con.extensionLoaded));
      con.Catalog() == s.db && con.log == old(con.log) + s.issued && r == s.result
    ensures con.Session() == old(con.Session())
  {
    var sql := CreateSql(table, format, EscapePath(path), suffix);
    var ok := con.CreateTableAs(table, format, Some(files[path]), sql);
    if !ok {
      return Failure(ExecutionFailed(sql));
    }
    var rows := con.Count(table);
    var columns := con.Describe(table);
    r := Success(LoadResult(table, rows, columns.value));
  }

  method ReadParquetToTable(con: Connection, files: Files, path: Path, table: string)
    returns (r: Result<LoadResult, LoadError>)
    requires con.isOpen
    modifies con
    ensures var s := LoadSpec(old(con.Catalog()), files, path, table, Parquet, "", old(con.extensionLoaded));
      con.Catalog() == s.db && con.log == old(con.log) + s.issued && r == s.result
    ensures con.Session() == old(con.Session())
  {
    if path !in files {
      return Failure(FileNotFound(path));
    }
    r := CreateCountDescribe(con, files, path, table, Parquet, "");
  }

  method ReadCsvToTable(con: Connection, files: Files, path: Path, table: string,
                        autoDetect: bool, options: seq<(string, OptionValue)>)
    returns (r: Result<LoadResult, LoadError>)
    requires con.isOpen
    modifies con
    ensures var s := LoadSpec(old(con.Catalog()), files, path, table, Csv,
                              ArgsSuffix(CsvArgList(autoDetect, options)), old(con.extensionLoaded));
      con.Catalog() == s.db && con.log == old(con.log) + s.issued && r == s.result
    ensures con.Session() == old(con.Session())
  {
    if path !in files {
      return Failure(FileNotFound(path));
    }
    var args := BuildCsvArgs(autoDetect, options);
    var argsSql := if args != [] then ", " + Quoting.Join(", ", args) else "";
    r := CreateCountDescribe(con, files, path, table, Csv, argsSql);
  }

  method ReadJsonToTable(con: Connection, files: Files, path: Path, table: string, autoDetect: bool)
    returns (r: Result<LoadResult, LoadError>)
    requires con.isOpen
    modifies con
    ensures var s := LoadSpec(old(con.Catalog()), files, path, table, Json, JsonFragment(autoDetect), old(con.extensionLoaded));
      con.Catalog() == s.db && con.log == old(con.log) + s.issued && r == s.result
    ensures con.Session() == old(con.Session())
  {
    if path !in files {
      return Failure(FileNotFound(path));
    }
    var argsSql := if autoDetect then AutoDetectArg else "";
    var fragment := if argsSql != "" then ", " + argsSql else "";
    r := CreateCountDescribe(con, files, path, table, Json, fragment);
  }

  // ---------------------------------------------------------------------------
  // read_excel_to_table

  /** The outcome of making the excel extension available. */
  datatype ExtensionAttempt = ExtensionAttempt(issued: seq<string>, installed: bool, ok: bool)

  /**
   * LOAD first; INSTALL and a second LOAD only when the first LOAD failed; the
   * extension is available when loading works and it was installed or could
   * be installed. Only LOAD and INSTALL statements are issued.
   */
  function ExtensionSpec(installed: bool, installable: bool, loadable: bool): (r: ExtensionAttempt)
    ensures |r.issued| >= 1 && r.issued[0] == LoadExcelSql
    ensures InstallExcelSql in r.issued <==> !(installed && loadable)
    ensures r.ok <==> loadable && (installed || installable)
    ensures r.ok ==> r.issued[|r.issued| - 1] == LoadExcelSql && r.installed
    ensures r.installed <==> installed || (InstallExcelSql in r.issued && installable)
    ensures forall s :: s in r.issued ==> s == LoadExcelSql || s == InstallExcelSql
  {
    if installed && loadable then ExtensionAttempt([LoadExcelSql], true, true)
    else if installable then ExtensionAttempt([LoadExcelSql, InstallExcelSql, LoadExcelSql], true, loadable)
    else ExtensionAttempt([LoadExcelSql, InstallExcelSql], installed, false)
  }

  method EnsureExcelExtension(con: Connection) returns (ok: bool)
    requires con.isOpen
    modifies con
    ensures var e := ExtensionSpec(old(con.extensionInstalled), con.installAvailable, con.loadWorks);
      ok == e.ok && con.log == old(con.log) + e.issued && con.extensionInstalled == e.installed
    ensures con.extensionLoaded == (old(con.extensionLoaded) || ok)
    ensures con.Catalog() == old(con.Catalog()) && con.isOpen
  {
    ok := con.LoadExtension();
    if !ok {
      var installed := con.InstallExtension();
      if installed {
        ok := con.LoadExtension();
      }
    }
  }

  /**
   * A missing file raises FileNotFound before anything is issued; an
   * unavailable extension raises ExtensionUnavailable before any CREATE TABLE;
   * otherwise the common create/count/describe runs with the sheet argument.
   */
  method ReadExcelToTable(con: Connection, files: Files, path: Path, table: string, sheet: Option<Sheet>)
    returns (r: Result<LoadResult, LoadError>)
    requires con.isOpen
    modifies con
    ensures path !in files ==> (r == Failure(FileNotFound(path)) && con.log == old(con.log) &&
      con.Catalog() == old(con.Catalog()) && con.Session() == old(con.Session()))
    ensures path in files ==>
      var e := ExtensionSpec(old(con.extensionInstalled), con.installAvailable, con.loadWorks);
      con.extensionInstalled == e.installed && con.isOpen &&
      if !e.ok then
        r == Failure(ExtensionUnavailable) && con.Catalog() == old(con.Catalog()) &&
        con.log == old(con.log) + e.issued
      else
        var s := CreateSpec(old(con.Catalog()), files, path, table, Excel, SheetArg(sheet), true);
        con.extensionLoaded && con.Catalog() == s.db && con.log == old(con.log) + e.issued + s.issued &&
        r == s.result
  {
    if path !in files {
      return Failure(FileNotFound(path));
    }
    var ok := EnsureExcelExtension(con);
    if !ok {
      return Failure(ExtensionUnavailable);
    }
    var sheetArg;
    if sheet.None? {
      sheetArg := "";
    } else {
      var s := Quoting.DoubleQuotes(SheetText(sheet.value));
      sheetArg := ", sheet='" + s + "'";
    }
    r := CreateCountDescribe(con, files, path, table, Excel, sheetArg);
  }
}
