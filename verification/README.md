# Wind-Data-Fabric: the DuckDB builder, modelled in Dafny

This project models the part of Wind-Data-Fabric that turns a wind farm's raw
files into a DuckDB database:

- **`WindFarmDBBuilder`** (scripts/create_duckdb.py) lays out a farm's paths.
  - It loads the SCADA time series from parquet. This file is required, with a
    fallback to the first `*.parquet` in the farm directory.
  - It loads three optional lookup tables: channel metadata, digital I/O
    mappings and system modes. When their file is missing, it only warns.
  - It keys the metadata table on `channel_id`, or on `id` when that column is
    absent.
  - It adds two indexes and four table comments. Both are best effort.
  - It validates by warning about empty tables.
  - It closes the connection on every path.
  - `main` builds one farm, or every farm under `--farm all`. In that case one
    farm's error does not stop the others.
- **The loader helpers** (scripts/utils/file_readers.py) escape a path for a
  SQL literal and build the CSV reader's argument list. They also build the
  JSON fragment and the Excel extension fallback with its sheet argument. Each
  checks that the file exists before issuing anything, and returns
  `{table, rows, columns}`.
- **The table-name normaliser** is pinned down by tests/test_db_builder.py.

DuckDB itself is seen from outside, as a catalog held by a `Connection` object
(engine.dfy):

- its tables, with their columns, row counts, the columns that can carry a
  primary key and the columns whose type can be indexed;
- its primary keys, indexes and table comments;
- a log of every statement it executes.

The files on disk are a map from path to what the engine's reader makes of
them. Each builder step is a pure function from a catalog to a `Step`: the new
catalog, the statements issued, the warnings logged and the error raised. Each
builder method is proved to do on a `Connection` what its step function says,
and lemmas state what the steps guarantee. One deliberate difference: the step
functions write the file path as an escaped literal, where the four `_create_*`
methods paste it unescaped (see Findings). For a path without a quote the two
statements are the same text (`Builder.UnescapedAgreesWithoutQuote`). For a path
with a quote the model follows the corrected statement.

Files:

- `sequences.dfy`: a sequence fact.
- `outcomes.dfy`: Option and Result.
- `quoting.dfy`: quote doubling and the engine's rule for reading a literal.
- `decimal.dfy`: Python's `str(int)`.
- `engine.dfy`: the engine model.
- `file_readers.dfy`: the loaders.
- `table_names.dfy`: the normaliser.
- `builder.dfy`: the builder and `main`.

## Model

| member | source | states |
|---|---|---|
| FileReaders.EscapePath | scripts/utils/file_readers.py:12-15 | The escaped path is longer by one character per quote. It equals the path when the path holds no quote. Followed by a closing quote, the engine reads it back as exactly the path. |
| Quoting.DoubleQuotes | scripts/utils/file_readers.py:15 | `replace("'", "''")` grows the text by one character per quote and keeps quote-free text unchanged. |
| Quoting.ReadDoubled | scripts/utils/file_readers.py:15 | A literal written as a quote, the doubled text and a quote denotes the original text. Whatever follows the closing quote is left over, as long as it does not start with a quote. |
| Quoting.NoQuoteCountsZero | scripts/utils/file_readers.py:15 | Text holds no quote exactly when its quote count is zero. |
| Decimal.ParseIntToString | scripts/utils/file_readers.py:51-52 | An int option's decimal text reads back as that int. |
| Decimal.IntTextIsBare | scripts/utils/file_readers.py:51-52 | An int's text starts with `-` or a digit, so it is neither a boolean word nor a quoted literal. |
| FileReaders.DecodeValueText | scripts/utils/file_readers.py:49-55 | Bools, ints and text options each read back as the value they encode, and the three kinds are never confused. |
| FileReaders.DecodeEncodeOption | scripts/utils/file_readers.py:50-55 | A `name=value` entry whose name holds no `=` reads back as that option. |
| FileReaders.BuildCsvArgs | scripts/utils/file_readers.py:45-55 | The loop builds `auto_detect=true` first when asked, then one entry per option, in order. |
| FileReaders.CsvArgsDecode | scripts/utils/file_readers.py:45-55 | Each option appears once, in its place, and reads back as itself. |
| FileReaders.CsvArgsAutoDetectFirst | scripts/utils/file_readers.py:46-47 | The list starts with `auto_detect=true` exactly when auto-detection was asked for. |
| FileReaders.ArgsSuffix | scripts/utils/file_readers.py:56 | The argument text is empty exactly for an empty list, and otherwise starts with a comma. |
| Quoting.ScanConcat | scripts/utils/file_readers.py:53-56 | Scanning joined text for commas outside literals is scanning the first part, then the second in the state the first left. |
| Quoting.QuotedEntry | scripts/utils/file_readers.py:53-54 | A quoted text value is one argument entry: its quotes are doubled, so its commas stay inside the literal and the literal is closed. |
| Quoting.SplitJoin | scripts/utils/file_readers.py:56 | Entries joined by `, ` split back, at the commas outside literals, into exactly those entries. |
| FileReaders.ArgsSuffixReadsBack | scripts/utils/file_readers.py:56-58 | The `args_sql` text of a list of entries reads back as exactly that list. |
| FileReaders.EncodedOptionIsEntry | scripts/utils/file_readers.py:48-54 | Every `name=value` entry is one argument entry, whatever commas or quotes a text value holds. |
| FileReaders.CsvSuffixReadsBack | scripts/utils/file_readers.py:44-58 | The CSV reader's argument text reads back as its list, and each option's entry as that option, once and in order. |
| FileReaders.JsonFragment | scripts/utils/file_readers.py:72-73 | The JSON fragment equals the CSV rule applied to auto-detection with no options. It is empty exactly when auto-detection is off. |
| FileReaders.SheetArg | scripts/utils/file_readers.py:101-106 | No sheet gives no argument. A sheet gives `, sheet='…'`, whose literal reads back as `str(sheet)`. |
| FileReaders.SheetIndexQuoted | scripts/utils/file_readers.py:105-106 | A sheet index is sent as quoted text, the same as a sheet named by its digits. |
| FileReaders.QueryPrefixQuotes | scripts/utils/file_readers.py:28 | The text before the path literal holds a quote only if the table name does. |
| FileReaders.SourceQuery | scripts/utils/file_readers.py:28 | The statement opens the path literal right after its prefix. That literal reads back as exactly the rendered path, followed by the argument text and `)`. |
| FileReaders.CreateSpec | scripts/utils/file_readers.py:28-31 | On success, exactly the requested table is added, the statements are CREATE, COUNT and DESCRIBE, and the result is that table's name, row count and columns. On failure nothing changes. |
| FileReaders.LoadSpec | scripts/utils/file_readers.py:24-31 | A missing file raises FileNotFound with no statement issued. A failure leaves the catalog unchanged. A success reports the table as the catalog holds it. |
| FileReaders.CreateCountDescribe | scripts/utils/file_readers.py:28-31 | The shared create/count/describe tail does what CreateSpec says, on the connection. |
| FileReaders.ReadParquetToTable | scripts/utils/file_readers.py:18-31 | `read_parquet_to_table` does what LoadSpec says, with no argument text. |
| FileReaders.ReadCsvToTable | scripts/utils/file_readers.py:34-61 | `read_csv_to_table` does what LoadSpec says, with the argument text built from its options. |
| FileReaders.ReadJsonToTable | scripts/utils/file_readers.py:64-77 | `read_json_to_table` does what LoadSpec says, with the auto-detect fragment. |
| FileReaders.ExtensionSpec | scripts/utils/file_readers.py:91-99 | LOAD is tried first. INSTALL is issued exactly when that LOAD failed. The extension is available exactly when loading works and it was installed or could be installed, and then the last statement is LOAD. It is installed afterwards exactly when it was already or INSTALL was issued and succeeded. |
| FileReaders.EnsureExcelExtension | scripts/utils/file_readers.py:91-99 | Runs the LOAD, INSTALL, LOAD fallback exactly as ExtensionSpec says, and leaves the extension loaded when it succeeds. |
| FileReaders.ReadExcelToTable | scripts/utils/file_readers.py:80-111 | A missing file fails first, with nothing issued. An unavailable extension fails before any CREATE. Otherwise it loads with the sheet argument as CreateSpec says. |
| Engine.Connection.ShowTables | scripts/create_duckdb.py:191 | SHOW TABLES lists every table once and nothing else, and changes nothing. |
| Engine.Connection.Count | scripts/create_duckdb.py:193 | The count is the table's row count. |
| Engine.Connection.Describe | scripts/create_duckdb.py:106 | DESCRIBE gives the table's columns, or fails for a missing table. |
| TableNames.GenerateTableName | tests/test_db_builder.py:6-28 | A derived name holds only lower-case letters, digits and underscores, and is never longer than the file name. |
| TableNames.LastDotIsLast | tests/test_db_builder.py:9 | The extension starts at the last dot. |
| TableNames.StemDropsExtension | tests/test_db_builder.py:9 | `base.ext` loses its extension and only that. |
| TableNames.ExtensionExcluded | tests/test_db_builder.py:15 | The extension plays no part in the name. |
| TableNames.NormaliseConcat | tests/test_db_builder.py:6-28 | Normalising works character by character. |
| TableNames.SpaceOrHyphenBecomesUnderscore | tests/test_db_builder.py:6-16 | A space or hyphen becomes one underscore in its place. |
| TableNames.SpecialCharRemoved | tests/test_db_builder.py:24-28 | Any other non-alphanumeric character disappears. |
| TableNames.NormaliseNameChars | tests/test_db_builder.py:6-28 | A name that is already normal is unchanged. |
| TableNames.NormaliseAlnum | tests/test_db_builder.py:18-22 | Letters and digits are kept, with letters lower-cased. |
| TableNames.GenerateTableNameIdempotent | tests/test_db_builder.py:6-28 | Deriving a name from a derived name changes nothing. |
| TableNames.SpacesBecomeUnderscores | tests/test_db_builder.py:6-10 | `my data.csv` gives `my_data`. |
| TableNames.HyphensBecomeUnderscores | tests/test_db_builder.py:12-16 | `data-2024.parquet` gives `data_2024`. |
| TableNames.LowercasedWithoutExtension | tests/test_db_builder.py:18-22 | `MyTable.CSV` gives `mytable`. |
| TableNames.SpecialCharactersRemoved | tests/test_db_builder.py:24-28 | `data@#$%.json` gives `data`. |
| Builder.WindFarmDBBuilder.constructor | scripts/create_duckdb.py:26-31 | The raw, processed and database paths are those of FarmLayout. |
| Builder.LayoutsSeparate | scripts/create_duckdb.py:29-31 | Two farms never share a raw directory or a database file, and they share the processed directory. |
| Builder.CreateStepOutcome | scripts/create_duckdb.py:82-85 | The CREATE statement, with the path escaped, succeeds exactly when the name is free and the file exists and is of the reader's format. It then adds just that table. Otherwise it raises and changes nothing. |
| Builder.WindFarmDBBuilder.CreateFrom | scripts/create_duckdb.py:99-102 | Issues the CREATE statement with the path escaped and does what CreateStep says, on the connection. |
| Builder.ScadaStepOutcome | scripts/create_duckdb.py:68-87 | With no parquet file it raises before issuing anything. Otherwise it never warns and only adds the SCADA table, from the conventional file or else the first listed one, and counts its rows. |
| Builder.WindFarmDBBuilder.CreateScadaDataTable | scripts/create_duckdb.py:68-87 | `_create_scada_data_table` does what ScadaStep says. |
| Builder.KeyColumn | scripts/create_duckdb.py:107-110 | A key is chosen exactly when `channel_id` or `id` is a column. `id` is chosen only without `channel_id`. |
| Builder.KeyStepOutcome | scripts/create_duckdb.py:104-112 | Only the metadata table's primary key can change. A key the engine refuses is warned about and changes nothing. |
| Builder.WindFarmDBBuilder.AddChannelsKey | scripts/create_duckdb.py:104-112 | The key step does what KeyStep says. |
| Builder.ChannelsStepOutcome | scripts/create_duckdb.py:89-114 | A missing metadata file is only warned about. A failed load changes nothing. Only the metadata table is ever added. |
| Builder.ChannelsStepKeyed | scripts/create_duckdb.py:99-114 | A loaded metadata table holds the file's data. It is keyed on `channel_id`, else `id`, or is warned about. The statements are CREATE, DESCRIBE, the key and COUNT. |
| Builder.WindFarmDBBuilder.CreateChannelsMetadataTable | scripts/create_duckdb.py:89-114 | `_create_channels_metadata_table` does what ChannelsStep says. |
| Builder.OptionalStepOutcome | scripts/create_duckdb.py:116-148 | A missing lookup file is only warned about. Otherwise its table is created from it and counted, and only that table is ever added. |
| Builder.WindFarmDBBuilder.CreateLookupTable | scripts/create_duckdb.py:116-148 | The shared lookup-table body does what OptionalStep says. |
| Builder.WindFarmDBBuilder.CreateDigitalIoTable | scripts/create_duckdb.py:116-131 | `_create_digital_io_table` does what OptionalStep says, on the digital I/O CSV. |
| Builder.WindFarmDBBuilder.CreateSystemModesTable | scripts/create_duckdb.py:133-148 | `_create_system_modes_table` does what OptionalStep says, on the system modes JSON. |
| Builder.LoadTablesExtends | scripts/create_duckdb.py:45-48 | Loading never alters an existing table, adds only the four known tables, and creates no index or comment. |
| Builder.NoParquetStopsLoad | scripts/create_duckdb.py:74-80 | Without a parquet file, the build stops before any statement. |
| Builder.LoadTablesComplete | scripts/create_duckdb.py:45-48 | A completed load has a new SCADA table, and every optional table whose file exists holds that file's data. |
| Builder.WindFarmDBBuilder.CreateTables | scripts/create_duckdb.py:45-48 | The four `_create_*` calls do what LoadTables says, stopping at the first error. |
| Builder.IndexStepOutcome | scripts/create_duckdb.py:159-167 | CREATE INDEX is issued only when the table has the column, and creates the index when the column can be indexed and the name is free. A missing table or a refused index is warned about. Nothing but indexes changes. |
| Builder.IndexesKeep | scripts/create_duckdb.py:150-167 | Existing indexes stay as they were. New indexes and warnings bear planned names. Tables, keys and comments are unchanged. |
| Builder.IndexesOutcome | scripts/create_duckdb.py:150-167 | Each planned index exists afterwards exactly when it already did or its column exists and can be indexed, and a fresh one is on that table and column. It is warned about exactly when its table is missing, or the CREATE INDEX was issued and refused because the name was taken or the column cannot be indexed. |
| Builder.IndexesPlanOutcome | scripts/create_duckdb.py:154-157 | The timestamp and channel indexes on `scada_data` exist exactly when their columns exist and can be indexed, or their names were taken. |
| Builder.WindFarmDBBuilder.CreateIndex | scripts/create_duckdb.py:160-167 | One index attempt does what IndexStep says. |
| Builder.WindFarmDBBuilder.CreateIndexes | scripts/create_duckdb.py:150-167 | `_create_indexes` does what IndexesStep says for the two planned indexes. |
| Builder.CommentStepOutcome | scripts/create_duckdb.py:180-184 | A comment is set on an existing table. A missing table is skipped silently. |
| Builder.DocumentStepSilent | scripts/create_duckdb.py:181-184 | Documenting never warns and never fails. |
| Builder.DocumentationIssued | scripts/create_duckdb.py:180-182 | One COMMENT statement is issued per planned table, in order. Tables, keys and indexes are unchanged. |
| Builder.DocumentationOutcome | scripts/create_duckdb.py:169-184 | Each existing planned table gets its comment. A missing one keeps whatever it had. Every other comment is untouched. |
| Builder.DocumentationPlanOutcome | scripts/create_duckdb.py:173-178 | The four fixed comments leave tables, keys and indexes alone, and `scada_data` gets its text. |
| Builder.WindFarmDBBuilder.AddDocumentation | scripts/create_duckdb.py:169-184 | `_add_documentation` does what DocumentStep says for the four comments. |
| Builder.CountStatements | scripts/create_duckdb.py:192-193 | One COUNT per listed table. |
| Builder.ValidationOutcome | scripts/create_duckdb.py:186-195 | Validation changes nothing and counts every listed table in order. It warns about a table exactly when the table is listed and empty. |
| Builder.WindFarmDBBuilder.ValidateDatabase | scripts/create_duckdb.py:186-195 | Validation lists every table once and does what ValidateStep says for that listing. |
| Builder.PrepareKeepsLoad | scripts/create_duckdb.py:50-54 | Indexing and documenting keep the loaded tables, keys and outcome, and only add statements and warnings. |
| Builder.PrepareEnriches | scripts/create_duckdb.py:50-54 | After a completed build, `scada_data` carries its comment, and its indexes exist exactly when its columns exist and can be indexed. |
| Builder.WindFarmDBBuilder.Build | scripts/create_duckdb.py:36-66 | `build` stops at the first error with the state Prepare gives. Otherwise it validates every listed table. The connection is closed on every path. |
| Builder.BuildFarm | scripts/create_duckdb.py:242-243 | Building one farm yields FarmBuild's catalog, error and warnings. After a complete build these are followed by validation's warnings, which name exactly the empty tables. |
| Builder.RunMain | scripts/create_duckdb.py:233-249 | With `all`, every farm directory is built, none raises, and each report matches its farm. Otherwise the one farm's error is raised. |
| Builder.UnescapedAgreesWithoutQuote | scripts/create_duckdb.py:82-85 | For a path without a quote, the statement as written equals the escaped one, and it is the one CreateStep issues. |
| Builder.UnescapedLiteralEndsAtQuote | scripts/create_duckdb.py:82-85 | As written, a quote in the path ends the path literal early. The engine reads a shorter path, and the rest becomes SQL text. |
| Builder.QuotedFarmDirectory | scripts/create_duckdb.py:84 | For farm `o'brien`, the statement as written reads the path `data/raw/o`. |
| Builder.QuotedFarmDirectoryEscaped | scripts/create_duckdb.py:84 | The escaped statement reads back the whole `o'brien` path. |

## Left out

- Float keyword options of `read_csv_to_table`: floating point is not modelled, so an option value is a bool, an int or text.
- `_print_summary` (scripts/create_duckdb.py:60, 197-213) is not modelled. After validation it issues SHOW TABLES and, per table, a COUNT and a DESCRIBE; these statements are missing from the statement log of `Build`. It also reads the database file's size with `stat()`, whose failure would leave `build` through its `except … raise` (scripts/create_duckdb.py:62-64). The model's `build` ends after validation.
- argparse, logging configuration, log messages and `mkdir` of the processed directory are not modelled. Warnings are recorded as data instead of log lines.
- `Path` normalisation (`..`, repeated separators, absolute paths) is not modelled. A path is its list of components.
- TableNames.GenerateTableName: only ASCII letters and digits count as alphanumeric; Python's Unicode-aware `isalnum` and `lower` are not modelled.
- `_generate_table_name` is not defined in scripts/create_duckdb.py. The tests import a `DuckDBBuilder` class that the script does not have. The normaliser is modelled from the four test cases, which fix its behaviour on spaces, hyphens, case, other symbols and the extension.
- What the reader options (`auto_detect`, delimiters, sheets) do inside the engine is not modelled. The engine's reader result for a file is given.
- Decimal.ParseIntToString: Python's limit on the digits of `str(int)` is not modelled.
- The order of `SHOW TABLES` is the engine's choice. `Build` returns the listing it saw and proves it lists every table once.
- The builder's SQL whitespace (newlines and indentation in its triple-quoted statements) is not modelled. Statements are compared as single-line text.
- A failing `duckdb.connect` is not modelled: opening always succeeds on the stored catalog.
- Builder.RunMain: farms are built against the same disk, so one farm's database file is not visible to the next. LayoutsSeparate shows that farms never share inputs or a database file.
- Builder.RunMain: the farm directories come as a sequence in `iterdir` order. Filtering to directories is not modelled.
- Builder.BuildFarm: the order of the validation warnings is not stated, because it follows the engine's `SHOW TABLES` order.
- Builder.CreateStepOutcome, Builder.CreateStep, Builder.WindFarmDBBuilder.CreateFrom: these issue the escaped statement, not the one the four `_create_*` methods write (scripts/create_duckdb.py:82-85, 99-102, 126-129, 143-146). What the engine does with the as-written statement when the path holds a quote is not modelled (a syntax error, or a read of another file). Builder.QuotedFarmDirectory exhibits that case. Builder.UnescapedAgreesWithoutQuote shows the two statements are equal for every other path.
- Errors other than a missing parquet file or a failed CREATE cannot escape `build` in this model: the engine calls after a CREATE are total here.

## Findings

| source | as written | input that shows it | evidently intended | confidence | as-written member | corrected member |
|---|---|---|---|---|---|---|
| scripts/create_duckdb.py:84 (also :101, :128, :145) | the path is pasted into the `read_*('…')` literal without escaping | farm directory `o'brien`: the literal ends after `data/raw/o` and the rest of the path becomes SQL text | escape the path as `_escape_path` does (scripts/utils/file_readers.py:12-15), so the literal denotes the whole path | not executed | Builder.QuotedFarmDirectory | Builder.QuotedFarmDirectoryEscaped |
