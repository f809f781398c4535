# Staging-table SQL builders of the vaccination data pipeline

This project is a Dafny model of the two SQL-text builders in
`data-pipelines/vaccination_data_pipeline.py`.

- `table_creation(schema, database)` takes an ordered schema: each table
  name maps to an ordered dict of column name to column type.
  - It deep-copies the schema.
  - It sets `FILE_ROW_NUMBER` to `Number(8,0)` in every table's column dict.
  - It returns a dict from each table name to the statement
    `CREATE or replace TRANSIENT TABLE {database}TEMP_{table} (col type, ...);`.
- `copy_into_statement(table, files, database, stage)` renders the Snowflake
  `COPY INTO {database}TEMP_{table}` statement that loads the listed JSON files
  from `'{stage}/{table}/'`.
  - One file is written by hand as `('f')`.
  - Any other number of files is written as Python's `tuple(files)`.

Python dicts keep insertion order, so a dict is modelled as the sequence of its
`(key, value)` entries, with distinct keys (module `PyDict`). `d[k] = v` is
`PyDict.Put`: an existing key keeps its place and takes the new value, and a
new key goes at the end. `sep.join` is `Text.Join`.

The source updates the column dicts in place. Each one is therefore an object,
`TableCreation.Columns`, and the method `TableCreation.TableCreation` does
what the source does:

1. It deep-copies the schema into fresh `Columns` objects (`DeepCopy`).
2. It sets the row-number column in each copy (`AddRowNumbers`).
3. It builds the statement dict by string concatenation (`RenderStatements`).

The method has no `modifies` clause, so Dafny checks that it changes none of
the caller's objects. It is proved equal to the value-level function
`CreateStatements`, and the lemmas state what that function promises.

`copy_into_statement` is pure and is modelled by functions. The FILES clause
can be read back. `ParseFilesClause` and `ParseCopyInto` recover the file list
from the generated text, and the round-trip lemmas show the list comes back
whole and in order, with the fixed template text around it.

Two details of the code are worth knowing:

- The DDL names the staging table `{database}TEMP_{table}`: the database
  prefix comes straight before `TEMP_`. `FILE_ROW_NUMBER Number(8,0)` is
  added to every table.
- The type hint `-> list` of `table_creation` (line 62) is wrong: the code
  returns a dict keyed by table name. That dict is modelled.
- The one-file FILES clause puts the name between quotes without escaping
  it. A single name that contains `', '` therefore renders the same as two
  files (`OneFileCollision`), so `copy_into_statement` is injective only on
  repr-safe names.

## Model

| member | source | states |
|---|---|---|
| PyDict.Put | data-pipelines/vaccination_data_pipeline.py:73 | `d[k] = v` keeps keys distinct; an absent key is appended last; a present key keeps its position and only its value changes |
| PyDict.PutLookup | data-pipelines/vaccination_data_pipeline.py:84 | after `d[k] = v`, looking up `k` gives `v` and every other key gives what it gave before |
| PyDict.LookupAt | data-pipelines/vaccination_data_pipeline.py:77 | in a dict with distinct keys, the entry at each position is what a lookup of its key returns |
| Text.Join | data-pipelines/vaccination_data_pipeline.py:80 | `sep.join(xs)`; no ensures of its own, its property is JoinAppend |
| Text.JoinAppend | data-pipelines/vaccination_data_pipeline.py:80 | `", ".join` of a non-empty list with one more item is the old text, the separator, then the item |
| TableCreation.Columns.SetItem | data-pipelines/vaccination_data_pipeline.py:73 | setting a column on a column dict updates it in place as `Put` does, and the dict keeps distinct column names |
| TableCreation.Clauses | data-pipelines/vaccination_data_pipeline.py:80 | `f"{column} {data_type}"` for each column, in dict order; no ensures, used by DdlWhenRowNumberAbsent and DdlWhenRowNumberPresent |
| TableCreation.Header | data-pipelines/vaccination_data_pipeline.py:79 | the fixed statement head `CREATE or replace TRANSIENT TABLE {database}TEMP_{table} (`; no ensures, used by the Ddl lemmas |
| TableCreation.Ddl | data-pipelines/vaccination_data_pipeline.py:79-81 | the statement text for a table with the given columns: header, clauses joined by `", "`, `);`; no ensures, RenderStatements is proved against it |
| TableCreation.TempTableDdl | data-pipelines/vaccination_data_pipeline.py:72-81 | the statement for one table after the row-number column is added; no ensures, its properties are DdlWhenRowNumberAbsent and DdlWhenRowNumberPresent |
| TableCreation.CreateStatements | data-pipelines/vaccination_data_pipeline.py:62-86 | the returned dict as a value; no ensures, its properties are StatementPerTable, and TableCreation is proved equal to it |
| TableCreation.AddRowNumber | data-pipelines/vaccination_data_pipeline.py:72-73 | after adding the row-number column, column names stay distinct. The column list is the old one with `FILE_ROW_NUMBER` appended only if it was absent, so the count grows by one only then. `FILE_ROW_NUMBER` now has type `Number(8,0)` and the other columns are unchanged |
| TableCreation.AddRowNumberIdempotent | data-pipelines/vaccination_data_pipeline.py:73 | adding the row-number column a second time changes nothing |
| TableCreation.DdlWhenRowNumberAbsent | data-pipelines/vaccination_data_pipeline.py:79-81 | for a table without `FILE_ROW_NUMBER`, the statement is the header, the table's own clauses in order, then `FILE_ROW_NUMBER Number(8,0)` last, then `);`. For a table with no columns the row-number clause is the only one |
| TableCreation.DdlWhenRowNumberPresent | data-pipelines/vaccination_data_pipeline.py:79-81 | for a table that already has `FILE_ROW_NUMBER` at position p, the statement has the same clauses in the same order, with only clause p replaced by `FILE_ROW_NUMBER Number(8,0)` |
| TableCreation.StatementPerTable | data-pipelines/vaccination_data_pipeline.py:75-86 | the returned dict has exactly the schema's table names, in schema order and without repeats; under each name is that table's statement, and other names are absent |
| TableCreation.DeepCopy | data-pipelines/vaccination_data_pipeline.py:71 | the copy has the same table names and column contents, in fresh column dicts shared neither with the caller nor with each other |
| TableCreation.AddRowNumbers | data-pipelines/vaccination_data_pipeline.py:72-73 | every copied column dict becomes `AddRowNumber` of its previous contents |
| TableCreation.RenderStatements | data-pipelines/vaccination_data_pipeline.py:75-86 | the i-th entry of the result dict is the i-th table's name and `CREATE or replace TRANSIENT TABLE {database}TEMP_{table} (` + its clauses joined by `", "` + `);` |
| TableCreation.TableCreation | data-pipelines/vaccination_data_pipeline.py:62-86 | the result is `CreateStatements` of the caller's schema, and none of the caller's column dicts is changed |
| CopyInto.PyTupleRepr | data-pipelines/vaccination_data_pipeline.py:95 | `str(tuple(names))` for repr-safe names, with the trailing comma for one item; no ensures, its properties are OneFileDropsTupleComma and FilesClauseIsQuotedList |
| CopyInto.CopyHead | data-pipelines/vaccination_data_pipeline.py:96-98 | the template text before `{files}`, after which the constant `CopyTail` holds lines 98-101; no ensures, fixed by CopyIntoRoundTrip |
| CopyInto.CopyIntoStatement | data-pipelines/vaccination_data_pipeline.py:89-102 | `copy_into_statement`: head, FILES clause, tail; no ensures, its properties are CopyIntoRoundTrip and CopyIntoInjective |
| CopyInto.FilesClause | data-pipelines/vaccination_data_pipeline.py:92-95 | with zero files the FILES clause is `()`; file names need to be repr-safe only when there is not exactly one file |
| CopyInto.OneFileClause | data-pipelines/vaccination_data_pipeline.py:92-93 | one file renders as `('f')` for every name `f`, quotes and backslashes included, since this path does not use `repr` |
| CopyInto.OneFileDropsTupleComma | data-pipelines/vaccination_data_pipeline.py:92-93 | one file renders as `('f')`, where Python's one-item tuple would render `('f',)` |
| CopyInto.FilesClauseIsQuotedList | data-pipelines/vaccination_data_pipeline.py:92-95 | for every file count, the FILES clause is the single-quoted names, in input order, separated by `", "`, between parentheses |
| CopyInto.ItemsRoundTrip | data-pipelines/vaccination_data_pipeline.py:95 | the quoted, comma-separated list of repr-safe names parses back to exactly those names |
| CopyInto.FilesClauseRoundTrip | data-pipelines/vaccination_data_pipeline.py:92-95 | for repr-safe file names, the file list parses back from the FILES clause, complete and in order |
| CopyInto.CopyIntoRoundTrip | data-pipelines/vaccination_data_pipeline.py:96-102 | the statement is the fixed head for `{database}TEMP_{table}` and `'{stage}/{table}/'`, then the FILES clause, then the fixed tail that does not depend on any input. For repr-safe file names the file list parses back from it |
| CopyInto.OneFileCollision | data-pipelines/vaccination_data_pipeline.py:92-95 | without the repr-safe condition the statement is not injective: the one file `x', 'y` gives the same FILES clause `('x', 'y')`, and the same statement, as the two files `x` and `y` |
| CopyInto.CopyIntoInjective | data-pipelines/vaccination_data_pipeline.py:89-102 | for the same table, database and stage, different lists of repr-safe file names give different statements |

## Left out

- `data-pipelines/common.py` (the S3 client class) is not modelled. It only creates a boto3 client, lists objects page by page and fetches them, all of which is network I/O.
- The import-time Snowflake session with its inline credentials (lines 103-112) and `main` (lines 123-184) are not modelled. They load a config file, open a warehouse session and run SQL in a loop, all of which is I/O.
- `load_json_file`, `refresh_stage`, `get_max_timestamp_loaded_files` and `list_files` (lines 16-59) are not modelled. `load_json_file` is plain file I/O (`open` and `json.load`). The other three send SQL text to Snowflake: the stage refresh, the `REGEXP_SUBSTR` watermark extraction, the 18-minute lookback and the `Last_Modified >=` filter. What that SQL does is decided by the warehouse, not by the Python code.
- `main` passes `copy_into_statement` the list of row dicts returned by `list_files`, not file names. The model follows the string-list contract of the function instead.
- CopyInto.FilesClause: Python's `repr` escapes backslashes, control characters and non-printable Unicode. It also changes how it quotes a name that holds a `'`: double quotes when the name has no `"`, and an escaped `'` when it has both. The model covers only names of printable ASCII without `'` or `\` (`ReprSafe`). Other names are excluded by precondition, except in the single-file case, which does not use `repr`.
- TableCreation.DeepCopy: `copy.deepcopy` keeps two tables that share one column dict sharing one copy. The model gives every table its own fresh copy. The result is the same, because setting the row-number column twice changes nothing (`AddRowNumberIdempotent`).
- TableCreation.TableCreation: Python dicts always have distinct keys. The model states this as preconditions of `TableCreation` and `CreateStatements` (distinct table names, and a `Valid` column dict with distinct column names).
