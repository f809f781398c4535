/**
 * `table_creation` of the vaccination pipeline: for every table of a schema
 * (table name -> column name -> column type, all in insertion order) it
 * renders the DDL of the transient staging table `{database}TEMP_{table}`,
 * with a `FILE_ROW_NUMBER Number(8,0)` column added to every table, and
 * returns the statements as a dict keyed by table name.
 */
module TableCreation {
  import opened PyDict
  import opened Text

  /** The column that `table_creation` adds to every staging table, and its type. */
  const RowNumberColumn: string := "FILE_ROW_NUMBER"
  const RowNumberType: string := "Number(8,0)"
  const RowNumberClause: string := RowNumberColumn + " " + RowNumberType

  /** A schema as a value: ordered table name -> ordered (column, type) entries. */
  type Schema = seq<(string, seq<(string, string)>)>

  /** What Python's dict type guarantees of a schema: distinct table and column names. */
  predicate WellFormed(s: Schema)
  {
    DistinctKeys(s) && forall i | 0 <= i < |s| :: DistinctKeys(s[i].1)
  }

  /** One table's column dict, which `table_creation` updates in place. */
  class Columns {
    var items: seq<(string, string)>

    ghost predicate Valid()
      reads this
    {
      DistinctKeys(items)
    }

    constructor (items: seq<(string, string)>)
      requires DistinctKeys(items)
      ensures Valid() && this.items == items
    {
      this.items := items;
    }

    /** `columns[k] = v`. */
    method SetItem(k: string, v: string)
      requires Valid()
      modifies this
      ensures Valid() && items == Put(old(items), k, v)
    {
      items := Put(items, k, v);
    }
  }

  /** The value a schema of column-dict objects currently holds. */
  function View(schema: seq<(string, Columns)>): Schema
    reads set e | e in schema :: e.1
  {
    seq(|schema|, i requires 0 <= i < |schema| reads if 0 <= i < |schema| then {schema[i].1} else {} => (schema[i].0, schema[i].1.items))
  }

  /**
   * `columns['FILE_ROW_NUMBER'] = 'Number(8,0)'` on a column dict (line 73):
   * the column is appended last when absent; when present it keeps its
   * position and takes the type Number(8,0). No other column changes.
   */
  function AddRowNumber(cols: seq<(string, string)>): (r: seq<(string, string)>)
    requires DistinctKeys(cols)
    ensures DistinctKeys(r)
    ensures Keys(r) == if RowNumberColumn in Keys(cols) then Keys(cols) else Keys(cols) + [RowNumberColumn]
    ensures |r| == |cols| + (if RowNumberColumn in Keys(cols) then 0 else 1)
    ensures Lookup(r, RowNumberColumn) == Some(RowNumberType)
    ensures forall c | c != RowNumberColumn :: Lookup(r, c) == Lookup(cols, c)
  {
    var r := Put(cols, RowNumberColumn, RowNumberType);
    PutLookup(cols, RowNumberColumn, RowNumberType, RowNumberColumn);
    forall c | c != RowNumberColumn
      ensures Lookup(r, c) == Lookup(cols, c)
    {
      PutLookup(cols, RowNumberColumn, RowNumberType, c);
    }
    r
  }

  /** `f"{column} {data_type}"` for every column, in column order. */
  function Clauses(cols: seq<(string, string)>): seq<string>
  {
    seq(|cols|, i requires 0 <= i < |cols| => cols[i].0 + " " + cols[i].1)
  }

  function Header(database: string, table: string): string
  {
    "CREATE or replace TRANSIENT TABLE " + database + "TEMP_" + table + " ("
  }

  const Footer: string := ");"

  /** The statement text for a table with exactly the columns `cols` (lines 79-81). */
  function Ddl(database: string, table: string, cols: seq<(string, string)>): string
  {
    Header(database, table) + Join(", ", Clauses(cols)) + Footer
  }

  /** The statement `table_creation` builds for one table from its original columns. */
  function TempTableDdl(database: string, table: string, cols: seq<(string, string)>): string
    requires DistinctKeys(cols)
  {
    Ddl(database, table, AddRowNumber(cols))
  }

  /** The dict `table_creation` returns, as a value: one statement per table, in table order. */
  function CreateStatements(s: Schema, database: string): seq<(string, string)>
    requires WellFormed(s)
  {
    seq(|s|, i requires 0 <= i < |s| && DistinctKeys(s[i].1) => (s[i].0, TempTableDdl(database, s[i].0, s[i].1)))
  }

  /**
   * `copy.deepcopy(schema)` (line 71): new column dicts with the same
   * contents, none of them shared with the caller's schema or with each other.
   */
  method DeepCopy(schema: seq<(string, Columns)>) returns (copy: seq<(string, Columns)>)
    requires forall i | 0 <= i < |schema| :: schema[i].1.Valid()
    ensures |copy| == |schema|
    ensures forall i | 0 <= i < |copy| ::
      copy[i].0 == schema[i].0 && fresh(copy[i].1) && copy[i].1.items == schema[i].1.items && copy[i].1.Valid()
    ensures forall i, j | 0 <= i < j < |copy| :: copy[i].1 != copy[j].1
  {
    copy := [];
    for i := 0 to |schema|
      invariant |copy| == i
      invariant forall j | 0 <= j < i ::
        copy[j].0 == schema[j].0 && fresh(copy[j].1) && copy[j].1.items == schema[j].1.items
      invariant forall j, k | 0 <= j < k < i :: copy[j].1 != copy[k].1
    {
      var columns := new Columns(schema[i].1.items);
      copy := copy + [(schema[i].0, columns)];
    }
  }

  /** The loop of lines 72-73: every column dict gets `FILE_ROW_NUMBER Number(8,0)`. */
  method AddRowNumbers(tables: seq<(string, Columns)>)
    requires forall i | 0 <= i < |tables| :: tables[i].1.Valid()
    requires forall i, j | 0 <= i < j < |tables| :: tables[i].1 != tables[j].1
    modifies set i | 0 <= i < |tables| :: tables[i].1
    ensures forall i | 0 <= i < |tables| ::
      old(tables[i].1.Valid()) && tables[i].1.Valid() && tables[i].1.items == AddRowNumber(old(tables[i].1.items))
  {
    for i := 0 to |tables|
      invariant forall j | 0 <= j < |tables| :: tables[j].1.Valid()
      invariant forall j | 0 <= j < i :: tables[j].1.items == AddRowNumber(old(tables[j].1.items))
      invariant forall j | i <= j < |tables| :: tables[j].1.items == old(tables[j].1.items)
    {
      tables[i].1.SetItem(RowNumberColumn, RowNumberType);
    }
  }

  /**
   * The loop of lines 75-86: one statement per table, listing the table's
   * columns in their dict order, stored in a new dict under the table's name.
   */
  method RenderStatements(tables: seq<(string, Columns)>, database: string) returns (statements: seq<(string, string)>)
    requires DistinctKeys(tables)
    ensures |statements| == |tables|
    ensures forall i | 0 <= i < |tables| :: statements[i] == (tables[i].0, Ddl(database, tables[i].0, tables[i].1.items))
  {
    statements := [];
    for i := 0 to |tables|
      invariant |statements| == i
      invariant forall j | 0 <= j < i :: statements[j] == (tables[j].0, Ddl(database, tables[j].0, tables[j].1.items))
    {
      var (tableName, columns) := tables[i];
      var sql := "CREATE or replace TRANSIENT TABLE " + database + "TEMP_" + tableName + " (";
      sql := sql + Join(", ", Clauses(columns.items));
      sql := sql + ");";
      assert tableName !in Keys(statements);
      statements := Put(statements, tableName, sql);
    }
  }

  /**
   * `table_creation(schema, database)` (lines 62-86). The result is the
   * statement dict the specification function gives for the caller's schema,
   * and the caller's column dicts are left as they were.
   */
  method TableCreation(schema: seq<(string, Columns)>, database: string) returns (statements: seq<(string, string)>)
    requires DistinctKeys(schema)
    requires forall i | 0 <= i < |schema| :: schema[i].1.Valid()
    ensures WellFormed(View(schema))
    ensures statements == CreateStatements(View(schema), database)
    ensures forall i | 0 <= i < |schema| :: unchanged(schema[i].1)
  {
    ghost var original := View(schema);
    assert WellFormed(original);
    var copy := DeepCopy(schema);
    AddRowNumbers(copy);
    assert forall i | 0 <= i < |schema| :: unchanged(schema[i].1);
    assert View(schema) == original;
    statements := RenderStatements(copy, database);
    forall i | 0 <= i < |schema|
      ensures statements[i] == CreateStatements(original, database)[i]
    {
      assert copy[i].1.items == AddRowNumber(original[i].1);
    }
  }

  /**
   * A table without FILE_ROW_NUMBER: its statement lists its own columns in
   * order and then `FILE_ROW_NUMBER Number(8,0)` as the last column.
   */
  lemma DdlWhenRowNumberAbsent(database: string, table: string, cols: seq<(string, string)>)
    requires DistinctKeys(cols) && RowNumberColumn !in Keys(cols)
    ensures TempTableDdl(database, table, cols) ==
      Header(database, table)
      + (if cols == [] then RowNumberClause else Join(", ", Clauses(cols)) + ", " + RowNumberClause)
      + Footer
  {
    var added := AddRowNumber(cols);
    assert added == cols + [(RowNumberColumn, RowNumberType)];
    assert Clauses(added) == Clauses(cols) + [RowNumberClause];
    if cols != [] {
      JoinAppend(", ", Clauses(cols), RowNumberClause);
    }
  }

  /**
   * A table that already has FILE_ROW_NUMBER: the column keeps its position
   * and only its type changes to Number(8,0); no column is added.
   */
  lemma DdlWhenRowNumberPresent(database: string, table: string, cols: seq<(string, string)>, p: nat)
    requires DistinctKeys(cols) && p < |cols| && cols[p].0 == RowNumberColumn
    ensures TempTableDdl(database, table, cols) ==
      Header(database, table) + Join(", ", Clauses(cols)[p := RowNumberClause]) + Footer
  {
    var added := Put(cols, RowNumberColumn, RowNumberType);
    assert RowNumberColumn in Keys(cols) by {
      assert Keys(cols)[p] == RowNumberColumn;
    }
    assert Clauses(added) == Clauses(cols)[p := RowNumberClause];
  }

  /** Setting the column a second time changes nothing. */
  lemma AddRowNumberIdempotent(cols: seq<(string, string)>)
    requires DistinctKeys(cols)
    ensures AddRowNumber(AddRowNumber(cols)) == AddRowNumber(cols)
  {
    var once := AddRowNumber(cols);
    assert RowNumberColumn in Keys(once);
    var twice := AddRowNumber(once);
    assert forall i | 0 <= i < |once| :: once[i].0 == RowNumberColumn ==> once[i].1 == RowNumberType by {
      forall i | 0 <= i < |once| && once[i].0 == RowNumberColumn
        ensures once[i].1 == RowNumberType
      {
        LookupAt(once, i);
      }
    }
  }

  /**
   * The returned dict has exactly the schema's table names, in the schema's
   * order, and under each name the statement for that table.
   */
  lemma StatementPerTable(s: Schema, database: string)
    requires WellFormed(s)
    ensures Keys(CreateStatements(s, database)) == Keys(s)
    ensures DistinctKeys(CreateStatements(s, database))
    ensures forall t | t !in Keys(s) :: Lookup(CreateStatements(s, database), t) == None
    ensures forall i | 0 <= i < |s| ::
      Lookup(CreateStatements(s, database), s[i].0) == Some(TempTableDdl(database, s[i].0, s[i].1))
  {
    var r := CreateStatements(s, database);
    assert Keys(r) == Keys(s);
    forall i | 0 <= i < |s|
      ensures Lookup(r, s[i].0) == Some(TempTableDdl(database, s[i].0, s[i].1))
    {
      LookupAt(r, i);
    }
  }
}
