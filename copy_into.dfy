/**
 * `copy_into_statement` of the vaccination pipeline: the Snowflake
 * `COPY INTO` statement that loads the named stage files of one table into
 * its staging table `{database}TEMP_{table}`.
 */
module CopyInto {
  import opened PyDict
  import opened Text

  /**
   * A name whose Python `repr` is the name between single quotes: printable
   * ASCII with neither a single quote nor a backslash.
   */
  predicate ReprSafe(name: string)
  {
    forall i | 0 <= i < |name| :: ' ' <= name[i] <= '~' && name[i] != '\'' && name[i] != '\\'
  }

  predicate AllReprSafe(names: seq<string>)
  {
    forall i | 0 <= i < |names| :: ReprSafe(names[i])
  }

  /** `repr(name)` for a ReprSafe name, which Python writes without escapes. */
  function PyStrRepr(name: string): string
  {
    "'" + name + "'"
  }

  /** The repr of every name, in input order. */
  function Quoted(names: seq<string>): (q: seq<string>)
    ensures |q| == |names|
    ensures forall i | 0 <= i < |names| :: q[i] == PyStrRepr(names[i])
  {
    if names == [] then [] else [PyStrRepr(names[0])] + Quoted(names[1..])
  }

  /**
   * `str(tuple(names))`: the items' reprs joined by ", " between parentheses,
   * where a one-item tuple carries a trailing comma.
   */
  function PyTupleRepr(names: seq<string>): string
    requires AllReprSafe(names)
  {
    if |names| == 1 then "(" + PyStrRepr(names[0]) + ",)"
    else "(" + Join(", ", Quoted(names)) + ")"
  }

  /**
   * The text that replaces `{files}` (lines 92-95): a single file is written
   * by hand as `('f')`, any other count as Python's tuple repr. Only the
   * tuple path quotes the names through `repr`, so only it constrains them.
   */
  function FilesClause(files: seq<string>): (r: string)
    requires |files| == 1 || AllReprSafe(files)
    ensures files == [] ==> r == "()"
  {
    if |files| == 1 then "('" + files[0] + "')" else PyTupleRepr(files)
  }

  /** The template text before `{files}` (lines 96-98). */
  function CopyHead(table: string, database: string, stage: string): string
  {
    "Copy into " + database + "TEMP_" + table + "  FROM  '" + stage + "/" + table + "/'\n"
    + "                        FILE_FORMAT = (TYPE = 'JSON', REPLACE_INVALID_CHARACTERS=TRUE   ) \n"
    + "                        FILES = "
  }

  /** The template text after `{files}` (lines 98-101); it does not depend on any input. */
  const CopyTail: string :=
    "\n"
    + "                         MATCH_BY_COLUMN_NAME = CASE_INSENSITIVE\n"
    + "                        INCLUDE_METADATA = (File_Source = METADATA$FILENAME , FILE_ROW_NUMBER= METADATA$FILE_ROW_NUMBER)\n"
    + "                        ON_ERROR=ABORT_STATEMENT; "

  /** `copy_into_statement(table, files, database, stage)` (lines 89-102). */
  function CopyIntoStatement(table: string, files: seq<string>, database: string, stage: string): (r: string)
    requires |files| == 1 || AllReprSafe(files)
  {
    CopyHead(table, database, stage) + FilesClause(files) + CopyTail
  }

  /** The position of the first single quote in `s`, or `|s|` when there is none. */
  function FindQuote(s: string): (n: nat)
    ensures n <= |s|
    ensures n < |s| ==> s[n] == '\''
    ensures forall i | 0 <= i < n :: s[i] != '\''
  {
    if s == [] || s[0] == '\'' then 0 else 1 + FindQuote(s[1..])
  }

  /** Reads one quoted name off the front of `s`: the name and what follows its closing quote. */
  function ParseItem(s: string): (r: Option<(string, string)>)
    ensures r.Some? ==> |r.value.1| < |s|
  {
    if s == [] || s[0] != '\'' then None
    else
      var n := FindQuote(s[1..]);
      if n == |s| - 1 then None else Some((s[1..n + 1], s[n + 2..]))
  }

  /** Reads back `'a', 'b', ...`: quoted names separated by ", ". */
  function ParseItems(s: string): Option<seq<string>>
    decreases |s|
  {
    if s == [] then Some([])
    else
      match ParseItem(s)
      case None => None
      case Some((name, rest)) =>
        if rest == [] then Some([name])
        else if |rest| >= 2 && rest[..2] == ", " then
          match ParseItems(rest[2..])
          case None => None
          case Some(names) => Some([name] + names)
        else None
  }

  /** Reads back a FILES clause: the quoted names between parentheses. */
  function ParseFilesClause(s: string): Option<seq<string>>
  {
    if |s| >= 2 && s[0] == '(' && s[|s| - 1] == ')' then ParseItems(s[1..|s| - 1]) else None
  }

  /** Reads the file list back from a COPY INTO statement for the given table, database and stage. */
  function ParseCopyInto(table: string, database: string, stage: string, s: string): Option<seq<string>>
  {
    var head := CopyHead(table, database, stage);
    if |s| >= |head| + |CopyTail| && s[..|head|] == head && s[|s| - |CopyTail|..] == CopyTail
    then ParseFilesClause(s[|head|..|s| - |CopyTail|])
    else None
  }

  /** A name without quotes is read back from its repr, whatever follows it. */
  lemma ParseItemOfRepr(f: string, tail: string)
    requires ReprSafe(f)
    ensures ParseItem(PyStrRepr(f) + tail) == Some((f, tail))
  {
    var s := PyStrRepr(f) + tail;
    assert s[1..] == f + "'" + tail;
    assert FindQuote(s[1..]) == |f| by {
      assert (f + "'" + tail)[|f|] == '\'';
      assert forall i | 0 <= i < |f| :: (f + "'" + tail)[i] == f[i];
    }
    assert s[1..|f| + 1] == f;
    assert s[|f| + 2..] == tail;
  }

  /** The quoted list of a non-empty list starts with the first name's repr. */
  lemma JoinQuotedFirst(names: seq<string>)
    requires AllReprSafe(names) && names != []
    ensures |names| == 1 ==> Join(", ", Quoted(names)) == PyStrRepr(names[0])
    ensures |names| > 1 ==>
      Join(", ", Quoted(names)) == PyStrRepr(names[0]) + ", " + Join(", ", Quoted(names[1..]))
  {
    var q := Quoted(names);
    assert q[0] == PyStrRepr(names[0]);
    assert q[1..] == Quoted(names[1..]);
  }

  lemma {:induction false} ItemsRoundTrip(names: seq<string>)
    requires AllReprSafe(names)
    ensures ParseItems(Join(", ", Quoted(names))) == Some(names)
  {
    if names != [] {
      JoinQuotedFirst(names);
      var f := names[0];
      if |names| == 1 {
        ParseItemOfRepr(f, "");
        assert PyStrRepr(f) + "" == PyStrRepr(f);
        assert [f] == names;
      } else {
        var others := Join(", ", Quoted(names[1..]));
        ParseItemOfRepr(f, ", " + others);
        assert PyStrRepr(f) + ", " + others == PyStrRepr(f) + (", " + others);
        assert (", " + others)[..2] == ", " && (", " + others)[2..] == others;
        ItemsRoundTrip(names[1..]);
        assert [f] + names[1..] == names;
      }
    }
  }

  /**
   * One file is written as the name between single quotes and parentheses,
   * whatever characters the name holds: this path does not go through `repr`.
   */
  lemma OneFileClause(f: string)
    ensures FilesClause([f]) == "('" + f + "')"
  {
  }

  /**
   * For a repr-safe name, the one-file clause is the name's repr between
   * parentheses, where Python's one-item tuple would have put a comma before
   * the closing one.
   */
  lemma OneFileDropsTupleComma(f: string)
    requires ReprSafe(f)
    ensures FilesClause([f]) == "(" + PyStrRepr(f) + ")"
    ensures PyTupleRepr([f]) == "(" + PyStrRepr(f) + ",)"
  {
    OneFileClause(f);
  }

  /**
   * The FILES clause lists the files as quoted names, separated by ", " and
   * in input order, between parentheses: the same shape for every count.
   */
  lemma FilesClauseIsQuotedList(files: seq<string>)
    requires AllReprSafe(files)
    ensures FilesClause(files) == "(" + Join(", ", Quoted(files)) + ")"
  {
    if |files| == 1 {
      assert Quoted(files) == [PyStrRepr(files[0])];
      OneFileDropsTupleComma(files[0]);
    }
  }

  /** The file list can be read back from the FILES clause, in order. */
  lemma FilesClauseRoundTrip(files: seq<string>)
    requires AllReprSafe(files)
    ensures ParseFilesClause(FilesClause(files)) == Some(files)
  {
    FilesClauseIsQuotedList(files);
    var inner := Join(", ", Quoted(files));
    assert ("(" + inner + ")")[1..|inner| + 1] == inner;
    ItemsRoundTrip(files);
  }

  /**
   * The statement is the fixed head for the table, database and stage, the
   * FILES clause, and the fixed tail; the file list can be read back from it.
   */
  lemma CopyIntoRoundTrip(table: string, files: seq<string>, database: string, stage: string)
    requires AllReprSafe(files)
    ensures ParseCopyInto(table, database, stage, CopyIntoStatement(table, files, database, stage)) == Some(files)
  {
    var head, clause := CopyHead(table, database, stage), FilesClause(files);
    var s := CopyIntoStatement(table, files, database, stage);
    assert s[..|head|] == head;
    assert s[|s| - |CopyTail|..] == CopyTail;
    assert s[|head|..|s| - |CopyTail|] == clause;
    FilesClauseRoundTrip(files);
  }

  /**
   * The one-file path writes the name unquoted, so a single name holding
   * `', '` gives the same statement as two separate files.
   */
  lemma OneFileCollision(table: string, database: string, stage: string)
    ensures ["x', 'y"] != ["x", "y"]
    ensures FilesClause(["x', 'y"]) == FilesClause(["x", "y"]) == "('x', 'y')"
    ensures CopyIntoStatement(table, ["x', 'y"], database, stage) == CopyIntoStatement(table, ["x", "y"], database, stage)
  {
    assert ["x', 'y"][0] != ["x", "y"][0];
    assert AllReprSafe(["x", "y"]);
    assert PyStrRepr("x") == "'x'" && PyStrRepr("y") == "'y'";
    assert Quoted(["x", "y"]) == ["'x'", "'y'"];
    assert Join(", ", ["'x'", "'y'"]) == "'x', 'y'";
  }

  /** Different file lists give different statements. */
  lemma CopyIntoInjective(table: string, files1: seq<string>, files2: seq<string>, database: string, stage: string)
    requires AllReprSafe(files1) && AllReprSafe(files2)
    requires CopyIntoStatement(table, files1, database, stage) == CopyIntoStatement(table, files2, database, stage)
    ensures files1 == files2
  {
    CopyIntoRoundTrip(table, files1, database, stage);
    CopyIntoRoundTrip(table, files2, database, stage);
  }
}
