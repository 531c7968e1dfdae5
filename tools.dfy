/**
 * DatabaseTools: the connection flag set at construction and the four query
 * tools over it. Each tool is a method that builds its result the way the
 * source does (appending in loops) and is proved equal to a specification
 * function of the connection; the lemmas state what those results promise.
 *
 * A tool result is the dictionary the source returns, one constructor per
 * shape; the JSON keys become field names.
 */
module DbTools {
  import opened Wrappers
  import opened Strings
  import opened Sqlite

  const NotAvailable: string := "Database not available"

  datatype ColumnInfo = ColumnInfo(name: string, declaredType: string, nullable: bool, primaryKey: bool)

  datatype ForeignKeyInfo = ForeignKeyInfo(column: string, referencesTable: string, referencesColumn: Option<string>)

  datatype TableCount = TableCount(table: string, rowCount: nat)

  /** dict(zip(columns, row)) */
  type Record = map<string, Value>

  datatype ToolResult =
    | Failure(error: string)                         // {"error": ...}
    | AllTables(tables: seq<string>, count: nat)       // type "all_tables"
    | TableSchema(tableName: string, columns: seq<ColumnInfo>, foreignKeys: seq<ForeignKeyInfo>)
    | SampleRows(table: string, columnNames: seq<string>, sampleData: seq<Record>, sampleSize: nat)
    | ColumnStats(table: string, column: string, distinctCount: nat, nonNullCount: nat, totalCount: nat,
                  sampleValues: seq<Value>)
    | TableStats(counts: seq<TableCount>)
    | Executed(sql: string, columnNames: seq<string>, results: seq<Record>, rowCount: nat,
               validationMessage: Option<string>)
    | ExecutionFailed(sql: string, error: string, errorType: string, validationMessage: Option<string>)
    | ExecutionUnavailable(validationMessage: Option<string>)   // {"success": False, "error": "Database not available"}
    | Rejected(error: string, sql: string)            // execute_sql refused by the validator

  // ---------------------------------------------------------------------------
  // Rows as dictionaries

  /** The positions of a zip of the two sequences at which a column name is not repeated later (where dict() keeps the value). */
  predicate LastOf(columns: seq<string>, j: nat, n: nat)
    requires j < n <= |columns|
  {
    forall k :: j < k < n ==> columns[k] != columns[j]
  }

  /** The dictionary built from the first n pairs, a later pair overwriting an earlier one with the same name. */
  function ZipPrefix(columns: seq<string>, row: Row, n: nat): (m: Record)
    requires n <= |columns| && n <= |row|
    ensures forall c :: c in m <==> c in columns[..n]
    ensures forall j :: 0 <= j < n && LastOf(columns, j, n) ==> m[columns[j]] == row[j]
  {
    if n == 0 then map[]
    else
      assert columns[..n] == columns[..n - 1] + [columns[n - 1]];
      ZipPrefix(columns, row, n - 1)[columns[n - 1] := row[n - 1]]
  }

  /** dict(zip(columns, row)): zip stops at the shorter sequence and a repeated name keeps its last value. */
  function Zip(columns: seq<string>, row: Row): Record {
    ZipPrefix(columns, row, Min(|columns|, |row|))
  }

  /** [f(x) for x in s] */
  function MapSeq<A, B>(f: A -> B, s: seq<A>): (r: seq<B>)
    ensures |r| == |s|
    ensures forall k :: 0 <= k < |s| ==> r[k] == f(s[k])
  {
    seq(|s|, k requires 0 <= k < |s| => f(s[k]))
  }

  /** Mapping one more element of s appends its image. */
  lemma MapSeqGrows<A, B>(f: A -> B, s: seq<A>, i: nat)
    requires i < |s|
    ensures MapSeq(f, s[..i + 1]) == MapSeq(f, s[..i]) + [f(s[i])]
  {
    assert |MapSeq(f, s[..i + 1])| == |MapSeq(f, s[..i]) + [f(s[i])]|;
  }

  function Zipper(columns: seq<string>): Row -> Record {
    row => Zip(columns, row)
  }

  /** [dict(zip(columns, row)) for row in rows] */
  function ZipAll(columns: seq<string>, rows: seq<Row>): (r: seq<Record>)
    ensures |r| == |rows|
    ensures forall k :: 0 <= k < |rows| ==> r[k] == Zip(columns, rows[k])
  {
    MapSeq(Zipper(columns), rows)
  }

  // ---------------------------------------------------------------------------
  // What each tool returns

  /** One PRAGMA table_info row as the source reports it. */
  function Describe(c: Column): ColumnInfo {
    ColumnInfo(c.name, c.declaredType, !c.notNull, c.pk != 0)
  }

  function DescribeKey(f: ForeignKey): ForeignKeyInfo {
    ForeignKeyInfo(f.fromColumn, f.refTable, f.refColumn)
  }

  function ColumnNames(columns: seq<Column>): (r: seq<string>)
    ensures |r| == |columns|
    ensures forall i :: 0 <= i < |columns| ==> r[i] == columns[i].name
  {
    seq(|columns|, i requires 0 <= i < |columns| => columns[i].name)
  }

  /** The columns PRAGMA table_info reports: those of the designated table, none when no table has that name. */
  function PragmaColumns(db: Database, name: string): seq<Column> {
    match FindTable(db.tables, name)
    case Some(t) => t.columns
    case None => []
  }

  function PragmaForeignKeys(db: Database, name: string): seq<ForeignKey> {
    match FindTable(db.tables, name)
    case Some(t) => t.foreignKeys
    case None => []
  }

  /** get_schema_info */
  function SchemaInfo(conn: Option<Database>, tableName: Option<string>): ToolResult {
    match conn
    case None => Failure(NotAvailable)
    case Some(db) =>
      match tableName
      case None =>
        var names := CatalogNames(db);
        AllTables(names, |names|)
      case Some(t) =>
        var cs := PragmaColumns(db, t);
        var fs := PragmaForeignKeys(db, t);
        TableSchema(t, seq(|cs|, i requires 0 <= i < |cs| => Describe(cs[i])),
                    seq(|fs|, i requires 0 <= i < |fs| => DescribeKey(fs[i])))
  }

  function ExploreError(message: string): string {
    "Error exploring data: " + message
  }

  /** explore_data */
  function Explore(conn: Option<Database>, tableName: string, columnName: Option<string>, sampleSize: int): ToolResult {
    match conn
    case None => Failure(NotAvailable)
    case Some(db) =>
      match FindTable(db.tables, tableName)
      case None => Failure(ExploreError("no such table: " + tableName))
      case Some(t) =>
        match columnName
        case None =>
          var names := ColumnNames(t.columns);
          var rows := Limit(t.rows, sampleSize);
          SampleRows(tableName, names, ZipAll(names, rows), |rows|)
        case Some(c) =>
          match ColumnIndex(t.columns, c)
          case None => Failure(ExploreError("no such column: " + c))
          case Some(i) =>
            var present := NonNull(ColumnValues(t.rows, i));
            var distinct := Distinct(present);
            ColumnStats(tableName, c, |distinct|, |present|, |t.rows|, Limit(distinct, sampleSize))
  }

  /** SELECT COUNT(*) FROM name */
  function RowCount(db: Database, name: string): nat {
    match FindTable(db.tables, name)
    case Some(t) => |t.rows|
    case None => 0
  }

  function Counts(db: Database, names: seq<string>): (r: seq<TableCount>)
    ensures |r| == |names|
    ensures forall k :: 0 <= k < |names| ==> r[k] == TableCount(names[k], RowCount(db, names[k]))
  {
    seq(|names|, k requires 0 <= k < |names| => TableCount(names[k], RowCount(db, names[k])))
  }

  /** get_table_stats */
  function TableStatsOf(conn: Option<Database>): ToolResult {
    match conn
    case None => Failure(NotAvailable)
    case Some(db) => TableStats(Counts(db, CatalogNames(db)))
  }

  function DescriptionNames(rs: ResultSet): seq<string> {
    match rs.description
    case Some(names) => names
    case None => []
  }

  /** execute_sql (without execution_time) */
  function Execution(conn: Option<Database>, sql: string): ToolResult {
    match conn
    case None => ExecutionUnavailable(None)
    case Some(db) =>
      match db.run(sql)
      case Err(e) => ExecutionFailed(sql, e.message, e.kind, None)
      case Ok(rs) =>
        var names := DescriptionNames(rs);
        var results := ZipAll(names, rs.rows);
        Executed(sql, names, results, |results|, None)
  }

  // ---------------------------------------------------------------------------
  // The loops the tools build their answers with

  /** The loop that appends dict(zip(columns, row)) for each fetched row. */
  method ZipRows(columns: seq<string>, rows: seq<Row>) returns (records: seq<Record>)
    ensures records == ZipAll(columns, rows)
  {
    records := [];
    for i := 0 to |rows|
      invariant records == ZipAll(columns, rows[..i])
    {
      MapSeqGrows(Zipper(columns), rows, i);
      records := records + [Zip(columns, rows[i])];
    }
    assert rows[..|rows|] == rows;
  }

  /** The loop that runs one COUNT(*) query per catalogue table, in catalogue order. */
  method CountRows(db: Database, tables: seq<string>) returns (stats: seq<TableCount>)
    ensures stats == Counts(db, tables)
  {
    stats := [];
    for i := 0 to |tables|
      invariant |stats| == i
      invariant forall k :: 0 <= k < i ==> stats[k] == TableCount(tables[k], RowCount(db, tables[k]))
    {
      stats := stats + [TableCount(tables[i], RowCount(db, tables[i]))];
    }
    assert stats == Counts(db, tables);
  }

  // ---------------------------------------------------------------------------
  // The object

  class DatabaseTools {
    var available: bool
    var connection: Option<Database>

    /** The flag says whether a connection was opened. */
    ghost predicate Valid()
      reads this
    {
      available <==> connection.Some?
    }

    /**
     * __init__: the path check and sqlite3.connect are the environment's;
     * `pathExists` and `outcome` are their outcomes.
     */
    constructor (pathExists: bool, outcome: Result<Database, string>)
      ensures Valid()
      ensures available == (pathExists && outcome.Ok?)
      ensures connection == (if available then Some(outcome.value) else None)
    {
      connection := None;
      available := false;
      new;
      Connect(pathExists, outcome);
    }

    /** _connect: a missing file or a failing connect leaves the object unavailable; nothing is raised. */
    method Connect(pathExists: bool, outcome: Result<Database, string>)
      requires connection.None? && !available
      modifies this
      ensures Valid()
      ensures available == (pathExists && outcome.Ok?)
      ensures connection == (if available then Some(outcome.value) else None)
    {
      if !pathExists {
        available := false;
        return;
      }
      match outcome {
        case Err(_) =>
          available := false;
        case Ok(db) =>
          connection := Some(db);
          available := true;
      }
    }

    method GetSchemaInfo(tableName: Option<string>) returns (r: ToolResult)
      requires Valid()
      ensures r == SchemaInfo(connection, tableName)
    {
      if !available {
        return Failure(NotAvailable);
      }
      var db := connection.value;
      match tableName {
        case None =>
          var tables := CatalogNames(db);
          return AllTables(tables, |tables|);
        case Some(t) =>
          var info := PragmaColumns(db, t);
          var columns: seq<ColumnInfo> := [];
          for i := 0 to |info|
            invariant |columns| == i
            invariant forall k :: 0 <= k < i ==> columns[k] == Describe(info[k])
          {
            columns := columns + [ColumnInfo(info[i].name, info[i].declaredType, !info[i].notNull, info[i].pk != 0)];
          }
          var keys := PragmaForeignKeys(db, t);
          var foreignKeys: seq<ForeignKeyInfo> := [];
          for i := 0 to |keys|
            invariant |foreignKeys| == i
            invariant forall k :: 0 <= k < i ==> foreignKeys[k] == DescribeKey(keys[k])
          {
            foreignKeys := foreignKeys + [ForeignKeyInfo(keys[i].fromColumn, keys[i].refTable, keys[i].refColumn)];
          }
          return TableSchema(t, columns, foreignKeys);
      }
    }

    method ExploreData(tableName: string, columnName: Option<string>, sampleSize: int) returns (r: ToolResult)
      requires Valid()
      ensures r == Explore(connection, tableName, columnName, sampleSize)
    {
      if !available {
        return Failure(NotAvailable);
      }
      var db := connection.value;
      var found := FindTable(db.tables, tableName);
      if found.None? {
        return Failure(ExploreError("no such table: " + tableName));
      }
      var t := found.value;
      match columnName {
        case None =>
          var rows := Limit(t.rows, sampleSize);
          var columns := ColumnNames(t.columns);
          var sampleData := ZipRows(columns, rows);
          return SampleRows(tableName, columns, sampleData, |sampleData|);
        case Some(c) =>
          var index := ColumnIndex(t.columns, c);
          if index.None? {
            return Failure(ExploreError("no such column: " + c));
          }
          var present := NonNull(ColumnValues(t.rows, index.value));
          var distinct := Distinct(present);
          return ColumnStats(tableName, c, |distinct|, |present|, |t.rows|, Limit(distinct, sampleSize));
      }
    }

    method GetTableStats() returns (r: ToolResult)
      requires Valid()
      ensures r == TableStatsOf(connection)
    {
      if !available {
        return Failure(NotAvailable);
      }
      var db := connection.value;
      var tables := CatalogNames(db);
      var stats := CountRows(db, tables);
      return TableStats(stats);
    }

    method ExecuteSql(sql: string) returns (r: ToolResult)
      requires Valid()
      ensures r == Execution(connection, sql)
    {
      if !available {
        return ExecutionUnavailable(None);
      }
      var outcome := connection.value.run(sql);
      match outcome {
        case Err(e) =>
          return ExecutionFailed(sql, e.message, e.kind, None);
        case Ok(rs) =>
          var columns := DescriptionNames(rs);
          var results := ZipRows(columns, rs.rows);
          return Executed(sql, columns, results, |results|, None);
      }
    }
  }

  // ---------------------------------------------------------------------------
  // What the results promise

  /** Without a connection every tool answers "Database not available"; execute_sql also reports success false. */
  lemma UnavailableShortCircuits(tableName: Option<string>, table: string, column: Option<string>, n: int, sql: string)
    ensures SchemaInfo(None, tableName) == Failure(NotAvailable)
    ensures Explore(None, table, column, n) == Failure(NotAvailable)
    ensures TableStatsOf(None) == Failure(NotAvailable)
    ensures Execution(None, sql) == ExecutionUnavailable(None)
  {
  }

  /** get_schema_info(None) lists every table exactly once, ordered by name, and counts them. */
  lemma AllTablesSorted(db: Database)
    ensures SchemaInfo(Some(db), None).AllTables?
    ensures var r := SchemaInfo(Some(db), None);
      && Sorted(r.tables)
      && multiset(r.tables) == multiset(Names(db.tables))
      && r.count == |r.tables| == |db.tables|
  {
    var names := CatalogNames(db);
    assert |names| == |multiset(names)| == |multiset(Names(db.tables))| == |db.tables|;
  }

  /**
   * For a named table: one entry per declared column, in order, with nullable
   * the negation of the notnull flag and primary_key set when the pk position
   * is not 0; a name no table has gives empty lists rather than an error.
   */
  lemma NamedTableSchema(db: Database, t: string)
    ensures var r := SchemaInfo(Some(db), Some(t));
      && r.TableSchema? && r.tableName == t
      && (FindTable(db.tables, t).None? ==> r.columns == [] && r.foreignKeys == [])
      && (FindTable(db.tables, t).Some? ==>
            var table := FindTable(db.tables, t).value;
            && |r.columns| == |table.columns|
            && (forall i :: 0 <= i < |table.columns| ==>
                  && r.columns[i].name == table.columns[i].name
                  && r.columns[i].nullable == !table.columns[i].notNull
                  && r.columns[i].primaryKey == (table.columns[i].pk != 0))
            && |r.foreignKeys| == |table.foreignKeys|
            && (forall i :: 0 <= i < |table.foreignKeys| ==>
                  r.foreignKeys[i] == ForeignKeyInfo(table.foreignKeys[i].fromColumn, table.foreignKeys[i].refTable,
                                                     table.foreignKeys[i].refColumn)))
  {
  }

  /** A zipped row maps each column name not repeated later to the row's value at that position. */
  lemma ZipReads(columns: seq<string>, row: Row, j: nat)
    requires j < |columns| == |row| && NoDuplicates(columns)
    ensures forall c :: c in Zip(columns, row) <==> c in columns
    ensures columns[j] in Zip(columns, row) && Zip(columns, row)[columns[j]] == row[j]
  {
    assert columns[..|columns|] == columns;
    assert LastOf(columns, j, |columns|);
  }

  /**
   * Sample rows: as many as the LIMIT lets through (all of them for a negative
   * sample size), sample_size equal to their number, each the table's row at
   * that position zipped with the column names.
   */
  lemma SampleRowsShape(db: Database, table: string, n: int)
    requires FindTable(db.tables, table).Some?
    ensures var t := FindTable(db.tables, table).value; var r := Explore(Some(db), table, None, n);
      && r.SampleRows?
      && r.columnNames == ColumnNames(t.columns)
      && r.sampleSize == |r.sampleData|
      && |r.sampleData| == (if n < 0 then |t.rows| else Min(n, |t.rows|))
      && forall k :: 0 <= k < |r.sampleData| ==> r.sampleData[k] == Zip(r.columnNames, t.rows[k])
  {
  }

  /**
   * Column statistics: distinct_count <= non_null_count <= total_count, and
   * the sample values are distinct, not NULL, drawn from the column, and as
   * many as the LIMIT allows out of the distinct values.
   */
  lemma {:induction false} ColumnStatsBounds(db: Database, table: string, column: string, n: int)
    requires FindTable(db.tables, table).Some?
    requires ColumnIndex(FindTable(db.tables, table).value.columns, column).Some?
    ensures var t := FindTable(db.tables, table).value;
      var i := ColumnIndex(t.columns, column).value;
      var r := Explore(Some(db), table, Some(column), n);
      && r.ColumnStats?
      && r.distinctCount <= r.nonNullCount <= r.totalCount == |t.rows|
      && NoDuplicates(r.sampleValues)
      && (forall v :: v in r.sampleValues ==> v != Null && v in ColumnValues(t.rows, i))
      && |r.sampleValues| == (if n < 0 then r.distinctCount else Min(n, r.distinctCount))
  {
    var t := FindTable(db.tables, table).value;
    var i := ColumnIndex(t.columns, column).value;
    var present := NonNull(ColumnValues(t.rows, i));
    var distinct := Distinct(present);
    var sample := Limit(distinct, n);
    forall v | v in sample
      ensures v != Null && v in ColumnValues(t.rows, i)
    {
      assert v in distinct;
    }
    forall a, b | 0 <= a < b < |sample|
      ensures sample[a] != sample[b]
    {
      assert sample[a] == distinct[a] && sample[b] == distinct[b];
    }
  }

  /** get_table_stats: one entry per table, in name order, with its row count. */
  lemma TableStatsShape(db: Database)
    ensures var r := TableStatsOf(Some(db));
      && r.TableStats?
      && |r.counts| == |db.tables|
      && Sorted(seq(|r.counts|, k requires 0 <= k < |r.counts| => r.counts[k].table))
      && forall k :: 0 <= k < |r.counts| ==>
           r.counts[k].table == CatalogNames(db)[k] && r.counts[k].rowCount == RowCount(db, r.counts[k].table)
  {
    var names := CatalogNames(db);
    var r := TableStatsOf(Some(db));
    assert |names| == |multiset(names)| == |multiset(Names(db.tables))| == |db.tables|;
    assert seq(|r.counts|, k requires 0 <= k < |r.counts| => r.counts[k].table) == names;
  }

  /**
   * execute_sql: a success keeps the statement, has row_count equal to the
   * number of results and each result is the row zipped with the column names;
   * a failure keeps the statement and reports the engine's message and error
   * class.
   */
  lemma ExecutionShape(db: Database, sql: string)
    ensures var r := Execution(Some(db), sql);
      && (r.Executed? || r.ExecutionFailed?)
      && r.sql == sql
      && (db.run(sql).Ok? <==> r.Executed?)
      && (r.Executed? ==>
            && r.rowCount == |r.results| == |db.run(sql).value.rows|
            && r.columnNames == DescriptionNames(db.run(sql).value)
            && forall k :: 0 <= k < |r.results| ==> r.results[k] == Zip(r.columnNames, db.run(sql).value.rows[k]))
      && (r.ExecutionFailed? ==> r.error == db.run(sql).error.message && r.errorType == db.run(sql).error.kind)
  {
  }
}
