/**
 * _execute_tool, which both agents share (backend/src/agent.py and
 * src/agent.py hold the same code): the tool name picks one of the four
 * DatabaseTools tools, execute_sql going through the validator first; any
 * other name is answered with an error and touches nothing.
 */
module Dispatch {
  import opened Wrappers
  import opened Strings
  import opened Sqlite
  import opened DbTools
  import opened SqlValidator

  /**
   * The arguments of a function call, dict(function_call.args): the string
   * arguments (table_name, column_name, sql) and the integer one (sample_size).
   */
  datatype ToolArgs = ToolArgs(text: map<string, string>, numbers: map<string, int>)

  /** What a dispatch gives back: a tool result, or the KeyError of a required argument that is missing. */
  datatype Dispatched = Returned(result: ToolResult) | MissingArgument(key: string)

  const DefaultSampleSize: int := 5

  /** dict.get(key): the value, or None. */
  function Get(m: map<string, string>, key: string): (r: Option<string>)
    ensures r.Some? <==> key in m
    ensures r.Some? ==> r.value == m[key]
  {
    if key in m then Some(m[key]) else None
  }

  function UnknownTool(name: string): string {
    "Unknown tool: " + name
  }

  /** The tool a function-call name designates. */
  datatype Tool = GetSchemaInfo | ExploreData | GetTableStats | ExecuteSql | Unknown

  function ToolNamed(name: string): (t: Tool)
    ensures t == ExecuteSql <==> name == "execute_sql"
  {
    if name == "get_schema_info" then GetSchemaInfo
    else if name == "explore_data" then ExploreData
    else if name == "get_table_stats" then GetTableStats
    else if name == "execute_sql" then ExecuteSql
    else Unknown
  }

  /** result["validation_message"] = message, on the dictionaries execute_sql returns. */
  function WithValidationMessage(r: ToolResult, message: string): ToolResult {
    if r.Executed? || r.ExecutionFailed? || r.ExecutionUnavailable? then r.(validationMessage := Some(message)) else r
  }

  /** The statement execute_sql runs: the validator's, when it returned a non-empty one, else the original. */
  function ToRun(sql: string, v: Validation): string {
    if v.effectiveSql.Some? && v.effectiveSql.value != "" then v.effectiveSql.value else sql
  }

  /** The validator's statement differs from the original, so the result is annotated. */
  predicate Rewritten(sql: string, v: Validation) {
    v.effectiveSql.Some? && v.effectiveSql.value != "" && v.effectiveSql.value != sql
  }

  /** The execute_sql branch once the validator has answered v. */
  function RunValidated(conn: Option<Database>, sql: string, v: Validation): ToolResult {
    if !v.isValid then Rejected(v.message, sql)
    else if Rewritten(sql, v) then WithValidationMessage(Execution(conn, ToRun(sql, v)), v.message)
    else Execution(conn, ToRun(sql, v))
  }

  /** _execute_tool over a connection (None when the tools are not available) and the parser predicate. */
  function ToolOutcome(conn: Option<Database>, parses: string -> bool, name: string, args: ToolArgs): Dispatched {
    match ToolNamed(name)
    case GetSchemaInfo => Returned(SchemaInfo(conn, Get(args.text, "table_name")))
    case ExploreData =>
      if "table_name" !in args.text then MissingArgument("table_name")
      else
        var n := if "sample_size" in args.numbers then args.numbers["sample_size"] else DefaultSampleSize;
        Returned(Explore(conn, args.text["table_name"], Get(args.text, "column_name"), n))
    case GetTableStats => Returned(TableStatsOf(conn))
    case ExecuteSql =>
      if "sql" !in args.text then MissingArgument("sql")
      else Returned(RunValidated(conn, args.text["sql"], Validate(args.text["sql"], parses)))
    case Unknown => Returned(Failure(UnknownTool(name)))
  }

  /** The statement a dispatch hands to execute_sql, if it reaches the database at all. */
  function Executes(parses: string -> bool, name: string, args: ToolArgs): Option<string> {
    if ToolNamed(name) == ExecuteSql && "sql" in args.text && Validate(args.text["sql"], parses).isValid then
      Some(ToRun(args.text["sql"], Validate(args.text["sql"], parses)))
    else None
  }

  /** The dispatch, over the tools object. */
  method ExecuteTool(tools: DatabaseTools, parses: string -> bool, name: string, args: ToolArgs) returns (d: Dispatched)
    requires tools.Valid()
    ensures d == ToolOutcome(tools.connection, parses, name, args)
  {
    if name == "get_schema_info" {
      var r := tools.GetSchemaInfo(Get(args.text, "table_name"));
      return Returned(r);
    } else if name == "explore_data" {
      if "table_name" !in args.text {
        return MissingArgument("table_name");
      }
      var n := if "sample_size" in args.numbers then args.numbers["sample_size"] else DefaultSampleSize;
      var r := tools.ExploreData(args.text["table_name"], Get(args.text, "column_name"), n);
      return Returned(r);
    } else if name == "get_table_stats" {
      var r := tools.GetTableStats();
      return Returned(r);
    } else if name == "execute_sql" {
      if "sql" !in args.text {
        return MissingArgument("sql");
      }
      var sql := args.text["sql"];
      var isValid, message, modifiedSql := ValidateSql(sql, parses);
      if !isValid {
        return Returned(Rejected(message, sql));
      }
      var sqlToExecute := if modifiedSql.Some? && modifiedSql.value != "" then modifiedSql.value else sql;
      if modifiedSql.Some? && modifiedSql.value != "" && modifiedSql.value != sql {
        var result := tools.ExecuteSql(sqlToExecute);
        result := result.(validationMessage := Some(message));
        return Returned(result);
      }
      var r := tools.ExecuteSql(sqlToExecute);
      return Returned(r);
    } else {
      return Returned(Failure(UnknownTool(name)));
    }
  }

  // ---------------------------------------------------------------------------
  // What a dispatch promises

  /** An unknown name gives {"error": "Unknown tool: <name>"} whatever the database holds. */
  lemma UnknownToolIsAnError(c1: Option<Database>, c2: Option<Database>, parses: string -> bool, name: string, args: ToolArgs)
    requires ToolNamed(name) == Unknown
    ensures ToolOutcome(c1, parses, name, args) == Returned(Failure("Unknown tool: " + name))
    ensures ToolOutcome(c1, parses, name, args) == ToolOutcome(c2, parses, name, args)
    ensures Executes(parses, name, args) == None
  {
  }

  /**
   * A statement the validator rejects comes back as {"success": False, "error":
   * message, "sql": original}, and the result is the same whatever the database
   * holds: nothing is executed.
   */
  lemma RejectedIsNotExecuted(c1: Option<Database>, c2: Option<Database>, parses: string -> bool, name: string, args: ToolArgs)
    requires ToolNamed(name) == ExecuteSql
    requires "sql" in args.text && !Validate(args.text["sql"], parses).isValid
    ensures var sql := args.text["sql"];
      ToolOutcome(c1, parses, name, args) == Returned(Rejected(Validate(sql, parses).message, sql))
    ensures ToolOutcome(c1, parses, name, args) == ToolOutcome(c2, parses, name, args)
    ensures Executes(parses, name, args) == None
  {
  }

  /** The execute_sql branch for an accepted statement e: e runs, annotated with the message when it differs from sql. */
  lemma RunAccepted(conn: Option<Database>, sql: string, v: Validation)
    requires v.isValid && v.effectiveSql.Some? && v.effectiveSql.value != ""
    ensures var e := v.effectiveSql.value; var r := RunValidated(conn, sql, v);
      && (r.Executed? || r.ExecutionFailed? || r.ExecutionUnavailable?)
      && (e != sql ==> r == Execution(conn, e).(validationMessage := Some(v.message)))
      && (e == sql ==> r == Execution(conn, sql) && r.validationMessage == None)
  {
  }

  /**
   * An accepted statement: what runs is the validator's statement, which is
   * safe; the result carries validation_message exactly when that statement
   * differs from the original.
   */
  lemma AcceptedRunsEffectiveSql(conn: Option<Database>, parses: string -> bool, name: string, args: ToolArgs)
    requires ToolNamed(name) == ExecuteSql
    requires "sql" in args.text && Validate(args.text["sql"], parses).isValid
    ensures var sql := args.text["sql"];
      var e := Validate(sql, parses).effectiveSql.value;
      && Executes(parses, name, args) == Some(e)
      && Safe(e)
      && ToolOutcome(conn, parses, name, args).Returned?
      && var r := ToolOutcome(conn, parses, name, args).result;
      && (e != sql ==> r == Execution(conn, e).(validationMessage := Some(Validate(sql, parses).message)))
      && (e == sql ==> r == Execution(conn, sql) && r.validationMessage == None)
  {
    var sql := args.text["sql"];
    var v := Validate(sql, parses);
    EffectiveSqlIsSafe(sql, parses);
    assert v.effectiveSql.value != "" by {
      assert StartsWith(Normalized(v.effectiveSql.value), "SELECT") || StartsWith(Normalized(v.effectiveSql.value), "WITH");
    }
    RunAccepted(conn, sql, v);
  }

  /** The tools other than execute_sql read the tables only, never the statement oracle. */
  lemma ToolsReadTablesOnly(db: Database, run: string -> Result<ResultSet, DbError>, parses: string -> bool,
                            name: string, args: ToolArgs)
    requires ToolNamed(name) != ExecuteSql
    ensures ToolOutcome(Some(db), parses, name, args) == ToolOutcome(Some(db.(run := run)), parses, name, args)
  {
    var other := db.(run := run);
    assert CatalogNames(other) == CatalogNames(db);
    assert Counts(other, CatalogNames(db)) == Counts(db, CatalogNames(db));
  }

  /** Whatever the name and arguments, a statement that reaches the database is safe. */
  lemma ExecutesOnlySafe(parses: string -> bool, name: string, args: ToolArgs)
    ensures Executes(parses, name, args).Some? ==> Safe(Executes(parses, name, args).value)
  {
    if Executes(parses, name, args).Some? {
      AcceptedRunsEffectiveSql(None, parses, name, args);
    }
  }

  /** A dispatch that hands no statement to execute_sql gives the same result whatever the statement oracle answers. */
  lemma NothingElseRuns(db: Database, run: string -> Result<ResultSet, DbError>, parses: string -> bool,
                        name: string, args: ToolArgs)
    requires Executes(parses, name, args).None?
    ensures ToolOutcome(Some(db), parses, name, args) == ToolOutcome(Some(db.(run := run)), parses, name, args)
  {
    if ToolNamed(name) != ExecuteSql {
      ToolsReadTablesOnly(db, run, parses, name, args);
    }
  }

  /** Only execute_sql produces the results of running a statement. */
  lemma FailureComesFromExecuteSql(conn: Option<Database>, parses: string -> bool, name: string, args: ToolArgs)
    requires ToolOutcome(conn, parses, name, args).Returned?
    requires var r := ToolOutcome(conn, parses, name, args).result; r.Executed? || r.ExecutionFailed?
    ensures ToolNamed(name) == ExecuteSql
  {
  }

  /** execute_sql reports success only when the statement ran and returned rows (possibly none). */
  predicate Succeeded(r: ToolResult) {
    r.Executed?
  }

  /** str(result.get("error")): the error text, or "None" for a result without one. */
  function ErrorText(r: ToolResult): string {
    match r
    case Failure(e) => e
    case ExecutionFailed(_, e, _, _) => e
    case ExecutionUnavailable(_) => NotAvailable
    case Rejected(e, _) => e
    case _ => "None"
  }

  /** result.get("sql", "") */
  function SqlOf(r: ToolResult): string {
    match r
    case Executed(sql, _, _, _, _) => sql
    case ExecutionFailed(sql, _, _, _) => sql
    case Rejected(_, sql) => sql
    case _ => ""
  }

  /** result.get("results", []) */
  function RowsOf(r: ToolResult): seq<Record> {
    if r.Executed? then r.results else []
  }

  /** The value under "columns": column names for executed statements and sample rows, column descriptions for a table schema. */
  datatype Columns = ColumnNameList(names: seq<string>) | ColumnInfoList(infos: seq<ColumnInfo>)

  /** result.get("columns", []) */
  function ColumnsOf(r: ToolResult): Columns {
    match r
    case Executed(_, names, _, _, _) => ColumnNameList(names)
    case SampleRows(_, names, _, _) => ColumnNameList(names)
    case TableSchema(_, infos, _) => ColumnInfoList(infos)
    case _ => ColumnNameList([])
  }

  /**
   * The result of a dispatched execute_sql: success only when the statement
   * ran; a failure that ran keeps the executed (safe, hence non-empty)
   * statement under "sql"; a rejection keeps the original.
   */
  lemma ExecuteSqlResultShape(conn: Option<Database>, parses: string -> bool, name: string, args: ToolArgs)
    requires ToolNamed(name) == ExecuteSql
    requires ToolOutcome(conn, parses, name, args).Returned?
    ensures var r := ToolOutcome(conn, parses, name, args).result;
      && (r.Rejected? || r.Executed? || r.ExecutionFailed? || r.ExecutionUnavailable?)
      && (Succeeded(r) <==> conn.Some? && Executes(parses, name, args).Some? &&
                            conn.value.run(Executes(parses, name, args).value).Ok?)
      && (r.Executed? || r.ExecutionFailed? ==> r.sql == Executes(parses, name, args).value && r.sql != "")
      && (r.Rejected? ==> r.sql == args.text["sql"])
  {
    if Executes(parses, name, args).Some? {
      AcceptedRunsEffectiveSql(conn, parses, name, args);
    }
  }
}
