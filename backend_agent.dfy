/**
 * The agent of backend/src/agent.py: it classifies the question as a request
 * for SQL or not, runs the function-calling loop, and builds the response the
 * web front end reads: success, the summary, the first two reasoning steps,
 * the SQL, the result columns and rows, and a status.
 */
module BackendAgent {
  import opened Wrappers
  import opened Strings
  import opened Sqlite
  import opened SqlValidator
  import opened DbTools
  import opened Reasoning
  import opened Dispatch
  import opened AgentLoop

  /** Clipboard, wrench, warning sign and speech balloon. */
  const BackendIcons: Icons := Icons("\U{1F4CB}", "\U{1F527}", "\U{26A0}\U{FE0F}", "\U{1F4AC}")

  // ---------------------------------------------------------------------------
  // _is_sql_request

  const SqlKeywords: seq<string> := [
    "write", "create", "sql", "query", "select", "show me the query",
    "what query", "generate", "code", "command", "how to query",
    "what would", "what would the query", "give me a query"
  ]

  /** any(keyword in text for keyword in keywords) */
  function AnyKeyword(text: string, keywords: seq<string>): (r: bool)
    ensures r <==> exists k :: 0 <= k < |keywords| && Contains(text, keywords[k])
  {
    if |keywords| == 0 then false
    else
      assert forall k :: 1 <= k < |keywords| ==> keywords[k] == keywords[1..][k - 1];
      Contains(text, keywords[0]) || AnyKeyword(text, keywords[1..])
  }

  /** The question, lower-cased and stripped, contains one of the keywords; nothing counts against. */
  function IsSqlRequest(question: string): bool {
    AnyKeyword(Strip(Lower(question)), SqlKeywords)
  }

  lemma IsSqlRequestIff(question: string)
    ensures IsSqlRequest(question) <==>
      exists k :: 0 <= k < |SqlKeywords| && Contains(Strip(Lower(question)), SqlKeywords[k])
  {
  }

  /** Each of the first seven keywords has one of the letters r, q, c. */
  lemma NoEarlyKeywordWithout(t: string)
    requires 'r' !in t && 'q' !in t && 'c' !in t
    ensures forall k :: 0 <= k < 7 ==> !Contains(t, SqlKeywords[k])
  {
    assert !Contains(t, SqlKeywords[0]) by { assert SqlKeywords[0][1] == 'r'; AbsentChar(t, SqlKeywords[0], 'r'); }
    assert !Contains(t, SqlKeywords[1]) by { assert SqlKeywords[1][1] == 'r'; AbsentChar(t, SqlKeywords[1], 'r'); }
    assert !Contains(t, SqlKeywords[2]) by { assert SqlKeywords[2][1] == 'q'; AbsentChar(t, SqlKeywords[2], 'q'); }
    assert !Contains(t, SqlKeywords[3]) by { assert SqlKeywords[3][0] == 'q'; AbsentChar(t, SqlKeywords[3], 'q'); }
    assert !Contains(t, SqlKeywords[4]) by { assert SqlKeywords[4][4] == 'c'; AbsentChar(t, SqlKeywords[4], 'c'); }
    assert !Contains(t, SqlKeywords[5]) by { assert SqlKeywords[5][12] == 'q'; AbsentChar(t, SqlKeywords[5], 'q'); }
    assert !Contains(t, SqlKeywords[6]) by { assert SqlKeywords[6][5] == 'q'; AbsentChar(t, SqlKeywords[6], 'q'); }
  }

  /** Each of the last seven keywords has one of the letters q, c, g, u. */
  lemma NoLateKeywordWithout(t: string)
    requires 'q' !in t && 'c' !in t && 'g' !in t && 'u' !in t
    ensures forall k :: 7 <= k < 14 ==> !Contains(t, SqlKeywords[k])
  {
    assert !Contains(t, SqlKeywords[7]) by { assert SqlKeywords[7][0] == 'g'; AbsentChar(t, SqlKeywords[7], 'g'); }
    assert !Contains(t, SqlKeywords[8]) by { assert SqlKeywords[8][0] == 'c'; AbsentChar(t, SqlKeywords[8], 'c'); }
    assert !Contains(t, SqlKeywords[9]) by { assert SqlKeywords[9][0] == 'c'; AbsentChar(t, SqlKeywords[9], 'c'); }
    assert !Contains(t, SqlKeywords[10]) by { assert SqlKeywords[10][7] == 'q'; AbsentChar(t, SqlKeywords[10], 'q'); }
    assert !Contains(t, SqlKeywords[11]) by { assert SqlKeywords[11][7] == 'u'; AbsentChar(t, SqlKeywords[11], 'u'); }
    assert !Contains(t, SqlKeywords[12]) by { assert SqlKeywords[12][15] == 'q'; AbsentChar(t, SqlKeywords[12], 'q'); }
    assert !Contains(t, SqlKeywords[13]) by { assert SqlKeywords[13][0] == 'g'; AbsentChar(t, SqlKeywords[13], 'g'); }
  }

  /** A text lacking the letters r, q, c, g and u contains none of the keywords. */
  lemma NoSqlKeywordWithout(t: string)
    requires 'r' !in t && 'q' !in t && 'c' !in t && 'g' !in t && 'u' !in t
    ensures !AnyKeyword(t, SqlKeywords)
  {
    NoEarlyKeywordWithout(t);
    NoLateKeywordWithout(t);
  }

  /** A question lacking both cases of r, q, c, g and u is not a request for SQL. */
  lemma NotSqlWithout(question: string)
    requires 'r' !in question && 'q' !in question && 'c' !in question && 'g' !in question && 'u' !in question
    requires 'R' !in question && 'Q' !in question && 'C' !in question && 'G' !in question && 'U' !in question
    ensures !IsSqlRequest(question)
  {
    var l := Lower(question);
    LowerAbsent(question, 'r');
    LowerAbsent(question, 'q');
    LowerAbsent(question, 'c');
    LowerAbsent(question, 'g');
    LowerAbsent(question, 'u');
    StripAbsent(l, 'r');
    StripAbsent(l, 'q');
    StripAbsent(l, 'c');
    StripAbsent(l, 'g');
    StripAbsent(l, 'u');
    NoSqlKeywordWithout(Strip(l));
  }

  /** None of the letters r, q, c, g, u, in either case, occurs in the question. */
  lemma HowManyTablesLetters(question: string)
    requires question == "How many tables exist?"
    ensures forall i :: 0 <= i < |question| ==>
      question[i] != 'r' && question[i] != 'q' && question[i] != 'c' && question[i] != 'g' && question[i] != 'u' &&
      question[i] != 'R' && question[i] != 'Q' && question[i] != 'C' && question[i] != 'G' && question[i] != 'U'
  {
  }

  /** "How many tables exist?" is not taken for a request for SQL. */
  lemma HowManyTablesIsNotSql(question: string)
    requires question == "How many tables exist?"
    ensures !IsSqlRequest(question)
  {
    HowManyTablesLetters(question);
    NotSqlWithout(question);
  }

  // ---------------------------------------------------------------------------
  // The response

  /** "success" | "empty" | "error" */
  datatype Status = Success | Empty | Error

  /** The response of process_question. */
  datatype Response =
      /** The loop ended: with an answer (success true), or without one (success false, status "error"). */
    | Finished(success: bool, question: string, summary: string, reasoning: seq<Step>, sql: string,
               columns: Columns, rows: seq<Record>, status: Status, databaseAvailable: bool, isSqlRequest: bool)
      /** {"success": False, "error": str(e)} after a failed send. */
    | TransportFailure(error: string)
      /** The KeyError of a missing required argument, which process_question does not catch. */
    | Crashed(key: string)

  /** "success" if there are rows, else "empty" if there is SQL, else "success". */
  function StatusOf(rows: seq<Record>, sql: string): (s: Status)
    ensures s != Error
    ensures s == Empty <==> rows == [] && sql != ""
  {
    if rows != [] then Success else if sql != "" then Empty else Success
  }

  /** The first two steps of the trace, the "key reasoning points". */
  function KeySteps(trace: seq<Step>): (r: seq<Step>)
    ensures r <= trace
    ensures |r| == if |trace| < 2 then |trace| else 2
  {
    if |trace| <= 2 then trace else trace[..2]
  }

  function LastSql(last: Option<ToolResult>): string {
    if last.Some? then SqlOf(last.value) else ""
  }

  function LastRows(last: Option<ToolResult>): seq<Record> {
    if last.Some? then RowsOf(last.value) else []
  }

  function LastColumns(last: Option<ToolResult>): Columns {
    if last.Some? then ColumnsOf(last.value) else ColumnNameList([])
  }

  /**
   * The SQL looked for in an answer text: only when the text mentions select
   * or sql; extractSql stands for the regular-expression search and gives the
   * empty string when nothing matches.
   */
  function SqlInText(text: string, extractSql: string -> string): string {
    if Contains(Lower(text), "select") || Contains(Lower(text), "sql") then extractSql(text) else ""
  }

  function AnalyzingContent(question: string, isSql: bool): string {
    "User asked: '" + question + "'" + (if isSql then " [SQL requested]" else "")
  }

  function ExecutedSummary(rows: nat): string {
    "Query executed with " + Decimal(rows) + " results"
  }

  const NotCompletedSummary: string := "Agent could not complete the task fully"

  /** The response built from how the loop ended. */
  function Respond(exit: Exit, trace: seq<Step>, last: Option<ToolResult>, question: string, isSql: bool,
                   databaseAvailable: bool, extractSql: string -> string): Response
  {
    match exit
    case SendFailed(e) => TransportFailure(e)
    case Raised(k) => Crashed(k)
    case Answer(text) =>
      var fromResult := LastSql(last);
      var sql := if isSql && fromResult == "" then SqlInText(text, extractSql) else fromResult;
      var rows := LastRows(last);
      Finished(true, question, text, KeySteps(trace), sql, LastColumns(last), rows, StatusOf(rows, sql),
               databaseAvailable, isSql)
    case Stopped =>
      var rows := LastRows(last);
      var summary := if last.Some? then ExecutedSummary(|rows|) else NotCompletedSummary;
      Finished(false, question, summary, KeySteps(trace), LastSql(last), LastColumns(last), rows, Error,
               databaseAvailable, isSql)
  }

  /** The trace after the first step. */
  function FirstTrace(question: string): seq<Step> {
    [Step(1, "Analyzing question", AnalyzingContent(question, IsSqlRequest(question)), BackendIcons.analyzing)]
  }

  /** process_question, with the availability flag of the tools. */
  function Process(env: Env, databaseAvailable: bool, extractSql: string -> string, question: string): Response {
    var run := Loop(env, BackendIcons, FirstTrace(question), None, []);
    Respond(run.exit, run.trace, run.last, question, IsSqlRequest(question), databaseAvailable, extractSql)
  }

  method ProcessQuestion(tools: DatabaseTools, parses: string -> bool, script: seq<Reply>, render: ToolArgs -> string,
                         extractSql: string -> string, question: string) returns (response: Response)
    requires tools.Valid()
    ensures response == Process(Env(Tools(tools.connection, parses), script, render), tools.available, extractSql, question)
  {
    var reasoning := new ReasoningTrace();
    var isSqlRequest := IsSqlRequest(question);
    reasoning.AddStep("Analyzing question", AnalyzingContent(question, isSqlRequest), BackendIcons.analyzing);
    var exit, last := RunLoop(tools, parses, script, render, BackendIcons, reasoning);
    response := Respond(exit, reasoning.steps, last, question, isSqlRequest, tools.available, extractSql);
  }

  // ---------------------------------------------------------------------------
  // What the response promises

  /** The reported reasoning is one or two steps and starts with the first step of the trace. */
  lemma RespondReasoning(exit: Exit, trace: seq<Step>, last: Option<ToolResult>, question: string, isSql: bool,
                         available: bool, extractSql: string -> string)
    requires |trace| >= 1
    ensures var r := Respond(exit, trace, last, question, isSql, available, extractSql);
      r.Finished? ==> 1 <= |r.reasoning| <= 2 && r.reasoning[0] == trace[0]
  {
  }

  /**
   * Every ended loop reports at most two reasoning steps, the first being the
   * question's analysis, and at most ten tools were dispatched.
   */
  lemma ReasoningIsKeySteps(env: Env, available: bool, extractSql: string -> string, question: string)
    ensures |Loop(env, BackendIcons, FirstTrace(question), None, []).calls| <= MaxIterations
    ensures var r := Process(env, available, extractSql, question);
      r.Finished? ==>
        && 1 <= |r.reasoning| <= 2
        && r.reasoning[0] == Step(1, "Analyzing question", AnalyzingContent(question, IsSqlRequest(question)), BackendIcons.analyzing)
  {
    var first := FirstTrace(question);
    var run := Loop(env, BackendIcons, FirstTrace(question), None, []);
    AtMostTenCalls(env, BackendIcons, first);
    assert first <= run.trace;
    assert run.trace[0] == first[0];
    RespondReasoning(run.exit, run.trace, run.last, question, IsSqlRequest(question), available, extractSql);
  }

  /** A script of function calls only runs the loop out and ends in the error response, whatever the calls returned. */
  lemma OnlyToolCallsIsAnError(env: Env, available: bool, extractSql: string -> string, question: string)
    requires forall k :: 0 <= k < MaxIterations ==> CallsBack(env, k)
    requires ReplyAt(env.script, MaxIterations).Delivered?
    ensures |Loop(env, BackendIcons, FirstTrace(question), None, []).calls| == MaxIterations
    ensures var r := Process(env, available, extractSql, question);
      && r.Finished? && !r.success && r.status == Error
      && r.summary == ExecutedSummary(|r.rows|)
  {
    var run := Loop(env, BackendIcons, FirstTrace(question), None, []);
    OnlyCallsExhaust(env, BackendIcons, FirstTrace(question), None, []);
    LoopLast(env, BackendIcons, FirstTrace(question), None, []);
    assert run.last.Some?;
    ErrorResponse(env, available, extractSql, question);
  }

  /** A send that fails, the first or one after tool calls only, gives exactly {"success": False, "error": str(e)}. */
  lemma FailedSendIsReported(env: Env, available: bool, extractSql: string -> string, question: string, n: nat, e: string)
    requires n <= MaxIterations
    requires forall k :: 0 <= k < n ==> CallsBack(env, k)
    requires ReplyAt(env.script, n) == TransportError(e)
    ensures Process(env, available, extractSql, question) == TransportFailure(e)
  {
    FailedSendEnds(env, BackendIcons, FirstTrace(question), None, [], n, e);
  }

  /**
   * An answer text gives success with that text as summary; sql, rows and
   * columns are those of the last tool result (sql looked for in the text only
   * when SQL was asked for and the result had none); the status is "empty"
   * exactly when there is SQL but no row.
   */
  lemma AnswerResponse(env: Env, available: bool, extractSql: string -> string, question: string)
    requires Loop(env, BackendIcons, FirstTrace(question), None, []).exit.Answer?
    ensures var run := Loop(env, BackendIcons, FirstTrace(question), None, []); var r := Process(env, available, extractSql, question);
      && r.Finished? && r.success && r.summary == run.exit.text
      && r.rows == LastRows(run.last) && r.columns == LastColumns(run.last)
      && (LastSql(run.last) != "" ==> r.sql == LastSql(run.last))
      && (!IsSqlRequest(question) ==> r.sql == LastSql(run.last))
      && r.status != Error
      && (r.status == Empty <==> r.rows == [] && r.sql != "")
      && r.databaseAvailable == available && r.isSqlRequest == IsSqlRequest(question)
  {
  }

  /**
   * When the loop stops without an answer the response has success false and
   * status "error"; it carries the statement, columns and rows of the last
   * tool result, if any, and says how many rows that was.
   */
  lemma ErrorResponse(env: Env, available: bool, extractSql: string -> string, question: string)
    requires Loop(env, BackendIcons, FirstTrace(question), None, []).exit == Stopped
    ensures var run := Loop(env, BackendIcons, FirstTrace(question), None, []); var r := Process(env, available, extractSql, question);
      && r.Finished? && !r.success && r.status == Error
      && r.sql == LastSql(run.last) && r.rows == LastRows(run.last) && r.columns == LastColumns(run.last)
      && (run.last.None? ==> r.summary == NotCompletedSummary && r.sql == "" && r.rows == [])
      && (run.last.Some? ==> r.summary == ExecutedSummary(|r.rows|))
      && r.databaseAvailable == available && r.isSqlRequest == IsSqlRequest(question)
  {
  }

  /** An answer after a result that holds a statement but no row has status "empty". */
  lemma RespondAfterFailure(text: string, trace: seq<Step>, last: Option<ToolResult>, question: string, isSql: bool,
                            available: bool, extractSql: string -> string)
    requires last.Some? && last.value.ExecutionFailed? && last.value.sql != ""
    ensures Respond(Answer(text), trace, last, question, isSql, available, extractSql).status == Empty
  {
  }

  /** Every failed execution a dispatcher reports carries a statement. */
  ghost predicate FailuresHoldSql(dispatch: (string, ToolArgs) -> Dispatched) {
    forall name, args :: dispatch(name, args).Returned? && dispatch(name, args).result.ExecutionFailed? ==>
      dispatch(name, args).result.sql != ""
  }

  /** A failed execution of one of the agent's tools carries the statement it ran, which is not empty. */
  lemma ToolFailuresHoldSql(conn: Option<Database>, parses: string -> bool)
    ensures FailuresHoldSql(Tools(conn, parses))
  {
    forall name, args | Tools(conn, parses)(name, args).Returned? && Tools(conn, parses)(name, args).result.ExecutionFailed?
      ensures Tools(conn, parses)(name, args).result.sql != ""
    {
      FailureComesFromExecuteSql(conn, parses, name, args);
      ExecuteSqlResultShape(conn, parses, name, args);
    }
  }

  lemma HeldSql(dispatch: (string, ToolArgs) -> Dispatched, name: string, args: ToolArgs)
    requires FailuresHoldSql(dispatch)
    requires dispatch(name, args).Returned? && dispatch(name, args).result.ExecutionFailed?
    ensures dispatch(name, args).result.sql != ""
  {
  }

  /**
   * When an answer follows a failed execute_sql, the status is "empty", since
   * the failure carries the executed statement and no rows; the agent's own
   * tools meet the requirement on the dispatcher (ToolFailuresHoldSql).
   */
  lemma FailedQueryIsEmpty(env: Env, available: bool, extractSql: string -> string, question: string)
    requires FailuresHoldSql(env.dispatch)
    requires var run := Loop(env, BackendIcons, FirstTrace(question), None, []);
      run.exit.Answer? && run.last.Some? && run.last.value.ExecutionFailed?
    ensures Process(env, available, extractSql, question).status == Empty
  {
    var run := Loop(env, BackendIcons, FirstTrace(question), None, []);
    LastFromLastCall(env, BackendIcons, FirstTrace(question));
    var c := run.calls[|run.calls| - 1];
    HeldSql(env.dispatch, c.name, c.args);
    assert run.exit == Answer(run.exit.text);
    RespondAfterFailure(run.exit.text, run.trace, run.last, question, IsSqlRequest(question), available, extractSql);
  }

  /** With the agent's own tools, every statement the dispatched calls handed to the database is safe. */
  lemma ExecutedStatementsAreSafe(conn: Option<Database>, parses: string -> bool, script: seq<Reply>,
                                  render: ToolArgs -> string, question: string)
    ensures var run := Loop(Env(Tools(conn, parses), script, render), BackendIcons, FirstTrace(question), None, []);
      && |run.calls| <= MaxIterations
      && forall k :: 0 <= k < |run.calls| && Executes(parses, run.calls[k].name, run.calls[k].args).Some? ==>
           Safe(Executes(parses, run.calls[k].name, run.calls[k].args).value)
  {
    var env := Env(Tools(conn, parses), script, render);
    var run := Loop(env, BackendIcons, FirstTrace(question), None, []);
    LoopCalls(env, BackendIcons, FirstTrace(question), None, []);
    forall k | 0 <= k < |run.calls| && Executes(parses, run.calls[k].name, run.calls[k].args).Some?
      ensures Safe(Executes(parses, run.calls[k].name, run.calls[k].args).value)
    {
      ExecutesOnlySafe(parses, run.calls[k].name, run.calls[k].args);
    }
  }
}
