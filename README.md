# SQL query agent: a Dafny model

SQL-QUERY_Generator_Agent answers natural-language questions about a SQLite
database. A language model is driven through function calling. It may call four
database tools:

- `get_schema_info`
- `explore_data`
- `get_table_stats`
- `execute_sql`

Every statement the language model hands to `execute_sql` goes through a safety
validator before it reaches the database. That validator rejects writes and non-SELECT statements, and it appends
`LIMIT 100` when a query has no limit and no aggregate.

This project models and proves the core of the repository:

- **The validator** `DatabaseTools.validate_sql` (module `SqlValidator`). It is a
  function over strings with the checks in their fixed order: the blocklist from
  `config.BLOCKED_KEYWORDS`, the SELECT/WITH prefix, the parser, and the LIMIT
  rewrite. A method with the blocklist loop is proved equal to that function.
  Lemmas state:
  - which verdict each case gets;
  - an if-and-only-if for acceptance;
  - that every accepted statement is safe;
  - that validating a rewritten statement again is the identity.
- **The database tools** (module `DbTools`). `DatabaseTools` is a class whose
  `available` and `connection` fields are set by `_connect`. Each query method is
  a loop, proved equal to a result function over an abstract SQLite database
  (module `Sqlite`). Lemmas about those functions state:
  - the short-circuit when the database is not available;
  - the sorted catalogue;
  - the column descriptions;
  - the sample rows;
  - the bounds of the column statistics;
  - the shape of an execution result.
- **The dispatch** `_execute_tool` (module `Dispatch`). The code is the same in
  both agents. Lemmas state:
  - an unknown tool is an error and touches nothing;
  - a rejected statement is never run;
  - a rewritten statement is the one run, and only it carries
    `validation_message`;
  - only statements that passed the validator reach `execute_sql`.
- **The function-calling loop** of `process_question` (module `AgentLoop`), which
  both agents share. The language model is a script of replies, and a failure of
  any send is one more possible reply. Lemmas state:
  - at most ten dispatches;
  - the trace only grows;
  - a failed query is logged and the loop goes on;
  - a failed send ends the loop;
  - an answer ends it with a "Generating response" step.
- **The backend agent** (module `BackendAgent`, backend/src/agent.py).
  - `_is_sql_request` is an existential over the keyword list.
  - The response record has `status`, `sql`, `rows`, `columns`, the first two
    reasoning steps, and `isSqlRequest`.
- **The command-line agent** (module `LegacyAgent`, src/agent.py). Its responses
  carry the whole trace and the last tool result. It has no status field.
- **The reasoning log** `ReasoningTrace` (module `Reasoning`). It is a class with
  an append-only step list and a counter, whose invariant is
  `current_step == len(steps)` with step i numbered i + 1.

The abstractions:

- The parser `sqlparse.parse` is a predicate `parses`.
- `json.dumps` of the arguments is a function `render`.
- The regular-expression search for SQL in an answer text is a function
  `extractSql`.
- The SQL engine is the function `run` of the abstract database.
- Missing required arguments (`args["table_name"]`, `args["sql"]`) raise
  `KeyError`, which `process_question` does not catch. The model has an outcome
  for this (`Raised` / `Crashed`).

Where the code differs from the written description of the system, the model
follows the code:

- `_is_sql_request` has no negative keywords. "How many tables exist?" contains
  none of the keywords and is not a request for SQL (`HowManyTablesIsNotSql`).
- `get_schema_info` for a table that does not exist answers a `table_schema`
  with empty column and foreign-key lists, not an error. `PRAGMA table_info` of
  an unknown table returns no rows.
- The backend status is "empty" also when the last tool call was a failed
  `execute_sql` that keeps its statement: the failure has that statement under
  `sql` and no `results` (`FailedQueryIsEmpty`). A failure without a statement,
  such as "Database not available", leaves the status to the answer text.
- The command-line agent reports `success: True` when the loop runs out after
  tool calls only (`OnlyToolCallsStillSucceed`). The backend agent reports
  `success: False` in that case (`OnlyToolCallsIsAnError`).

## Model

| member | source | states |
|---|---|---|
| SqlValidator.FirstBlocked | backend/src/tools.py:210-212 | the index found is that of a keyword that occurs, and no keyword before it in list order occurs |
| SqlValidator.FirstBlockedAt | backend/src/tools.py:210-212 | when keyword i occurs and none before it does, the search stops at i |
| SqlValidator.ValidateSql | backend/src/tools.py:197-232 | the method with the keyword loop returns exactly the verdict, message and effective statement of the validator function |
| SqlValidator.BlockedKeywordRejects | backend/src/tools.py:207-212 | if a blocked keyword occurs anywhere in the upper-cased text (inside identifiers too), the verdict is (False, message naming the first keyword in list order that occurs, None) |
| SqlValidator.TrimIrrelevant | backend/src/tools.py:207 | trimming does not change which keywords occur in the upper-cased text |
| SqlValidator.KeywordsAreCapitalWords | config.py:23 | the blocked keywords are non-empty words of capital letters |
| SqlValidator.NonReadQueryRejected | backend/src/tools.py:214-216 | past the blocklist, a text starting with neither SELECT nor WITH gets (False, "Only SELECT queries are allowed.", None) |
| SqlValidator.ParserConsultedLast | backend/src/tools.py:218-221 | the parser can only decide the verdict for a statement that passed the blocklist and the prefix test, and there it rejects exactly what it fails to parse |
| SqlValidator.ValidIff | backend/src/tools.py:207-232 | valid if and only if safe and parsed; valid if and only if an effective statement is returned |
| SqlValidator.LimitAppended | backend/src/tools.py:224-230 | with no LIMIT and no COUNT(, SUM(, AVG(, the effective statement is sql.rstrip(';') + " LIMIT 100" with the "Added LIMIT 100" message |
| SqlValidator.LimitOrAggregateKept | backend/src/tools.py:224-232 | with a LIMIT or an aggregate, the statement is returned unchanged with "Valid SQL query." |
| SqlValidator.DefaultLimitRendered | config.py:22 | the decimal rendering of DEFAULT_LIMIT is "100" |
| SqlValidator.LimitClauseFacts | backend/src/tools.py:229 | the appended clause is " LIMIT 100", already upper case, mentions LIMIT and contains no blocked keyword |
| SqlValidator.UpperWithLimit | backend/src/tools.py:229 | upper-casing the rewrite is the upper-cased input cut at the stripped semicolons, followed by the clause |
| SqlValidator.RewriteNormalized | backend/src/tools.py:207-229 | the trimmed, upper-cased rewrite is the upper-cased original from the start of its trim, cut by rstrip(';') (so a semicolon followed by a blank stays), followed by " LIMIT 100" |
| SqlValidator.RewritePassesBlocklist | backend/src/tools.py:207-229 | the rewrite of a statement that passed the blocklist still passes it |
| SqlValidator.RewriteIsLimitedRead | backend/src/tools.py:215-229 | the rewrite still starts with SELECT or WITH and now contains LIMIT |
| SqlValidator.EffectiveSqlIsSafe | backend/src/tools.py:224-232 | every effective statement of a valid verdict passes the blocklist, starts with SELECT or WITH, and needs no further LIMIT |
| SqlValidator.RevalidationIsIdentity | backend/src/tools.py:224-232 | validating an effective statement again accepts it unchanged with "Valid SQL query." (no second LIMIT) |
| ValidatorExamples.UpdatedAtIsBlocked | backend/src/tools.py:210-212 | "select updated_at from t" is rejected, naming UPDATE |
| ValidatorExamples.UpdateBeforeInsert | backend/src/tools.py:210-212 | with UPDATE present and INSERT absent, the search stops at UPDATE, the second keyword |
| ValidatorExamples.TrailingBlankChecks | backend/src/tools.py:207-229 | "SELECT 1; " is safe, needs a LIMIT and is rewritten to "SELECT 1;  LIMIT 100", since rstrip(';') acts on the untrimmed text |
| ValidatorExamples.TrailingBlankKeepsSemicolon | backend/src/tools.py:224-230 | the validator's effective statement for "SELECT 1; " is "SELECT 1;  LIMIT 100" |
| Sqlite.FindTable | backend/src/tools.py:68 | a table is found exactly when one has the name up to ASCII case, and the one found does |
| Sqlite.ColumnIndex | backend/src/tools.py:135-141 | a column is found exactly when one has the name up to ASCII case, and the index found is of such a column |
| Sqlite.Limit | backend/src/tools.py:118 | LIMIT n keeps a prefix: the whole sequence for negative n, else min(n, length) items |
| Sqlite.NonNull | backend/src/tools.py:138 | the values kept are the non-NULL ones with their multiplicities, so there are as many as the input has non-NULL values (what COUNT(col) counts) |
| Sqlite.Distinct | backend/src/tools.py:145-151 | no value twice, and exactly the values of the input |
| Sqlite.Sort | backend/src/tools.py:53-58 | ORDER BY name: sorted and a permutation of the input |
| Sqlite.LessEqTotal | backend/src/tools.py:56 | the name order is total |
| DbTools.ZipPrefix | backend/src/tools.py:124 | the keys of dict(zip(columns, row)) are the zipped column names, and each maps to the value of its last occurrence |
| DbTools.ZipReads | backend/src/tools.py:259-261 | with distinct column names, each record has exactly the columns as keys and maps column j to the row's j-th value |
| DbTools.ZipAll | backend/src/tools.py:259-261 | one record per row, each the zip of the columns with that row |
| DbTools.ColumnNames | backend/src/tools.py:120 | the names of the columns, in order |
| DbTools.Counts | backend/src/tools.py:185-190 | one row count per table, in catalogue order |
| DbTools.ZipRows | backend/src/tools.py:259-261 | the loop appending dict(zip(columns, row)) per row (also lines 122-124 of explore_data) yields exactly one record per row, the row's zip with the columns |
| DbTools.CountRows | backend/src/tools.py:186-190 | the loop issuing one COUNT(*) per table yields one row count per table, in catalogue order |
| DbTools.DatabaseTools.constructor | backend/src/tools.py:15-34 | available exactly when the file exists and the connection opens; the connection is present exactly when available |
| DbTools.DatabaseTools.Connect | backend/src/tools.py:22-34 | _connect sets available and connection as above, without raising |
| DbTools.DatabaseTools.GetSchemaInfo | backend/src/tools.py:36-95 | the loops over the catalogue and the PRAGMA rows return the get_schema_info result |
| DbTools.DatabaseTools.ExploreData | backend/src/tools.py:97-163 | the queries and ZipRows return the explore_data result: sample rows or column statistics |
| DbTools.DatabaseTools.GetTableStats | backend/src/tools.py:165-195 | the catalogue query and CountRows return the get_table_stats result |
| DbTools.DatabaseTools.ExecuteSql | backend/src/tools.py:234-279 | running the statement and ZipRows return the execute_sql result |
| DbTools.UnavailableShortCircuits | backend/src/tools.py:46-245 | without a database every tool answers "Database not available", and execute_sql also has success False |
| DbTools.AllTablesSorted | backend/src/tools.py:51-63 | get_schema_info(None) lists every table once, sorted by name, with count == len(tables) |
| DbTools.NamedTableSchema | backend/src/tools.py:64-93 | for a named table, one entry per column with nullable == not notnull and primary_key == (pk != 0), one entry per foreign key; an unknown name gives empty lists |
| DbTools.SampleRowsShape | backend/src/tools.py:115-132 | the sample has min(sample_size, rows) records (all rows for a negative size), each zipping the column names with a row, and sample_size == len(sample_data) |
| DbTools.ColumnStatsBounds | backend/src/tools.py:133-161 | distinct_count <= non_null_count <= total_count == rows; the sample values are distinct, non-NULL values of the column, at most sample_size of them |
| DbTools.TableStatsShape | backend/src/tools.py:165-195 | one entry per table in name order, each with the table's row count |
| DbTools.ExecutionShape | backend/src/tools.py:250-279 | success exactly when the engine runs the statement; row_count == len(results), each result zips columns with a row; a failure keeps the sql, the error text and the error type |
| Reasoning.NextStep | backend/src/display.py:22-30 | appending a step keeps the numbering, keeps the earlier steps and numbers the new one len + 1 |
| Reasoning.ReasoningTrace.constructor | backend/src/display.py:18-20 | the log starts empty with the counter at 0 |
| Reasoning.ReasoningTrace.AddStep | backend/src/display.py:22-30 | the counter goes up by exactly one and exactly one step carrying the new count is appended; the invariant is kept |
| Reasoning.ReasoningTrace.Clear | backend/src/display.py:41-44 | the log is emptied and the counter reset to 0 |
| Reasoning.AddStepKeepsPrefix | backend/src/display.py:25-30 | adding a step leaves every earlier step unchanged |
| Dispatch.ToolNamed | backend/src/agent.py:172-200 | the execute_sql branch is taken exactly for the name "execute_sql" |
| Dispatch.Get | backend/src/agent.py:173 | args.get gives a value exactly when the key is present, and then the stored one |
| Dispatch.ExecuteTool | backend/src/agent.py:170-200 | the dispatch over the tools object returns the _execute_tool outcome, KeyError included |
| Dispatch.UnknownToolIsAnError | backend/src/agent.py:199-200 | an unknown name gives {"error": "Unknown tool: <name>"}, whatever the database, and runs nothing |
| Dispatch.RejectedIsNotExecuted | backend/src/agent.py:184-188 | a statement the validator rejects gives {"success": False, "error": message, "sql": original}, whatever the database, and runs nothing |
| Dispatch.RunAccepted | backend/src/agent.py:190-198 | a rewritten statement is executed and the result gains validation_message; an unchanged one is executed with none |
| Dispatch.AcceptedRunsEffectiveSql | backend/src/agent.py:182-198 | an accepted statement hands the validator's effective statement, which is safe, to execute_sql |
| Dispatch.ExecutesOnlySafe | backend/src/agent.py:182-198 | every statement a dispatch hands to the database passes the blocklist and starts with SELECT or WITH |
| Dispatch.ToolsReadTablesOnly | backend/src/agent.py:172-181 | the other three tools give the same outcome whatever the SQL engine does |
| Dispatch.NothingElseRuns | backend/src/agent.py:170-200 | a dispatch that hands no statement to execute_sql does not depend on the SQL engine |
| Dispatch.FailureComesFromExecuteSql | backend/src/agent.py:182-198 | only execute_sql produces executed or failed-execution results |
| Dispatch.ExecuteSqlResultShape | backend/src/agent.py:182-198 | execute_sql succeeds exactly when the database is there, the statement is accepted and the engine runs it; a run keeps the executed, non-empty statement; a rejection keeps the original |
| AgentLoop.CallTool | backend/src/agent.py:264-292 | one function call logs "Calling tool", dispatches, and logs "Query failed" after an unsuccessful execute_sql |
| AgentLoop.RunLoop | backend/src/agent.py:253-380 | the while loop over the replies ends as the loop function says: same exit, same last result, same trace |
| AgentLoop.LoopTrace | backend/src/agent.py:253-292 | the trace at the end extends the trace at any point of the loop |
| AgentLoop.LoopCalls | backend/src/agent.py:253-276 | at most ten calls in all; each is the function call of the reply to the send before it, and it returned |
| AgentLoop.LoopLast | backend/src/agent.py:275-276 | last_result is the result of the last call dispatched, or is unchanged when none was |
| AgentLoop.AtMostTenCalls | backend/src/agent.py:253-257 | a whole loop dispatches at most ten calls and only appends to the trace |
| AgentLoop.OnlyCallsExhaust | backend/src/agent.py:253-257 | replies that are all returning calls run the loop out after ten dispatches, without an answer |
| AgentLoop.FailedSendEnds | backend/src/agent.py:295-312 | a send that fails after calls only ends the loop with that error |
| AgentLoop.FailedQueryContinues | backend/src/agent.py:287-292 | a failed execute_sql appends "Calling tool" and "Query failed, analyzing error" with the error, and the loop goes on with the next reply |
| AgentLoop.TextAnswers | backend/src/agent.py:315-320 | a text reply ends the loop with that text, adding "Generating response" |
| AgentLoop.AnswerEndsTrace | backend/src/agent.py:315-320 | a loop ending with an answer has "Generating response" as its last step |
| BackendAgent.AnyKeyword | backend/src/agent.py:210 | any(keyword in text) is true exactly when some keyword occurs in the text |
| BackendAgent.IsSqlRequestIff | backend/src/agent.py:202-210 | a question is a request for SQL exactly when its lower-cased, trimmed text contains one of the fourteen keywords |
| BackendAgent.NoSqlKeywordWithout | backend/src/agent.py:204-207 | a text without the letters r, q, c, g, u contains none of the keywords |
| BackendAgent.NotSqlWithout | backend/src/agent.py:202-210 | a question without those letters in either case is not a request for SQL |
| BackendAgent.HowManyTablesIsNotSql | backend/src/agent.py:202-210 | "How many tables exist?" is not a request for SQL |
| BackendAgent.StatusOf | backend/src/agent.py:374 | never "error"; "empty" exactly when there is SQL and no row |
| BackendAgent.KeySteps | backend/src/agent.py:362 | steps[:2]: the prefix of the trace of length min(2, len(steps)) |
| BackendAgent.ProcessQuestion | backend/src/agent.py:212-417 | the first step plus the loop's run, over the tools object, give the response of process_question |
| BackendAgent.RespondReasoning | backend/src/agent.py:360-362 | a finished response reports one or two steps, starting with the first step of the trace |
| BackendAgent.ReasoningIsKeySteps | backend/src/agent.py:228-234 | every finished response's reasoning is one or two steps, the first being "Analyzing question" with the question and the SQL tag; at most ten tools ran |
| BackendAgent.OnlyToolCallsIsAnError | backend/src/agent.py:382-417 | a script of calls only ends with success False, status "error" and "Query executed with N results" |
| BackendAgent.FailedSendIsReported | backend/src/agent.py:242-250 | a failed first send, or a failed send after calls only, gives exactly {"success": False, "error": str(e)} |
| BackendAgent.AnswerResponse | backend/src/agent.py:334-378 | an answer gives success, the text as summary, rows and columns of the last result, its sql when it had one (from the text only when SQL was asked), and status "empty" exactly when there is SQL but no row |
| BackendAgent.ErrorResponse | backend/src/agent.py:386-417 | no answer gives success False, status "error", the sql, rows and columns of the last result, and "Query executed with N results" for those N rows after a tool ran, else "Agent could not complete the task fully" with no SQL and no rows; database availability and the SQL tag are passed through |
| BackendAgent.RespondAfterFailure | backend/src/agent.py:339-374 | an answer after a failed execution that holds a statement has status "empty" |
| BackendAgent.ToolFailuresHoldSql | backend/src/agent.py:182-198 | every failed execution the agent's tools report holds a non-empty statement |
| BackendAgent.FailedQueryIsEmpty | backend/src/agent.py:339-374 | an answer after an execute_sql whose statement the engine refused (a failure that keeps its statement) has status "empty" |
| BackendAgent.ExecutedStatementsAreSafe | backend/src/agent.py:264-276 | every statement the dispatched calls of a session hand to the database is safe, and at most ten calls ran |
| LegacyAgent.ProcessQuestion | src/agent.py:171-310 | the first step plus the loop's run, over the tools object, give the response of process_question |
| LegacyAgent.RespondSuccess | src/agent.py:284-310 | success is reported exactly when the loop gave an answer or a tool had run |
| LegacyAgent.AnswerKeepsWholeTrace | src/agent.py:265-290 | an answer returns the text as summary, the last result and the whole trace, from "Analyzing question" to "Generating response" |
| LegacyAgent.StoppedResponse | src/agent.py:298-310 | without an answer: success with the last result and the whole trace after a tool ran, else "Agent did not complete the task" |
| LegacyAgent.OnlyToolCallsStillSucceed | src/agent.py:203-303 | ten returning calls run the loop out and the response still has success True with the last result |
| LegacyAgent.FailedSendIsReported | src/agent.py:192-262 | a failed send, the first or one after calls only, gives exactly {"success": False, "error": str(e)} |

The dispatch of src/agent.py:139-169 is identical to that of
backend/src/agent.py:170-200, so the `Dispatch` lemmas hold for both agents. The
loop of src/agent.py:203-292 is that of backend/src/agent.py:253-380 with other
icons, so the `AgentLoop` lemmas, which hold for any icons and any starting
trace, cover both.

## Left out

- The Gemini SDK (configuration, the chat session, `send_message`, the protos)
  and the tool-schema builders are not modelled. The replies are a script, and a
  failed send is a reply carrying `str(e)`. The system prompt sent with the
  question has no effect on the model.
- sqlite3 and sqlparse are abstract. The parser is the predicate `parses`, and
  the SQL engine is the function `run` of the database value. The PRAGMA and
  `COUNT` queries are computed from the table contents.
- Table and column names are looked up, not pasted into SQL text. The source
  interpolates them unquoted (backend/src/tools.py:68, 118, 135-149, 188), so a
  name such as "Order Details" or "order", or an argument such as
  `(SELECT ...)`, changes or breaks the query. The model does not capture:
  - DbTools.SchemaInfo and DbTools.DatabaseTools.GetSchemaInfo: the
    `except sqlite3.Error` branch (backend/src/tools.py:94-95) such a name reaches;
  - DbTools.Explore and DbTools.DatabaseTools.ExploreData: the "Error exploring
    data: ..." answer such a name gives (backend/src/tools.py:162-163), where the
    model answers the sample rows or statistics of the table of that name;
  - DbTools.TableStatsOf and DbTools.DatabaseTools.GetTableStats: the uncaught
    `sqlite3.OperationalError` a catalogue table with such a name raises (there is
    no `try` in get_table_stats, nor around the tool call at
    backend/src/agent.py:283), which ends process_question; the model answers the
    row counts;
  - DbTools.Explore and DbTools.DatabaseTools.ExploreData, the other way round:
    the column is looked up among the declared columns only, so `rowid`, a
    literal such as `1` or an expression gets "no such column: ..." in the model,
    where SQLite's `COUNT(DISTINCT rowid)` or `COUNT(DISTINCT 1)`
    (backend/src/tools.py:135-149) answers statistics in the source.
- ExploreData, GetSchemaInfo, GetTableStats (DbTools.DatabaseTools), with DbTools.Explore,
  DbTools.SchemaInfo and DbTools.TableStatsOf, and the `Database` value they read:
  an available database can always be read in the model. In the source a file
  that is not SQLite still opens (`sqlite3.connect` does not read it,
  backend/src/tools.py:26-32), so `available` is True. Then every query fails
  with "file is not a database":
  - explore_data answers "Error exploring data: file is not a database";
  - the catalogue query of get_schema_info() (backend/src/tools.py:53-58, before
    its `try`) raises;
  - the catalogue query of get_table_stats() (backend/src/tools.py:178-183, with no
    `try`) raises.
  Nothing catches either exception around the tool call (backend/src/agent.py:283,
  src/agent.py:233), so process_question ends with it. The model answers the
  sample rows or statistics, `AllTables` and `TableStats`.
- ToolsReadTablesOnly: holds because the model's schema, explore and stats tools
  only look names up; in the source an argument of the language model that is
  interpolated into those queries reaches the SQL engine without the validator.
- NothingElseRuns: the same gap; a dispatch to get_schema_info, explore_data or
  get_table_stats can run engine-parsed text derived from the arguments, so
  "only execute_sql statements reach the engine" holds only for the model.
- Strings.Upper: maps only ASCII a-z. Python's str.upper() also maps ı to I, ſ to
  S, ß to SS, the ligatures ﬀ, ﬁ, ﬂ, ﬃ, ﬄ, ﬅ and ﬆ to their ASCII letters, and
  letters such as ǰ to an ASCII letter followed by a combining mark, so the
  upper-cased text can contain keywords the model's does not.
- SqlValidator.ValidateSql: through Strings.Upper, its verdict and every
  validator lemma differ from validate_sql on such characters. "ſelect 1" is
  accepted with " LIMIT 100" appended by the source and refused as not SELECT by
  the model; "SELECT * FROM t WHERE x='ınsert'" is blocked as INSERT by the
  source and accepted by the model; "select * from t limıt 5" is kept unchanged by
  the source and gets " LIMIT 100" in the model.
- Strings.Lower: maps only ASCII A-Z. Python's lower() also maps the Kelvin sign
  to k and İ to i followed by a combining dot; no keyword of `_is_sql_request`
  has a k, and the combining dot cannot sit inside a keyword, so the two
  classifications agree, but the lower-cased texts differ.
- `execution_time` from `time.time()` and `round` is left out, because it is
  wall-clock floating point.
- Column values are integers, text, BLOBs and NULL. REAL values are not
  modelled, because they are floating point.
- ExecuteTool, ToolOutcome (Dispatch): the arguments are split by type, strings
  under table_name, column_name and sql and integers under sample_size, and each
  key is read only at its own type. A number under a string key is read as
  absent, where the source passes any value on (backend/src/agent.py:172-181):
  get_schema_info with table_name 5 gives a table_schema for 5 with empty lists
  in the source and `AllTables` in the model; explore_data with table_name 5
  gives "Error exploring data: ..." in the source and `MissingArgument` (then
  `Crashed`) in the model; likewise a string `sample_size` is not read. Other
  JSON values (floats, lists, objects, booleans) are not modelled.
- The regular-expression extraction of SQL from an answer text
  (backend/src/agent.py:346-358) is the function `extractSql`. It is consulted
  only when SQL was asked for, the last result has no SQL, and the text mentions
  select or sql.
- `json.dumps(tool_args, indent=2)` in the "Arguments" step is the function
  `render`.
- The backend error response's constant `"error": "Agent did not complete the
  task"` field and the answer's constant `"isExpensive": False` field are not
  carried by `BackendAgent.Response`.
- `response.candidates[0]` on a reply without candidates (`IndexError`) is not
  modelled. A reply always has a first candidate.
- All display and console output is left out: `ReasoningTrace.display`,
  `display_query_results`, `display_summary`, `display_error`,
  `display_tool_call` and the `show_reasoning` flag.
- ProcessQuestion, AnswerResponse, FailedSendIsReported, OnlyToolCallsIsAnError,
  ErrorResponse (BackendAgent): the model takes every display call in
  process_question to return normally. In the source they print error texts,
  column names, cell values, step contents, tool arguments and the answer
  through Rich markup (backend/src/display.py:38-39, 59, 86, 91-93, 106, 134,
  142-145), and Rich raises `MarkupError` on a closing tag that opens nothing.
  For a question such as "what does [/b] mean" with `show_reasoning` on (the
  default), or model text or values holding "[/b]", these call sites raise:
  - the failed first send (backend/src/agent.py:246-249: `reasoning.display()`,
    then `display_error` with `str(e)`, the latter whatever `show_reasoning` is),
    where FailedSendIsReported promises the error pair;
  - the tool call (backend/src/agent.py:279-280, `display_tool_call` with the
    model's arguments);
  - a failed send after a call (backend/src/agent.py:308-311), again where
    FailedSendIsReported promises the error pair;
  - the text answer (backend/src/agent.py:323-332: the trace, the last result's
    cells and the answer), where ProcessQuestion and AnswerResponse answer
    `Finished`;
  - loop exhaustion (backend/src/agent.py:383-384, `reasoning.display()`),
    where OnlyToolCallsIsAnError and ErrorResponse answer `Finished` with
    success False.
  src/display.py is not part of this model, so no such claim is made about the
  command-line agent.
- src/tools.py and src/display.py are not part of this model. The command-line
  agent is modelled over the tools and the reasoning log of backend/src, whose
  interfaces it calls with the same names.
- `close`, `__enter__`, `__exit__`, `reset_chat` and the agents' constructors
  (API key and model set-up) are left out, since they are resource management.
- The HTTP layers (backend/apis.py, apis.py, backend/server.py), main.py,
  setup.py and backend/test_setup.py are left out. Only constants are taken from
  config.py.
