# DataAgent core — a Dafny model

DataAgent turns a live relational database into a searchable description of its tables,
columns and foreign keys, and answers natural-language questions with SQL written from that
description. This project models the core of the Java service (`data-agent-management`) and the
HTML report page of the frontend, and proves properties of the model in Dafny.

What is modelled, one module per source component:

- **Wrappers, JavaText, SeqUtil** — the value types the Java code relies on: `Option`, `Result`
  with the Java exceptions the core throws or catches, and Java `String` behaviour
  (`trim`, `split` on one literal character, `indexOf`/`lastIndexOf`, `Integer.parseInt`,
  `String.hashCode` as a signed 32-bit int, `StringUtils.abbreviate`).
- **ConnectionPool** — the shared data-source cache keyed by url, user name and password hash,
  `getConnection` with three attempts and a wait of 1000·k ms after the k-th failure, `close`,
  and the connection ping with its error-code mapping.
- **Accessor, AccessorFactory, JdbcResults, DamengDdl, SqlServerDdl** — the named introspection
  operations of an accessor (each opens and closes exactly one connection), the registry of
  accessors, the result-set reading loop, and the catalog queries and their result handling of
  the Dameng and SQL Server dialects. The SQL of each query is a `Query` value that records what
  it selects, its pattern and its row limit.
- **DatasourceHandlers, HandlerRegistry** — connection-URL building per database type, schema
  extraction, test-URL normalisation, and the case- and padding-insensitive handler registry.
- **SchemaTypes, Documents, TableMetadata, SchemaService, SchemaInit** — the table and column
  records, column sampling and enrichment, the foreign-key map, the conversion of tables and
  columns to vector-store documents, the foreign-key closure that fetches referenced tables
  missing from a recall, and the schema build that clears and rewrites an agent's documents.
- **Batching** — splitting the documents written to the vector store into batches.
- **ParagraphSplitter, SentenceSplitter** — the two text splitters: each loop is proved to
  compute a specification function, and the pieces are proved trimmed, non-empty and (for the
  paragraph splitter with overlaps off, and for the parts of a long sentence) within the chunk size.
- **RrfFusion** — reciprocal-rank fusion of the keyword and vector recalls.
- **MultiTurnContext** — the per-thread conversation history with its pending planner output
  and eviction of the oldest turns.
- **WorkflowState, PlanProcess, PlanExecutor, HumanFeedback, Dispatchers, SqlUtil, JsonParse,
  PromptHelper** — the graph's routing decisions, plan validation and step advance, the repair
  counter, human feedback, the SQL clean-up helpers, the `<think>`-stripping and repairing JSON
  parser, and the prompt texts the core assembles.
- **SemanticModels, PresetQuestions, UserPrompts, DifyKnowledge** — the services over their
  tables, modelled as classes whose table contents are sequence fields; each method states the
  table after the call.
- **ReportHtml** — the HTML-escaping and page assembly of `report-html-template.ts`, with the
  round trip from the page back to the report text.

Database access, the LLM, the vector store and the clock are parameters of the model or are
listed below. Two behaviours of the code are modelled as written. The comment at
`AbstractDBConnectionPool.java:125` speaks of exponential backoff, but the code waits 1000·k ms
before retry k (line 127). `AbstractAccessor.accessDb` opens a connection (line 50) before it
looks at the operation name (line 54), so an unknown operation still opens and closes one.

## Model

| member | source | states |
|---|---|---|
| Accessor.ParseOperation | data-agent-management/src/main/java/com/alibaba/cloud/ai/dataagent/connector/accessor/AbstractAccessor.java:54-76 | a name accessDb's switch recognises selects the operation whose wrapper passes that name; any other name selects none |
| Accessor.OperationNameParses | data-agent-management/src/main/java/com/alibaba/cloud/ai/dataagent/connector/accessor/AbstractAccessor.java:85-119 | the name each typed wrapper passes selects that wrapper's own operation in the switch |
| Accessor.OperationNamesDistinct | data-agent-management/src/main/java/com/alibaba/cloud/ai/dataagent/connector/accessor/AbstractAccessor.java:85-119 | two wrappers that pass the same name are the same operation |
| Accessor.Dispatch | data-agent-management/src/main/java/com/alibaba/cloud/ai/dataagent/connector/accessor/AbstractAccessor.java:54-76 | an unknown name is an UnsupportedOperationException "Unknown method: " + name; a null parameter read by the operation is a NullPointerException; otherwise the executor's result, unchanged |
| Accessor.ConnectionLog.AccessDb | data-agent-management/src/main/java/com/alibaba/cloud/ai/dataagent/connector/accessor/AbstractAccessor.java:48-83 | a failed getConnection ends the call with that exception and nothing acquired; otherwise the connection is released on every path, the executor runs at most once between acquire and release, and the result is the dispatch's |
| Accessor.ConnectionLog.Call | data-agent-management/src/main/java/com/alibaba/cloud/ai/dataagent/connector/accessor/AbstractAccessor.java:85-119 | each typed wrapper runs its own operation once inside one acquire/release, or fails with a NullPointerException when it needs the missing parameter |
| Accessor.Ran | data-agent-management/src/main/java/com/alibaba/cloud/ai/dataagent/connector/accessor/AbstractAccessor.java:54-76 | the executor runs exactly when the name is known and the parameter it reads is present |
| Accessor.WrapperParameter | data-agent-management/src/main/java/com/alibaba/cloud/ai/dataagent/connector/accessor/AbstractAccessor.java:85-91 | showDatabases and showSchemas pass a null parameter; the other wrappers pass theirs on |
| AccessorFactory.FindType | data-agent-management/src/main/java/com/alibaba/cloud/ai/dataagent/connector/accessor/AccessorFactory.java:52-57 | the first catalogue entry whose dialect and protocol both equal the configuration's, ignoring case; none when no entry matches |
| AccessorFactory.RegisterAllLastWins | data-agent-management/src/main/java/com/alibaba/cloud/ai/dataagent/connector/accessor/AccessorFactory.java:34-42 | after constructing from a list, each type maps to the last accessor of that type in the list |
| AccessorFactory.RegisterAllOthers | data-agent-management/src/main/java/com/alibaba/cloud/ai/dataagent/connector/accessor/AccessorFactory.java:34-42 | registering a list leaves the entry of any type not in the list as it was |
| AccessorFactory.Factory.constructor | data-agent-management/src/main/java/com/alibaba/cloud/ai/dataagent/connector/accessor/AccessorFactory.java:34-36 | the accessor map is the list registered in order |
| AccessorFactory.Factory.Register | data-agent-management/src/main/java/com/alibaba/cloud/ai/dataagent/connector/accessor/AccessorFactory.java:40-42 | the accessor is put under its type, replacing any earlier one, and nothing else changes |
| AccessorFactory.Factory.GetAccessorByType | data-agent-management/src/main/java/com/alibaba/cloud/ai/dataagent/connector/accessor/AccessorFactory.java:70-72 | an accessor is returned exactly when the type is registered, and it is the one registered under it |
| AccessorFactory.Factory.GetAccessorByDbTypeEnum | data-agent-management/src/main/java/com/alibaba/cloud/ai/dataagent/connector/accessor/AccessorFactory.java:62-68 | a registered accessor supporting the type name; IllegalStateException exactly when no registered accessor supports it |
| AccessorFactory.Factory.GetAccessorByDbConfig | data-agent-management/src/main/java/com/alibaba/cloud/ai/dataagent/connector/accessor/AccessorFactory.java:48-59 | a null configuration is an IllegalArgumentException; no matching catalogue entry is an IllegalStateException naming the dialect; otherwise the lookup by that entry |
| Batching.SplitSpec | data-agent-management/src/main/java/com/alibaba/cloud/ai/dataagent/strategy/EnhancedTokenCountBatchingStrategy.java:58-68 | a token batch within the limit is kept whole; a larger one becomes ceil(n / maxTextCount) consecutive slices that give it back in order, all but the last full, none over the limit |
| Batching.RebatchAppend | data-agent-management/src/main/java/com/alibaba/cloud/ai/dataagent/strategy/EnhancedTokenCountBatchingStrategy.java:57-69 | the token batches are re-cut one at a time, independently of each other |
| Batching.RebatchFlatten | data-agent-management/src/main/java/com/alibaba/cloud/ai/dataagent/strategy/EnhancedTokenCountBatchingStrategy.java:57-70 | flattening the output gives the flattened token batches: nothing lost, duplicated or reordered |
| Batching.RebatchBounded | data-agent-management/src/main/java/com/alibaba/cloud/ai/dataagent/strategy/EnhancedTokenCountBatchingStrategy.java:58-68 | every output batch has at most maxTextCount documents |
| Batching.RebatchKeeps | data-agent-management/src/main/java/com/alibaba/cloud/ai/dataagent/strategy/EnhancedTokenCountBatchingStrategy.java:58-61 | token batches all within the limit pass through unchanged |
| Batching.AppendSlices | data-agent-management/src/main/java/com/alibaba/cloud/ai/dataagent/strategy/EnhancedTokenCountBatchingStrategy.java:64-67 | the subList loop appends exactly the consecutive slices of the oversize batch |
| Batching.Batch | data-agent-management/src/main/java/com/alibaba/cloud/ai/dataagent/strategy/EnhancedTokenCountBatchingStrategy.java:50-72 | the output is the re-cut of the token batches, so the three lemmas above hold of it |
| ConnectionPool.PasswordHash | data-agent-management/src/main/java/com/alibaba/cloud/ai/dataagent/connector/pool/AbstractDBConnectionPool.java:144-146 | the password's hash is a 32-bit int, 0 for a null password |
| ConnectionPool.IntToStringNoBar | data-agent-management/src/main/java/com/alibaba/cloud/ai/dataagent/connector/pool/AbstractDBConnectionPool.java:144-146 | the printed hash never contains the vertical-bar separator |
| ConnectionPool.CacheKeyParts | data-agent-management/src/main/java/com/alibaba/cloud/ai/dataagent/connector/pool/AbstractDBConnectionPool.java:144-146 | when url and username hold no vertical bar, the key splits back into url, username and the password hash |
| ConnectionPool.CacheKeyInjective | data-agent-management/src/main/java/com/alibaba/cloud/ai/dataagent/connector/pool/AbstractDBConnectionPool.java:144-146 | under the same condition, two configurations share a cached data source exactly when url, username and password hash agree |
| ConnectionPool.Filters | data-agent-management/src/main/java/com/alibaba/cloud/ai/dataagent/connector/pool/AbstractDBConnectionPool.java:168-171 | the Druid filters are "stat" when the lower-cased driver name contains dm.jdbc.driver.dmdriver, "wall,stat" otherwise |
| ConnectionPool.Attempt | data-agent-management/src/main/java/com/alibaba/cloud/ai/dataagent/connector/pool/AbstractDBConnectionPool.java:88-115 | one attempt reuses the cached data source or creates one (a failed creation is the attempt's error), then asks it for a connection |
| ConnectionPool.RetrySpec | data-agent-management/src/main/java/com/alibaba/cloud/ai/dataagent/connector/pool/AbstractDBConnectionPool.java:84-133 | at most three attempts; failure only after the third, with "Failed to get database connection after 3 attempts"; success returns the last attempt's connection and every earlier attempt failed; a cached data source is never replaced, a created one came from some attempt |
| ConnectionPool.Waits | data-agent-management/src/main/java/com/alibaba/cloud/ai/dataagent/connector/pool/AbstractDBConnectionPool.java:125-131 | after failed attempt k below the last the pool waits 1000 * k ms |
| ConnectionPool.Pool.AttemptCached | data-agent-management/src/main/java/com/alibaba/cloud/ai/dataagent/connector/pool/AbstractDBConnectionPool.java:90-114 | one attempt uses the data source cached under the key, or creates one and caches it only when creation succeeded; its outcome is the attempt of the retry specification |
| ConnectionPool.Pool.GetConnection | data-agent-management/src/main/java/com/alibaba/cloud/ai/dataagent/connector/pool/AbstractDBConnectionPool.java:81-135 | the outcome and the attempt count are those of the retry specification started from the cache entry under the key; the cache gains at most the created data source under that key; the waits are 1000, 2000 ms as needed |
| ConnectionPool.Pool.Close | data-agent-management/src/main/java/com/alibaba/cloud/ai/dataagent/connector/pool/AbstractDBConnectionPool.java:149-157 | the cache is emptied |
| ConnectionPool.Ping | data-agent-management/src/main/java/com/alibaba/cloud/ai/dataagent/connector/pool/AbstractDBConnectionPool.java:52-79 | a non-PostgreSQL-dialect connection that opens is SUCCESS; for a PostgreSQL dialect a schema count of 0 is SCHEMA_NOT_EXIST (the only way to get it) and any other count or no row is SUCCESS; an SQLException from connecting or counting is mapped from its SQL state; any other exception propagates |
| DamengDdl.ShowTablesQuery | data-agent-management/src/main/java/com/alibaba/cloud/ai/dataagent/connector/impls/dameng/DamengJdbcDdl.java:70-73 | the table query filters by substring exactly when the pattern is not blank, and then by that pattern |
| DamengDdl.NotNullFlagSpec | data-agent-management/src/main/java/com/alibaba/cloud/ai/dataagent/connector/impls/dameng/DamengJdbcDdl.java:140 | a column is NOT NULL exactly when its NULLABLE cell is "N" in any case |
| DamengDdl.ShowDatabases | data-agent-management/src/main/java/com/alibaba/cloud/ai/dataagent/connector/impls/dameng/DamengJdbcDdl.java:39-43 | databases are not enumerated: always the empty list |
| DamengDdl.ShowSchemas | data-agent-management/src/main/java/com/alibaba/cloud/ai/dataagent/connector/impls/dameng/DamengJdbcDdl.java:45-66 | one schema per non-empty data row of SYS.ALL_USERS, the header skipped; a query failure is rethrown |
| DamengDdl.ShowTables | data-agent-management/src/main/java/com/alibaba/cloud/ai/dataagent/connector/impls/dameng/DamengJdbcDdl.java:68-92 | one table per non-empty data row, by name only, with an empty description |
| DamengDdl.FetchTables | data-agent-management/src/main/java/com/alibaba/cloud/ai/dataagent/connector/impls/dameng/DamengJdbcDdl.java:94-119 | an empty list answers an empty list without querying; otherwise the named tables by name only |
| DamengDdl.ShowColumns | data-agent-management/src/main/java/com/alibaba/cloud/ai/dataagent/connector/impls/dameng/DamengJdbcDdl.java:121-148 | one column per non-empty data row, named by cell 0, never primary, NOT NULL exactly when cell 3 is "N" in any case |
| DamengDdl.ShowForeignKeys | data-agent-management/src/main/java/com/alibaba/cloud/ai/dataagent/connector/impls/dameng/DamengJdbcDdl.java:150-181 | an empty list answers an empty list without querying; otherwise table and column from each row, the referenced side left empty |
| DamengDdl.SampleColumn | data-agent-management/src/main/java/com/alibaba/cloud/ai/dataagent/connector/impls/dameng/DamengJdbcDdl.java:183-205 | a query failing with an SQLException gives no samples and any other exception propagates; otherwise the distinct first cells of the data rows, skipping those equal to the column name ignoring case, each once |
| DamengDdl.ScanTable | data-agent-management/src/main/java/com/alibaba/cloud/ai/dataagent/connector/impls/dameng/DamengJdbcDdl.java:207-220 | the scan runs on the executor with the schema argument; its result, with an SQLException rethrown as a RuntimeException |
| Dispatchers.PlanExecutorDispatch | data-agent-management/src/main/java/com/alibaba/cloud/ai/dataagent/workflow/dispatcher/PlanExecutorDispatcher.java:37-65 | a passed validation goes to PLAN_NEXT_NODE, the end when it is unset or "END"; a failed or missing validation goes to the planner unless more than two repairs were counted, and then ends |
| Dispatchers.RejectedPlanRoute | data-agent-management/src/main/java/com/alibaba/cloud/ai/dataagent/workflow/dispatcher/PlanExecutorDispatcher.java:50-64 | after the execution node rejects a plan, the run returns to the planner exactly when fewer than two repairs had been counted before, so at most three generated plans are validated |
| Dispatchers.SoundPlanRoute | data-agent-management/src/main/java/com/alibaba/cloud/ai/dataagent/workflow/dispatcher/PlanExecutorDispatcher.java:40-48 | a sound plan with review off and a current step inside the plan is routed to the tool that step names |
| Dispatchers.PythonExecutorDispatch | data-agent-management/src/main/java/com/alibaba/cloud/ai/dataagent/workflow/dispatcher/PythonExecutorDispatcher.java:41-65 | fallback mode and success go to PYTHON_ANALYZE; a failure ends exactly when the tries reached the maximum and otherwise regenerates the code |
| Dispatchers.SqlGenerateDispatch | data-agent-management/src/main/java/com/alibaba/cloud/ai/dataagent/workflow/dispatcher/SqlGenerateDispatcher.java:41-64 | no output is retried exactly when a count is set and below the maximum (an unset count counts as the maximum); the output END ends; any other output goes to the semantic consistency check |
| Dispatchers.TableRelationDispatch | data-agent-management/src/main/java/com/alibaba/cloud/ai/dataagent/workflow/dispatcher/TableRelationDispatcher.java:32-57 | a non-empty error starting with "RETRYABLE:" is retried while fewer than three retries were made, any other non-empty error ends; with no error an output goes to FEASIBILITY_ASSESSMENT and no output ends |
| Dispatchers.QueryEnhanceDispatch | data-agent-management/src/main/java/com/alibaba/cloud/ai/dataagent/workflow/dispatcher/QueryEnhanceDispatcher.java:35-61 | schema recall exactly when the output, a canonical query that is not blank after trim and a non-empty list of expanded queries are all present; otherwise the end |
| Dispatchers.IntentRecognitionDispatch | data-agent-management/src/main/java/com/alibaba/cloud/ai/dataagent/workflow/dispatcher/IntentRecognitionDispatcher.java:35-57 | evidence recall exactly when a classification is present, not blank after trim and not the chit-chat label; otherwise the end |
| Dispatchers.PaddedChatLabelProceeds | data-agent-management/src/main/java/com/alibaba/cloud/ai/dataagent/workflow/dispatcher/IntentRecognitionDispatcher.java:49-56 | the chit-chat label is compared exactly, so the label with a leading space goes on to evidence recall |
| HumanFeedback.RejectionReason | data-agent-management/src/main/java/com/alibaba/cloud/ai/dataagent/workflow/node/HumanFeedbackNode.java:75-77 | the recorded reason is never empty: the feedback content when it has length, "Plan rejected by user" otherwise |
| HumanFeedback.Apply | data-agent-management/src/main/java/com/alibaba/cloud/ai/dataagent/workflow/node/HumanFeedbackNode.java:40-83 | three or more repairs route to END and write nothing else; the route is PLANNER exactly when fewer than three repairs, non-empty feedback and no approval ("feedback" defaults to true, a non-Boolean is parsed); a rejection counts one more repair, resets the step to 1, keeps review on, records the reason and clears the plan; an approval goes to PLAN_EXECUTOR with review off and nothing else |
| WorkflowState.MergeNothing | data-agent-management/src/main/java/com/alibaba/cloud/ai/dataagent/workflow/node/HumanFeedbackNode.java:41-48 | a node result that puts no key leaves the state as it was |
| WorkflowState.MergeInOrder | data-agent-management/src/main/java/com/alibaba/cloud/ai/dataagent/workflow/node/HumanFeedbackNode.java:41-48 | merging two node results in turn is merging the second into the first and then into the state: the later result wins on every key both put |
| HumanFeedback.RejectionsBounded | data-agent-management/src/main/java/com/alibaba/cloud/ai/dataagent/workflow/node/HumanFeedbackNode.java:44-49 | whatever feedback a reviewer gives in turn, a plan is sent back to the planner at most 3 - repairCount times |
| PlanProcess.GetPlan | data-agent-management/src/main/java/com/alibaba/cloud/ai/dataagent/util/PlanProcessUtil.java:101-109 | a missing planner output is an IllegalStateException; the plan is returned exactly when the converter gives a non-null plan, and it is that plan |
| PlanProcess.GetCurrentStepNumber | data-agent-management/src/main/java/com/alibaba/cloud/ai/dataagent/util/PlanProcessUtil.java:116-118 | the stored current step, 1 when unset |
| PlanProcess.GetCurrentExecutionStep | data-agent-management/src/main/java/com/alibaba/cloud/ai/dataagent/util/PlanProcessUtil.java:81-93 | the step at 1-based position currentStep exactly when the step list exists and the position lies inside it; an IllegalStateException otherwise |
| PlanProcess.StepKeyInjective | data-agent-management/src/main/java/com/alibaba/cloud/ai/dataagent/util/PlanProcessUtil.java:130 | different step numbers are stored under different "step_" keys |
| PlanProcess.AddStepResult | data-agent-management/src/main/java/com/alibaba/cloud/ai/dataagent/util/PlanProcessUtil.java:127-132 | the copy has the input's keys plus "step_" + n, holds the result there and keeps every other value; the input is a value and is not changed |
| PlanProcess.AddStepResultKeeps | data-agent-management/src/main/java/com/alibaba/cloud/ai/dataagent/util/PlanProcessUtil.java:127-132 | recording a second step's result keeps the first step's result |
| PlanExecutor.ValidateExecutionStep | data-agent-management/src/main/java/com/alibaba/cloud/ai/dataagent/workflow/node/PlanExecutorNode.java:134-173 | a step passes exactly when its tool is one of the three supported nodes, its parameters are present, and a report step has a summary_and_recommendations with text while an SQL or Python step has an instruction with text |
| PlanExecutor.FirstRejected | data-agent-management/src/main/java/com/alibaba/cloud/ai/dataagent/workflow/node/PlanExecutorNode.java:70-75 | the position of the first step that fails validation, every step before it passing; -1 exactly when every step passes |
| PlanExecutor.DetermineNextNode | data-agent-management/src/main/java/com/alibaba/cloud/ai/dataagent/workflow/node/PlanExecutorNode.java:107-121 | a supported node or the human feedback node becomes the next node with validation true; only any other name gives the unsupported-node failure; a null name makes the set lookup throw |
| PlanExecutor.ApplyValidation | data-agent-management/src/main/java/com/alibaba/cloud/ai/dataagent/workflow/node/PlanExecutorNode.java:50-102 | validation passes exactly for a plan that parses, has steps and whose every step passes; every failure raises the repair count by one; the unsupported-node answer is never reached |
| PlanExecutor.ApplyRoutes | data-agent-management/src/main/java/com/alibaba/cloud/ai/dataagent/workflow/node/PlanExecutorNode.java:77-101 | for a sound plan: human feedback while review is on; past the last step the step resets to 1 and the route is END for NL2SQL-only runs, the report otherwise; a step below 1 is an index error; otherwise the current step's own node |
| SqlUtil.BuildSelectSql | data-agent-management/src/main/java/com/alibaba/cloud/ai/dataagent/util/SqlUtil.java:38-54 | fails with IllegalArgumentException exactly for a null or empty table name; SQL Server dialects put the limit after SELECT TOP, every other dialect after LIMIT |
| SqlUtil.SelectList | data-agent-management/src/main/java/com/alibaba/cloud/ai/dataagent/util/SqlUtil.java:42-44 | the select list is never empty: the given columns, or "*" for null or empty columns |
| SqlUtil.DialectFormsAgree | data-agent-management/src/main/java/com/alibaba/cloud/ai/dataagent/util/SqlUtil.java:46-53 | both dialect forms select the same list from the same table; only the place of the limit differs |
| DatasourceHandlers.SupportsIgnoresCase | data-agent-management/src/main/java/com/alibaba/cloud/ai/dataagent/service/datasource/handler/DatasourceTypeHandler.java:35-37 | whether a handler supports a type does not change when the type is upper- or lower-cased |
| DatasourceHandlers.DatabasePart | data-agent-management/src/main/java/com/alibaba/cloud/ai/dataagent/service/datasource/handler/impl/PostgreSqlDatasourceTypeHandler.java:37-40 | a name without a vertical bar is used whole; with one, the text before the first bar; a name of bars only has no parts, and reading the first part throws |
| DatasourceHandlers.BuildConnectionUrl | data-agent-management/src/main/java/com/alibaba/cloud/ai/dataagent/service/datasource/handler/DatasourceTypeHandler.java:39-45 | without host, port and database name (or for a handler without its own override) the stored URL; otherwise the MySQL, PostgreSQL (database part only) or H2 in-memory URL with its fixed options |
| DatasourceHandlers.ResolveConnectionUrl | data-agent-management/src/main/java/com/alibaba/cloud/ai/dataagent/service/datasource/handler/DatasourceTypeHandler.java:47-53 | a stored URL with text wins; otherwise the built URL |
| DatasourceHandlers.ExtractSchemaName | data-agent-management/src/main/java/com/alibaba/cloud/ai/dataagent/service/datasource/handler/impl/PostgreSqlDatasourceTypeHandler.java:46-55 | the database name, except that PostgreSQL with a vertical bar takes the part after the bar, or the first part when nothing follows it |
| DatasourceHandlers.PostgreSqlDatabaseAndSchema | data-agent-management/src/main/java/com/alibaba/cloud/ai/dataagent/service/datasource/handler/impl/PostgreSqlDatasourceTypeHandler.java:31-55 | for a name "db" + bar + "schema" the URL names only db and the schema is the part after the bar |
| DatasourceHandlers.PostgreSqlMissingSchema | data-agent-management/src/main/java/com/alibaba/cloud/ai/dataagent/service/datasource/handler/impl/PostgreSqlDatasourceTypeHandler.java:50-53 | for "db" followed by a bar alone the schema is db itself |
| DatasourceHandlers.PostgreSqlLoneBar | data-agent-management/src/main/java/com/alibaba/cloud/ai/dataagent/service/datasource/handler/impl/PostgreSqlDatasourceTypeHandler.java:37-53 | a database name that is a lone bar makes both the URL and the schema throw ArrayIndexOutOfBoundsException |
| DatasourceHandlers.ToDbConfig | data-agent-management/src/main/java/com/alibaba/cloud/ai/dataagent/service/datasource/handler/DatasourceTypeHandler.java:59-68 | the resolved URL, username and password, the JDBC access type, the type name as dialect and the extracted schema; the URL's or schema's exception passes through |
| DatasourceHandlers.AppendParam | data-agent-management/src/main/java/com/alibaba/cloud/ai/dataagent/service/datasource/handler/impl/MysqlDatasourceTypeHandler.java:57-59 | "key=value" is joined with "?" when the URL has no "?", with "&" otherwise |
| DatasourceHandlers.NormalizeTestUrl | data-agent-management/src/main/java/com/alibaba/cloud/ai/dataagent/service/datasource/handler/impl/MysqlDatasourceTypeHandler.java:43-55 | the test URL only ever grows at the end; other kinds keep it; for MySQL each of the four cases (both settings named in any letter case / only the timezone / only SSL / neither) gives the URL with exactly the missing settings appended, timezone before SSL |
| DatasourceHandlers.TimezoneKeepsSslProbe | data-agent-management/src/main/java/com/alibaba/cloud/ai/dataagent/service/datasource/handler/impl/MysqlDatasourceTypeHandler.java:47-53 | appending the timezone setting neither creates nor hides a "usessl=" in the lower-cased URL, so the SSL check on the updated URL answers as it would on the original |
| DatasourceHandlers.NormalizeTail | data-agent-management/src/main/java/com/alibaba/cloud/ai/dataagent/service/datasource/handler/impl/MysqlDatasourceTypeHandler.java:51-53 | the SSL step keeps a URL that names an SSL setting and otherwise appends useSSL=false |
| DatasourceHandlers.AppendedParamFound | data-agent-management/src/main/java/com/alibaba/cloud/ai/dataagent/service/datasource/handler/impl/MysqlDatasourceTypeHandler.java:47-53 | after appending a parameter its lower-cased "key=" is found in the lower-cased URL |
| DatasourceHandlers.AppendedParamKeeps | data-agent-management/src/main/java/com/alibaba/cloud/ai/dataagent/service/datasource/handler/impl/MysqlDatasourceTypeHandler.java:47-53 | appending keeps whatever the lower-cased URL already held |
| DatasourceHandlers.NormalizedHasParams | data-agent-management/src/main/java/com/alibaba/cloud/ai/dataagent/service/datasource/handler/impl/MysqlDatasourceTypeHandler.java:43-55 | the MySQL test URL always names a server time zone and an SSL setting |
| DatasourceHandlers.NormalizeIdempotent | data-agent-management/src/main/java/com/alibaba/cloud/ai/dataagent/service/datasource/handler/impl/MysqlDatasourceTypeHandler.java:43-55 | normalizing an already normalized URL leaves it unchanged |
| HandlerRegistry.NormalizeType | data-agent-management/src/main/java/com/alibaba/cloud/ai/dataagent/service/datasource/handler/registry/DatasourceTypeHandlerRegistry.java:55-60 | "" for a null or blank type, otherwise the type trimmed and lower-cased |
| HandlerRegistry.NormalizeIgnoresCase | data-agent-management/src/main/java/com/alibaba/cloud/ai/dataagent/service/datasource/handler/registry/DatasourceTypeHandlerRegistry.java:55-60 | an upper-cased spelling of a type has the same key |
| HandlerRegistry.NormalizeIgnoresPadding | data-agent-management/src/main/java/com/alibaba/cloud/ai/dataagent/service/datasource/handler/registry/DatasourceTypeHandlerRegistry.java:55-60 | spaces around a type do not change its key |
| HandlerRegistry.Registered | data-agent-management/src/main/java/com/alibaba/cloud/ai/dataagent/service/datasource/handler/registry/DatasourceTypeHandlerRegistry.java:32-38 | after registering the handlers, the keys are exactly their normalized type names |
| HandlerRegistry.DatasourceTypeHandlerRegistry.constructor | data-agent-management/src/main/java/com/alibaba/cloud/ai/dataagent/service/datasource/handler/registry/DatasourceTypeHandlerRegistry.java:32-35 | the map is the handlers registered in order, a later one replacing an earlier one of the same key |
| HandlerRegistry.DatasourceTypeHandlerRegistry.Register | data-agent-management/src/main/java/com/alibaba/cloud/ai/dataagent/service/datasource/handler/registry/DatasourceTypeHandlerRegistry.java:36-38 | the handler is put under its normalized type name, replacing any handler there |
| HandlerRegistry.DatasourceTypeHandlerRegistry.GetRequired | data-agent-management/src/main/java/com/alibaba/cloud/ai/dataagent/service/datasource/handler/registry/DatasourceTypeHandlerRegistry.java:44-53 | succeeds exactly for a non-blank registered type, with the handler under its key; a blank type is an IllegalArgumentException, an unregistered one an IllegalStateException |
| HandlerRegistry.DatasourceTypeHandlerRegistry.RegisterThenGet | data-agent-management/src/main/java/com/alibaba/cloud/ai/dataagent/service/datasource/handler/registry/DatasourceTypeHandlerRegistry.java:36-53 | not a method of the source but a property of the class, stated over `register` (36-38) followed by `getRequired` (44-53): a handler just registered is found under any spelling of its type with text and the same key |
| HandlerRegistry.GetRequiredIgnoresCase | data-agent-management/src/main/java/com/alibaba/cloud/ai/dataagent/service/datasource/handler/registry/DatasourceTypeHandlerRegistry.java:40-60 | looking up an upper-cased type succeeds exactly when the type itself does, with the same handler |
| DifyKnowledge.GetOrDefault | data-agent-management/src/main/java/com/alibaba/cloud/ai/dataagent/service/dify/impl/DifyAgentKnowledgeServiceImpl.java:138-145 | a null key or a code without a translation gives the default (the raw code); a known code its label |
| DifyKnowledge.ConvertToDifyDatasetDto | data-agent-management/src/main/java/com/alibaba/cloud/ai/dataagent/service/dify/impl/DifyAgentKnowledgeServiceImpl.java:129-150 | identity fields copied; "high_quality" and "economy" become their labels and unknown codes pass through; an economy dataset's search method is "倒排索引"; with no retrieval method and no economy the search method is null |
| DifyKnowledge.DatasetPage | data-agent-management/src/main/java/com/alibaba/cloud/ai/dataagent/service/dify/impl/DifyAgentKnowledgeServiceImpl.java:59-66 | no response or no data lists nothing; otherwise every dataset converted, in order |
| DifyKnowledge.ConvertBindingToDatasetItem | data-agent-management/src/main/java/com/alibaba/cloud/ai/dataagent/service/dify/impl/DifyAgentKnowledgeServiceImpl.java:157-173 | the listing carries the stored indexing and search codes: the translations computed first are overwritten |
| DifyKnowledge.BindingKeepsEconomyCode | data-agent-management/src/main/java/com/alibaba/cloud/ai/dataagent/service/dify/impl/DifyAgentKnowledgeServiceImpl.java:147-171 | an economy binding lists its raw search code while an economy dataset from Dify lists "倒排索引" and the label "经济" |
| DifyKnowledge.ParseDeleteKey | data-agent-management/src/main/java/com/alibaba/cloud/ai/dataagent/service/dify/impl/DifyAgentKnowledgeServiceImpl.java:101-107 | split on ':' with trailing empty parts dropped; the result is a pair exactly when there are two parts and the first reads as an int; a bad first part is its NumberFormatException; a good first part alone is an ArrayIndexOutOfBoundsException |
| DifyKnowledge.ParseDeleteKeyRoundTrip | data-agent-management/src/main/java/com/alibaba/cloud/ai/dataagent/service/dify/impl/DifyAgentKnowledgeServiceImpl.java:101-107 | a key written as agentId, ':' and a non-empty dataset id without ':' reads back as that pair |
| DifyKnowledge.ParseDeleteKeyMissingDataset | data-agent-management/src/main/java/com/alibaba/cloud/ai/dataagent/service/dify/impl/DifyAgentKnowledgeServiceImpl.java:103-106 | a key such as "12:" loses its empty part and fails on the dataset id |
| DifyKnowledge.SelectByAgentIds | data-agent-management/src/main/java/com/alibaba/cloud/ai/dataagent/service/dify/impl/DifyAgentKnowledgeServiceImpl.java:116 | the selected bindings are exactly those whose agent is one of the requested ids |
| DifyKnowledge.ItemsOf | data-agent-management/src/main/java/com/alibaba/cloud/ai/dataagent/service/dify/impl/DifyAgentKnowledgeServiceImpl.java:120 | one agent's group holds exactly that agent's items |
| DifyKnowledge.GroupByAgent | data-agent-management/src/main/java/com/alibaba/cloud/ai/dataagent/service/dify/impl/DifyAgentKnowledgeServiceImpl.java:120 | one non-empty group per agent that occurs in the items, holding that agent's items in encounter order |
| DifyKnowledge.ConvertAll | data-agent-management/src/main/java/com/alibaba/cloud/ai/dataagent/service/dify/impl/DifyAgentKnowledgeServiceImpl.java:120 | every selected binding converted, in order |
| DifyKnowledge.DeleteBinding | data-agent-management/src/main/java/com/alibaba/cloud/ai/dataagent/service/dify/impl/DifyAgentKnowledgeServiceImpl.java:109 | the delete removes exactly the rows of that agent and dataset |
| DifyKnowledge.DifyAgentKnowledgeService.AddKnowledge | data-agent-management/src/main/java/com/alibaba/cloud/ai/dataagent/service/dify/impl/DifyAgentKnowledgeServiceImpl.java:76-97 | an existing binding answers true without inserting; otherwise one binding with the request's fields is appended and the answer is true; no agent is bound twice to one dataset |
| DifyKnowledge.DifyAgentKnowledgeService.DeleteKnowledge | data-agent-management/src/main/java/com/alibaba/cloud/ai/dataagent/service/dify/impl/DifyAgentKnowledgeServiceImpl.java:101-112 | a bad key's exception propagates with nothing deleted; otherwise the one binding is removed and the answer says whether a row went |
| DifyKnowledge.DifyAgentKnowledgeService.GetByAgent | data-agent-management/src/main/java/com/alibaba/cloud/ai/dataagent/service/dify/impl/DifyAgentKnowledgeServiceImpl.java:115-122 | one group per requested agent that has a binding, holding its converted bindings in table order; no bindings give no groups |
| DifyKnowledge.SelectedAgents | data-agent-management/src/main/java/com/alibaba/cloud/ai/dataagent/service/dify/impl/DifyAgentKnowledgeServiceImpl.java:116-120 | the agents of the converted selection are exactly the requested agents that have a binding |
| DifyKnowledge.DeleteKeepsNoDuplicate | data-agent-management/src/main/java/com/alibaba/cloud/ai/dataagent/service/dify/impl/DifyAgentKnowledgeServiceImpl.java:109 | deleting keeps the table free of duplicate bindings |
| JsonParse.StripThink | data-agent-management/src/main/java/com/alibaba/cloud/ai/dataagent/util/JsonParseUtil.java:161-180 | the trimmed text after the last "</think>", or the whole text trimmed when there is no tag; the empty text stays empty |
| JsonParse.RemoveThinkTags | data-agent-management/src/main/java/com/alibaba/cloud/ai/dataagent/util/JsonParseUtil.java:156-159 | null comes back null and the empty text unchanged; any other text is stripped |
| JsonParse.OccursShift | data-agent-management/src/main/java/com/alibaba/cloud/ai/dataagent/util/JsonParseUtil.java:162 | an occurrence of the tag in the tail of a text is an occurrence in the whole |
| JsonParse.OccursUnshift | data-agent-management/src/main/java/com/alibaba/cloud/ai/dataagent/util/JsonParseUtil.java:162 | an occurrence past the head of a text is an occurrence in the tail |
| JsonParse.SliceContains | data-agent-management/src/main/java/com/alibaba/cloud/ai/dataagent/util/JsonParseUtil.java:171 | a tag found in a substring is found in the whole |
| JsonParse.TrimContains | data-agent-management/src/main/java/com/alibaba/cloud/ai/dataagent/util/JsonParseUtil.java:171 | trimming cannot create a tag |
| JsonParse.AfterLastFree | data-agent-management/src/main/java/com/alibaba/cloud/ai/dataagent/util/JsonParseUtil.java:162-171 | what follows the last tag holds no further tag |
| JsonParse.StripThinkTagFree | data-agent-management/src/main/java/com/alibaba/cloud/ai/dataagent/util/JsonParseUtil.java:156-181 | the stripped text never holds a "</think>" tag |
| JsonParse.StripThinkIdempotent | data-agent-management/src/main/java/com/alibaba/cloud/ai/dataagent/util/JsonParseUtil.java:156-181 | stripping twice is stripping once |
| JsonParse.TagOverlapFree | data-agent-management/src/main/java/com/alibaba/cloud/ai/dataagent/util/JsonParseUtil.java:162 | no occurrence of the tag starts inside another occurrence |
| JsonParse.StripThinkAnswer | data-agent-management/src/main/java/com/alibaba/cloud/ai/dataagent/util/JsonParseUtil.java:153-176 | a reasoning part closed by "</think>" and followed by an answer without the tag strips to the trimmed answer |
| JsonParse.CallLlmToFix | data-agent-management/src/main/java/com/alibaba/cloud/ai/dataagent/util/JsonParseUtil.java:117-151 | a null answer or a failed call gives the text back; otherwise exactly the answer stripped of think tags and taken out of its code block whenever that extraction is non-null, and the text when it is null |
| JsonParse.Candidate | data-agent-management/src/main/java/com/alibaba/cloud/ai/dataagent/util/JsonParseUtil.java:74-90 | the first text parsed is the stripped input; each later one is a repair of the one before |
| JsonParse.Repair | data-agent-management/src/main/java/com/alibaba/cloud/ai/dataagent/util/JsonParseUtil.java:87-88 | each repair passes the kept parse error, or "Unknown error" when none was kept |
| JsonParse.FailsBeforeStep | data-agent-management/src/main/java/com/alibaba/cloud/ai/dataagent/util/JsonParseUtil.java:85-100 | one more failed parse extends the run of failures |
| JsonParse.TryConvertToObjectInternal | data-agent-management/src/main/java/com/alibaba/cloud/ai/dataagent/util/JsonParseUtil.java:72-105 | at most three model calls; every earlier candidate failed to parse; the object is the first candidate that parses; after three failed repairs, IllegalArgumentException "Failed to parse JSON after 3 LLM fix attempts" |
| JsonParse.TryConvertToObject | data-agent-management/src/main/java/com/alibaba/cloud/ai/dataagent/util/JsonParseUtil.java:46-64 | a null or blank input is refused with "Input JSON string cannot be null or empty" before any parse or model call; otherwise the internal loop's outcome |
| JsonParse.ParsedInputNeedsNoRepair | data-agent-management/src/main/java/com/alibaba/cloud/ai/dataagent/util/JsonParseUtil.java:74-80 | text that parses once its think part is stripped is returned without asking the model |
| JsonStrings.EncodeList | data-agent-management/src/main/java/com/alibaba/cloud/ai/dataagent/service/schema/TableMetadataService.java:147 | the samples are written as a JSON array text, opening with "[" and closing with "]" |
| JsonStrings.EscapeStringRoundTrip | data-agent-management/src/main/java/com/alibaba/cloud/ai/dataagent/service/schema/TableMetadataService.java:147 | reading an escaped string up to its closing quote gives the string back and leaves the text after the quote |
| JsonStrings.ItemsRoundTrip | data-agent-management/src/main/java/com/alibaba/cloud/ai/dataagent/service/schema/TableMetadataService.java:147 | reading the written items up to the closing bracket gives the list back, whatever follows |
| JsonStrings.DecodeEncode | data-agent-management/src/main/java/com/alibaba/cloud/ai/dataagent/service/schema/SchemaServiceImpl.java:420 | reading back the written samples text as a list of strings gives the same list |
| JdbcResults.DataRows | data-agent-management/src/main/java/com/alibaba/cloud/ai/dataagent/connector/impls/dameng/DamengJdbcDdl.java:76-86 | nothing for a result of at most the header row; otherwise exactly the non-empty rows after the header |
| JdbcResults.ConvertSpec | data-agent-management/src/main/java/com/alibaba/cloud/ai/dataagent/connector/impls/dameng/DamengJdbcDdl.java:76-91 | the conversion succeeds exactly when every data row has the cells read, and then gives one value per data row in row order; its only failure is an index out of bounds |
| JdbcResults.HeaderOnly | data-agent-management/src/main/java/com/alibaba/cloud/ai/dataagent/connector/impls/dameng/DamengJdbcDdl.java:77-79 | a result of at most the header row lists nothing |
| JdbcResults.ConvertRows | data-agent-management/src/main/java/com/alibaba/cloud/ai/dataagent/connector/impls/dameng/DamengJdbcDdl.java:80-86 | the loop over the rows after the header skips empty rows and converts the others in order, stopping with an index-out-of-bounds error at the first row shorter than the width |
| JdbcResults.ReadRows | data-agent-management/src/main/java/com/alibaba/cloud/ai/dataagent/connector/impls/dameng/DamengJdbcDdl.java:74-91 | the row loop (from row 1, empty rows skipped) gives the conversion of the result; a query's SQLException is rethrown as RuntimeException |
| JdbcResults.Rethrown | data-agent-management/src/main/java/com/alibaba/cloud/ai/dataagent/connector/impls/dameng/DamengJdbcDdl.java:88-90 | an SQLException becomes a RuntimeException around it; any other exception passes unchanged |
| JdbcResults.Rethrow | data-agent-management/src/main/java/com/alibaba/cloud/ai/dataagent/connector/impls/dameng/DamengJdbcDdl.java:211-217 | a query's result passes unchanged, and only its exception is rethrown |
| JdbcResults.QuotedNames | data-agent-management/src/main/java/com/alibaba/cloud/ai/dataagent/connector/impls/dameng/DamengJdbcDdl.java:99 | each table name in single quotes, in order |
| JdbcResults.QuotedListRoundTrip | data-agent-management/src/main/java/com/alibaba/cloud/ai/dataagent/connector/impls/dameng/DamengJdbcDdl.java:99-100 | when no name holds a comma, the IN list splits on commas back into the names, in order, once the quotes are removed |
| JdbcResults.SampleValues | data-agent-management/src/main/java/com/alibaba/cloud/ai/dataagent/connector/impls/dameng/DamengJdbcDdl.java:192-197 | the first cells of the data rows, except those equal to the column name ignoring case |
| JdbcResults.SampleColumn | data-agent-management/src/main/java/com/alibaba/cloud/ai/dataagent/connector/impls/dameng/DamengJdbcDdl.java:183-205 | a query failing with an SQLException gives no samples and any other exception propagates; otherwise each collected value exactly once, in no fixed order |
| MultiTurnContext.RenderAll | data-agent-management/src/main/java/com/alibaba/cloud/ai/dataagent/service/graph/Context/MultiTurnContextManager.java:143-144 | each stored turn rendered as "用户: question" and "AI计划: plan" on two lines, in history order |
| MultiTurnContext.ContextSnoc | data-agent-management/src/main/java/com/alibaba/cloud/ai/dataagent/service/graph/Context/MultiTurnContextManager.java:143-145 | a turn added to a non-empty history appears as one more line-separated entry at the end of the context |
| MultiTurnContext.ContextSingle | data-agent-management/src/main/java/com/alibaba/cloud/ai/dataagent/service/graph/Context/MultiTurnContextManager.java:143-145 | the context of one turn is that turn's text alone |
| MultiTurnContext.EvictedSpec | data-agent-management/src/main/java/com/alibaba/cloud/ai/dataagent/service/graph/Context/MultiTurnContextManager.java:95-97 | eviction keeps the newest turns in order and leaves the deque with room for exactly one more turn |
| MultiTurnContext.PollOldest | data-agent-management/src/main/java/com/alibaba/cloud/ai/dataagent/service/graph/Context/MultiTurnContextManager.java:94-97 | the pollFirst loop gives the evicted deque |
| MultiTurnContext.MultiTurnContextManager.constructor | data-agent-management/src/main/java/com/alibaba/cloud/ai/dataagent/service/graph/Context/MultiTurnContextManager.java:38-45 | no history and no pending turn |
| MultiTurnContext.MultiTurnContextManager.Turns | data-agent-management/src/main/java/com/alibaba/cloud/ai/dataagent/service/graph/Context/MultiTurnContextManager.java:139 | a thread without history has no turns |
| MultiTurnContext.MultiTurnContextManager.BeginTurn | data-agent-management/src/main/java/com/alibaba/cloud/ai/dataagent/service/graph/Context/MultiTurnContextManager.java:52-58 | a blank thread id or question changes nothing; otherwise the trimmed question becomes the thread's pending turn with an empty plan; the history is untouched |
| MultiTurnContext.MultiTurnContextManager.AppendPlannerChunk | data-agent-management/src/main/java/com/alibaba/cloud/ai/dataagent/service/graph/Context/MultiTurnContextManager.java:65-74 | a blank thread id or chunk, or no pending turn, changes nothing; otherwise the chunk is appended to the pending plan |
| MultiTurnContext.MultiTurnContextManager.FinishTurn | data-agent-management/src/main/java/com/alibaba/cloud/ai/dataagent/service/graph/Context/MultiTurnContextManager.java:80-100 | the pending turn is always removed; no pending turn or a blank plan leaves the history alone; otherwise the trimmed plan abbreviated to maxPlanLength is added after the oldest turns make room, so no thread ever holds more than maxTurnHistory turns |
| MultiTurnContext.MultiTurnContextManager.DiscardPending | data-agent-management/src/main/java/com/alibaba/cloud/ai/dataagent/service/graph/Context/MultiTurnContextManager.java:107-110 | the pending turn is dropped and the history is untouched |
| MultiTurnContext.MultiTurnContextManager.RestartLastTurn | data-agent-management/src/main/java/com/alibaba/cloud/ai/dataagent/service/graph/Context/MultiTurnContextManager.java:117-130 | the newest stored turn is removed and its question becomes pending again; with no stored turn nothing changes |
| MultiTurnContext.MultiTurnContextManager.BuildContext | data-agent-management/src/main/java/com/alibaba/cloud/ai/dataagent/service/graph/Context/MultiTurnContextManager.java:137-146 | "(无)" for no history; one turn gives that turn's text |
| MultiTurnContext.ContextSingleOf | data-agent-management/src/main/java/com/alibaba/cloud/ai/dataagent/service/graph/Context/MultiTurnContextManager.java:143-145 | a history of exactly one turn renders as that turn's text |
| JavaText.Abbreviate | data-agent-management/src/main/java/com/alibaba/cloud/ai/dataagent/service/graph/Context/MultiTurnContextManager.java:92 | StringUtils.abbreviate: an empty text is kept; a width below 4 is an IllegalArgumentException; the result is never longer than the text or the width; a text within the width is kept; a longer one is its first width - 3 characters and "..." |
| JavaText.HashCode | data-agent-management/src/main/java/com/alibaba/cloud/ai/dataagent/connector/pool/AbstractDBConnectionPool.java:145 | String.hashCode read as a signed 32-bit int |
| JavaText.Split | data-agent-management/src/main/java/com/alibaba/cloud/ai/dataagent/service/datasource/handler/impl/PostgreSqlDatasourceTypeHandler.java:51 | String.split on one literal character: the text itself when the character does not occur; otherwise the pieces between occurrences with the trailing empty ones removed; no piece holds the character |
| JavaText.SplitOfJoin | data-agent-management/src/main/java/com/alibaba/cloud/ai/dataagent/service/dify/impl/DifyAgentKnowledgeServiceImpl.java:103 | splitting a join of parts that hold no separator, the last one not empty, gives the parts back |
| JavaText.ParseInt | data-agent-management/src/main/java/com/alibaba/cloud/ai/dataagent/service/dify/impl/DifyAgentKnowledgeServiceImpl.java:104 | Integer.parseInt: a result is a 32-bit int; the empty text is a NumberFormatException |
| JavaText.ParseIntRoundTrip | data-agent-management/src/main/java/com/alibaba/cloud/ai/dataagent/service/dify/impl/DifyAgentKnowledgeServiceImpl.java:104 | parsing the decimal text of a 32-bit int gives it back |
| ParagraphSplitter.ByCharsSlices | data-agent-management/src/main/java/com/alibaba/cloud/ai/dataagent/splitter/ParagraphTextSplitter.java:235-244 | the fixed-size pieces are exactly the consecutive slices of the text, each trimmed |
| ParagraphSplitter.ByCharsFit | data-agent-management/src/main/java/com/alibaba/cloud/ai/dataagent/splitter/ParagraphTextSplitter.java:235-244 | no fixed-size piece is longer than a chunk and each is already trimmed |
| ParagraphSplitter.SplitByChars | data-agent-management/src/main/java/com/alibaba/cloud/ai/dataagent/splitter/ParagraphTextSplitter.java:235-244 | the loop's pieces are the consecutive slices of at most chunkSize characters, trimmed |
| ParagraphSplitter.OverlapTail | data-agent-management/src/main/java/com/alibaba/cloud/ai/dataagent/splitter/ParagraphTextSplitter.java:158-173 | the overlap is the text after the first blank line of the raw tail when text follows it, otherwise the trimmed raw tail |
| ParagraphSplitter.ExtractOverlap | data-agent-management/src/main/java/com/alibaba/cloud/ai/dataagent/splitter/ParagraphTextSplitter.java:147-174 | no overlap when overlaps are off or the chunk is empty; a chunk within the overlap width is kept whole; the overlap is never longer than the chunk or the overlap width |
| ParagraphSplitter.SkipWhile | data-agent-management/src/main/java/com/alibaba/cloud/ai/dataagent/splitter/ParagraphTextSplitter.java:49 | the run of terminator (or non-terminator) characters of the sentence pattern from a position ends at the first character of the other kind |
| ParagraphSplitter.MatchEnd | data-agent-management/src/main/java/com/alibaba/cloud/ai/dataagent/splitter/ParagraphTextSplitter.java:49 | a match of the sentence pattern is non-empty and is followed by a non-terminator or the end of the text |
| ParagraphSplitter.MatchesEnd | data-agent-management/src/main/java/com/alibaba/cloud/ai/dataagent/splitter/ParagraphTextSplitter.java:186-190 | the end of the last match lies between the start and the end of the text |
| ParagraphSplitter.MatchesEndSpec | data-agent-management/src/main/java/com/alibaba/cloud/ai/dataagent/splitter/ParagraphTextSplitter.java:186-208 | after at least one match the last match ends at the end of the paragraph; no match happens only for a text of terminators; every match is non-empty |
| ParagraphSplitter.SubChunksSpec | data-agent-management/src/main/java/com/alibaba/cloud/ai/dataagent/splitter/ParagraphTextSplitter.java:179-233 | every sub-chunk of a large paragraph is at most chunkSize long and trimmed |
| ParagraphSplitter.GroupSentence | data-agent-management/src/main/java/com/alibaba/cloud/ai/dataagent/splitter/ParagraphTextSplitter.java:189-205 | one sentence: a long one closes the group and is cut by characters; another closes the group when it would overflow and then joins it |
| ParagraphSplitter.SplitLargeParagraph | data-agent-management/src/main/java/com/alibaba/cloud/ai/dataagent/splitter/ParagraphTextSplitter.java:179-233 | the loop's sub-chunks are the grouping of the pattern's matches and the non-blank remainder |
| ParagraphSplitter.SplitTextTrimmed | data-agent-management/src/main/java/com/alibaba/cloud/ai/dataagent/splitter/ParagraphTextSplitter.java:52-142 | a blank text gives no chunk and every chunk is trimmed |
| ParagraphSplitter.SplitTextFits | data-agent-management/src/main/java/com/alibaba/cloud/ai/dataagent/splitter/ParagraphTextSplitter.java:52-142 | with overlaps off no chunk is longer than chunkSize |
| ParagraphSplitter.AddSubFits | data-agent-management/src/main/java/com/alibaba/cloud/ai/dataagent/splitter/ParagraphTextSplitter.java:86-110 | the chunk emitted for a sub-chunk fits whatever the overlap, because the overlap is dropped when it would not |
| ParagraphSplitter.EmitSub | data-agent-management/src/main/java/com/alibaba/cloud/ai/dataagent/splitter/ParagraphTextSplitter.java:86-110 | one sub-chunk: overlap dropped on overflow, appended after a blank line, emitted trimmed, overlap extracted |
| ParagraphSplitter.EmitSubs | data-agent-management/src/main/java/com/alibaba/cloud/ai/dataagent/splitter/ParagraphTextSplitter.java:86-110 | the sub-chunk loop equals folding the sub-chunk step over them |
| ParagraphSplitter.SplitParagraph | data-agent-management/src/main/java/com/alibaba/cloud/ai/dataagent/splitter/ParagraphTextSplitter.java:64-133 | one paragraph: blank skipped, large ones flush then go through their sub-chunks, others flush on overflow and accumulate |
| ParagraphSplitter.SplitText | data-agent-management/src/main/java/com/alibaba/cloud/ai/dataagent/splitter/ParagraphTextSplitter.java:52-142 | splitText's loop equals the paragraph fold from an empty chunk, with the last chunk flushed, and nothing for blank text |
| SentenceSplitter.Build | data-agent-management/src/main/java/com/alibaba/cloud/ai/dataagent/splitter/SentenceSplitter.java:55-58 | a chunk size of 0 or less falls back to 1000, a negative overlap to 1; other settings are kept |
| SentenceSplitter.Backtrack | data-agent-management/src/main/java/com/alibaba/cloud/ai/dataagent/splitter/SentenceSplitter.java:251-253 | the cut moves back past letters and digits and stops at minEnd or on a character that is neither |
| SentenceSplitter.CutEnd | data-agent-management/src/main/java/com/alibaba/cloud/ai/dataagent/splitter/SentenceSplitter.java:243-259 | a part ends after its start and at most chunkSize characters on; a cut inside a word moves back to a word boundary when one is in reach |
| SentenceSplitter.LongPartsSpec | data-agent-management/src/main/java/com/alibaba/cloud/ai/dataagent/splitter/SentenceSplitter.java:237-267 | the parts of a long sentence give it back in order and each holds between 1 and chunkSize characters |
| SentenceSplitter.BackOff | data-agent-management/src/main/java/com/alibaba/cloud/ai/dataagent/splitter/SentenceSplitter.java:247-253 | the backtracking loop ends where Backtrack says |
| SentenceSplitter.SplitLongSentence | data-agent-management/src/main/java/com/alibaba/cloud/ai/dataagent/splitter/SentenceSplitter.java:237-267 | the cutting loop yields exactly the parts LongParts defines |
| SentenceSplitter.Overlap | data-agent-management/src/main/java/com/alibaba/cloud/ai/dataagent/splitter/SentenceSplitter.java:190-200 | handleOverlap keeps the last sentenceOverlap sentences when the chunk holds more, else none |
| SentenceSplitter.ChunksSpec | data-agent-management/src/main/java/com/alibaba/cloud/ai/dataagent/splitter/SentenceSplitter.java:105-158 | no chunk is empty, and a piece is in some chunk exactly when it is one of the pieces the sentences were cut into |
| SentenceSplitter.JoinChunkSpec | data-agent-management/src/main/java/com/alibaba/cloud/ai/dataagent/splitter/SentenceSplitter.java:163-175 | Latin sentences are joined by single blanks and Chinese ones run together |
| SentenceSplitter.ChunkText | data-agent-management/src/main/java/com/alibaba/cloud/ai/dataagent/splitter/SentenceSplitter.java:164-173 | flushChunk's text loop computes JoinChunk |
| SentenceSplitter.ChunkDoc | data-agent-management/src/main/java/com/alibaba/cloud/ai/dataagent/splitter/SentenceSplitter.java:175-184 | a chunk document has the text, keeps every original metadata key, and carries chunk_index, chunk_size equal to its text length and splitter_type sentence |
| SentenceSplitter.SplitSpecIndexed | data-agent-management/src/main/java/com/alibaba/cloud/ai/dataagent/splitter/SentenceSplitter.java:105-158 | a document without sentences comes back unchanged; otherwise chunk k carries chunk_index k and its text length as chunk_size |
| SentenceSplitter.FlushChunk | data-agent-management/src/main/java/com/alibaba/cloud/ai/dataagent/splitter/SentenceSplitter.java:163-185 | flushChunk appends one document with the next index |
| SentenceSplitter.AddPiece | data-agent-management/src/main/java/com/alibaba/cloud/ai/dataagent/splitter/SentenceSplitter.java:128-149 | one piece: flush with overlap when it would overflow a non-empty chunk, then add it, keeping the running size equal to the summed lengths |
| SentenceSplitter.AddLongSentence | data-agent-management/src/main/java/com/alibaba/cloud/ai/dataagent/splitter/SentenceSplitter.java:118-139 | a long sentence flushes without overlap and then packs its parts |
| SentenceSplitter.SplitDocument | data-agent-management/src/main/java/com/alibaba/cloud/ai/dataagent/splitter/SentenceSplitter.java:105-158 | splitDocument's loops produce the documents of the chunk lists SplitSpec defines |
| SentenceSplitter.RestSentencesSpec | data-agent-management/src/main/java/com/alibaba/cloud/ai/dataagent/splitter/SentenceSplitter.java:219-230 | the remainder's parts are non-empty and rebuild the trimmed remainder; a blank remainder gives none |
| SentenceSplitter.KeptSentences | data-agent-management/src/main/java/com/alibaba/cloud/ai/dataagent/splitter/SentenceSplitter.java:211-217 | every kept sentence has text and is trimmed |
| SentenceSplitter.ExtractedSpec | data-agent-management/src/main/java/com/alibaba/cloud/ai/dataagent/splitter/SentenceSplitter.java:206-232 | every extracted sentence is non-empty; a blank remainder adds nothing |
| SentenceSplitter.ExtractSentences | data-agent-management/src/main/java/com/alibaba/cloud/ai/dataagent/splitter/SentenceSplitter.java:206-232 | extractSentences' loop computes Extracted |
| SentenceSplitter.AppliedSpec | data-agent-management/src/main/java/com/alibaba/cloud/ai/dataagent/splitter/SentenceSplitter.java:92-103 | every document apply returns has text |
| SentenceSplitter.AppliedWithoutText | data-agent-management/src/main/java/com/alibaba/cloud/ai/dataagent/splitter/SentenceSplitter.java:92-103 | documents without text contribute nothing |
| SentenceSplitter.Apply | data-agent-management/src/main/java/com/alibaba/cloud/ai/dataagent/splitter/SentenceSplitter.java:92-103 | apply's loop splits the documents with text in order and concatenates the results |
| PresetQuestions.WithDefaults | data-agent-management/src/main/java/com/alibaba/cloud/ai/dataagent/service/agent/AgentPresetQuestionServiceImpl.java:45-53 | a missing sort order becomes 0 and a missing active flag true; everything else is kept |
| PresetQuestions.UpdatedRow | data-agent-management/src/main/java/com/alibaba/cloud/ai/dataagent/mapper/AgentPresetQuestionMapper.java:55-67 | the non-null question, sort order and flag replace the stored ones; id and agent are kept |
| PresetQuestions.UpdateWhereId | data-agent-management/src/main/java/com/alibaba/cloud/ai/dataagent/mapper/AgentPresetQuestionMapper.java:55-67 | exactly the rows with the request's id are updated, the others kept, the table length unchanged |
| PresetQuestions.DeleteByAgent | data-agent-management/src/main/java/com/alibaba/cloud/ai/dataagent/mapper/AgentPresetQuestionMapper.java:74-77 | a row survives exactly when it belongs to another agent |
| PresetQuestions.RowsOfAgent | data-agent-management/src/main/java/com/alibaba/cloud/ai/dataagent/mapper/AgentPresetQuestionMapper.java:33-38 | a row is selected exactly when it belongs to the agent |
| PresetQuestions.BatchRow | data-agent-management/src/main/java/com/alibaba/cloud/ai/dataagent/service/agent/AgentPresetQuestionServiceImpl.java:80-87 | the k-th saved question is stored for the agent at sort order k, active unless said otherwise |
| PresetQuestions.BatchRows | data-agent-management/src/main/java/com/alibaba/cloud/ai/dataagent/service/agent/AgentPresetQuestionServiceImpl.java:80-88 | the appended rows are the batch rows of the list, in list order, under consecutive keys |
| PresetQuestions.RowsOfAgentAppend | data-agent-management/src/main/java/com/alibaba/cloud/ai/dataagent/mapper/AgentPresetQuestionMapper.java:33-38 | selecting an agent's rows distributes over a concatenated table |
| PresetQuestions.BatchSaveReplacesList | data-agent-management/src/main/java/com/alibaba/cloud/ai/dataagent/service/agent/AgentPresetQuestionServiceImpl.java:75-89 | after batchSave the agent's questions are exactly the saved list in order, the k-th at sort order k |
| PresetQuestions.DeleteLeavesNone | data-agent-management/src/main/java/com/alibaba/cloud/ai/dataagent/service/agent/AgentPresetQuestionServiceImpl.java:70-72 | after deleteByAgentId no row of the agent is left |
| PresetQuestions.BatchSaveKeepsOthers | data-agent-management/src/main/java/com/alibaba/cloud/ai/dataagent/service/agent/AgentPresetQuestionServiceImpl.java:75-89 | batchSave leaves every other agent's questions as they were |
| PresetQuestions.DeleteKeepsOthers | data-agent-management/src/main/java/com/alibaba/cloud/ai/dataagent/service/agent/AgentPresetQuestionServiceImpl.java:70-72 | deleting one agent's questions leaves every other agent's as they were |
| PresetQuestions.PresetQuestionService.constructor | data-agent-management/src/main/java/com/alibaba/cloud/ai/dataagent/service/agent/AgentPresetQuestionServiceImpl.java:30-33 | the table starts empty with the first generated key 1 |
| PresetQuestions.PresetQuestionService.Create | data-agent-management/src/main/java/com/alibaba/cloud/ai/dataagent/service/agent/AgentPresetQuestionServiceImpl.java:45-56 | the question with its defaults and a fresh key is appended and returned |
| PresetQuestions.PresetQuestionService.Update | data-agent-management/src/main/java/com/alibaba/cloud/ai/dataagent/service/agent/AgentPresetQuestionServiceImpl.java:59-62 | the request is aimed at the given id and only that row's non-null fields change |
| PresetQuestions.PresetQuestionService.DeleteByAgentId | data-agent-management/src/main/java/com/alibaba/cloud/ai/dataagent/service/agent/AgentPresetQuestionServiceImpl.java:70-72 | the agent's rows are removed and nothing else |
| PresetQuestions.PresetQuestionService.BatchSave | data-agent-management/src/main/java/com/alibaba/cloud/ai/dataagent/service/agent/AgentPresetQuestionServiceImpl.java:75-89 | the agent's rows are replaced by the list's batch rows appended after the other agents' rows |
| PromptHelper.DefaultWhenBlank | data-agent-management/src/main/java/com/alibaba/cloud/ai/dataagent/prompt/PromptHelper.java:49-52 | a blank or missing text becomes the "无" placeholder, any other is kept, so the value always has text |
| PromptHelper.MixSelectorParams | data-agent-management/src/main/java/com/alibaba/cloud/ai/dataagent/prompt/PromptHelper.java:44-53 | the mix-selector parameters are exactly schema_info (the schema rendered with column types), question and evidence, and evidence is never blank |
| PromptHelper.NonEmptyValues | data-agent-management/src/main/java/com/alibaba/cloud/ai/dataagent/prompt/PromptHelper.java:96-100 | the filtered sample values are exactly the non-empty ones, so the list is empty exactly when every value is empty |
| PromptHelper.Examples | data-agent-management/src/main/java/com/alibaba/cloud/ai/dataagent/prompt/PromptHelper.java:96-103 | at most three examples, each a non-empty sample value; none exactly when there is no non-empty sample |
| PromptHelper.TypePart | data-agent-management/src/main/java/com/alibaba/cloud/ai/dataagent/prompt/PromptHelper.java:87-88 | with column types, a colon and the upper-cased type (empty for a null type); nothing otherwise |
| PromptHelper.DescriptionPart | data-agent-management/src/main/java/com/alibaba/cloud/ai/dataagent/prompt/PromptHelper.java:89-91 | the description is shown exactly when it differs from the name, null-safely |
| PromptHelper.PrimaryKeyPart | data-agent-management/src/main/java/com/alibaba/cloud/ai/dataagent/prompt/PromptHelper.java:92-95 | the primary-key mark appears exactly when the table lists the column's name as a key |
| PromptHelper.ExamplesPart | data-agent-management/src/main/java/com/alibaba/cloud/ai/dataagent/prompt/PromptHelper.java:101-105 | the examples list is left out exactly for a column named id or one without non-empty samples; otherwise it joins them with commas in brackets |
| PromptHelper.ColumnLine | data-agent-management/src/main/java/com/alibaba/cloud/ai/dataagent/prompt/PromptHelper.java:84-107 | a column line opens with a parenthesis and the column name and closes with a parenthesis |
| PromptHelper.TableHeader | data-agent-management/src/main/java/com/alibaba/cloud/ai/dataagent/prompt/PromptHelper.java:73-80 | the header shows the table name, and the description after a comma only when it differs from the name and is not blank |
| PromptHelper.ColumnLines | data-agent-management/src/main/java/com/alibaba/cloud/ai/dataagent/prompt/PromptHelper.java:82-109 | one line per column, in column order |
| PromptHelper.BuildTablePrompt | data-agent-management/src/main/java/com/alibaba/cloud/ai/dataagent/prompt/PromptHelper.java:68-113 | the loop builds the header, then the column lines joined by comma-newline between the brackets |
| PromptHelper.TablePromptShape | data-agent-management/src/main/java/com/alibaba/cloud/ai/dataagent/prompt/PromptHelper.java:68-113 | the table prompt opens with the table name, ends with the closing bracket and holds every column's line |
| PromptHelper.ForeignKeySection | data-agent-management/src/main/java/com/alibaba/cloud/ai/dataagent/prompt/PromptHelper.java:62-64 | the foreign-key section is present exactly when there are foreign keys, one per line |
| PromptHelper.TableBlocks | data-agent-management/src/main/java/com/alibaba/cloud/ai/dataagent/prompt/PromptHelper.java:59-61 | one block per table, each the table prompt and a line feed |
| PromptHelper.BuildDbPrompt | data-agent-management/src/main/java/com/alibaba/cloud/ai/dataagent/prompt/PromptHelper.java:56-66 | the loop builds the DB line, every table block and the foreign-key section |
| PromptHelper.DbPromptShape | data-agent-management/src/main/java/com/alibaba/cloud/ai/dataagent/prompt/PromptHelper.java:56-66 | the schema prompt opens with the DB line and the schema name (empty for null), holds the prompt of every table, and ends with the foreign keys when there are any |
| PromptHelper.RenderOptimizationPrompt | data-agent-management/src/main/java/com/alibaba/cloud/ai/dataagent/prompt/PromptHelper.java:314-325 | a missing or blank prompt renders as empty; otherwise the rendered template, or the raw prompt when rendering fails |
| PromptHelper.OptimizationItem | data-agent-management/src/main/java/com/alibaba/cloud/ai/dataagent/prompt/PromptHelper.java:220-223 | a configuration contributes a list item exactly when its rendered content is not blank |
| PromptHelper.OptimizationItems | data-agent-management/src/main/java/com/alibaba/cloud/ai/dataagent/prompt/PromptHelper.java:219-224 | one item per configuration, in order |
| PromptHelper.BuildOptimizationSection | data-agent-management/src/main/java/com/alibaba/cloud/ai/dataagent/prompt/PromptHelper.java:209-227 | no configurations give an empty section; otherwise the heading and the non-blank items, trimmed |
| PromptHelper.BlankItemSkipped | data-agent-management/src/main/java/com/alibaba/cloud/ai/dataagent/prompt/PromptHelper.java:221-223 | a configuration whose rendered content is blank adds nothing to the section |
| PromptHelper.AllBlankGivesHeading | data-agent-management/src/main/java/com/alibaba/cloud/ai/dataagent/prompt/PromptHelper.java:212-226 | when every configuration renders blank the section is the bare heading |
| ReportHtml.ReplaceChar | data-agent-frontend/src/components/run/charts/report-html-template.ts:24-27 | a global one-character replace leaves a text without the character unchanged and, when the replacement lacks it, leaves none behind |
| ReportHtml.EscapeChar | data-agent-frontend/src/components/run/charts/report-html-template.ts:22-28 | each character's entity holds no raw markup character, and only the four special characters are changed |
| ReportHtml.EscapeEach | data-agent-frontend/src/components/run/charts/report-html-template.ts:22-28 | a single-pass escape holds no raw angle bracket or double quote |
| ReportHtml.EscapeAppend | data-agent-frontend/src/components/run/charts/report-html-template.ts:22-28 | the chained replaces escape a concatenation piecewise |
| ReportHtml.ChainIsSinglePass | data-agent-frontend/src/components/run/charts/report-html-template.ts:22-28 | because the ampersand is replaced first, the chain equals a single-pass escape: no entity is escaped twice |
| ReportHtml.NoRawMarkup | data-agent-frontend/src/components/run/charts/report-html-template.ts:22-28 | the escaped text holds no raw angle bracket or double quote |
| ReportHtml.AmpersandFirstMatters | data-agent-frontend/src/components/run/charts/report-html-template.ts:24-25 | an example: replacing the angle bracket before the ampersand would double-escape its entity |
| ReportHtml.UnescapeEscape | data-agent-frontend/src/components/run/charts/report-html-template.ts:21-28 | decoding the four entities recovers the escaped text exactly |
| ReportHtml.TextBeforeTag | data-agent-frontend/src/components/run/charts/report-html-template.ts:71 | the character data read is the longest prefix without an opening angle bracket |
| ReportHtml.ParsedTextPlain | data-agent-frontend/src/components/run/charts/report-html-template.ts:60 | a text without CR and NUL is kept by the HTML parser as it is |
| ReportHtml.NormalizeEscape | data-agent-frontend/src/components/run/charts/report-html-template.ts:21-28 | escaping commutes with the parser's newline preprocessing, since no entity holds CR or LF |
| ReportHtml.NormalizeLeavesNoCr | data-agent-frontend/src/components/run/charts/report-html-template.ts:60 | after the parser's newline preprocessing of the page no CR is left |
| ReportHtml.NormalizeWithoutCr | data-agent-frontend/src/components/run/charts/report-html-template.ts:60 | a text without CR passes the newline preprocessing unchanged |
| ReportHtml.DropNulKeeps | data-agent-frontend/src/components/run/charts/report-html-template.ts:60 | the NUL characters dropped from element text are the only ones lost: every other character is kept, and no NUL remains |
| ReportHtml.DropNulWithoutNul | data-agent-frontend/src/components/run/charts/report-html-template.ts:60 | a text without NUL is kept as it is |
| ReportHtml.ParsedText | data-agent-frontend/src/components/run/charts/report-html-template.ts:60 | what the parser keeps of the hidden element's character data holds neither CR nor NUL |
| ReportHtml.EmbedsEscapedContent | data-agent-frontend/src/components/run/charts/report-html-template.ts:31-60 | the page is the fixed head, the hidden element's start tag, the escaped Markdown and the element's own end tag: nothing in the Markdown can close it early |
| ReportHtml.RenderRoundTrip | data-agent-frontend/src/components/run/charts/report-html-template.ts:60-71 | reading the hidden element back yields the Markdown that was put in as the HTML parser keeps its text (CR and CR LF read as LF; NUL dropped): no character of it can end the element or turn into markup |
| ReportHtml.ReportRoundTrip | data-agent-frontend/src/components/run/charts/report-html-template.ts:30-98 | the report page built from a Markdown text reads back that text as the parser keeps it, and exactly that text when it holds no CR and no NUL |
| RrfFusion.Ranked | data-agent-management/src/main/java/com/alibaba/cloud/ai/dataagent/service/hybrid/fusion/impl/RrfFusionStrategy.java:51-54 | the i-th document of a list is ranked i + 1 |
| RrfFusion.EntriesAppend | data-agent-management/src/main/java/com/alibaba/cloud/ai/dataagent/service/hybrid/fusion/impl/RrfFusionStrategy.java:46-63 | the entries of consecutive lists are visited list after list |
| RrfFusion.Contribution | data-agent-management/src/main/java/com/alibaba/cloud/ai/dataagent/service/hybrid/fusion/impl/RrfFusionStrategy.java:59 | each place a document holds contributes a positive 1 / (60 + rank) |
| RrfFusion.IdsSpec | data-agent-management/src/main/java/com/alibaba/cloud/ai/dataagent/service/hybrid/fusion/impl/RrfFusionStrategy.java:56 | an id occurs exactly when some entry's document resolves to it |
| RrfFusion.First | data-agent-management/src/main/java/com/alibaba/cloud/ai/dataagent/service/hybrid/fusion/impl/RrfFusionStrategy.java:61 | the first document seen with an id resolves to that id |
| RrfFusion.ScoreMapSpec | data-agent-management/src/main/java/com/alibaba/cloud/ai/dataagent/service/hybrid/fusion/impl/RrfFusionStrategy.java:59 | rrfScores holds exactly the ids that occur, each with the sum of its contributions |
| RrfFusion.DocMapSpec | data-agent-management/src/main/java/com/alibaba/cloud/ai/dataagent/service/hybrid/fusion/impl/RrfFusionStrategy.java:61 | documentMap holds exactly the ids that occur, each with the first document seen with it |
| RrfFusion.OrderSpec | data-agent-management/src/main/java/com/alibaba/cloud/ai/dataagent/service/hybrid/fusion/impl/RrfFusionStrategy.java:42-61 | the insertion order lists every id that occurs, once |
| RrfFusion.Insert | data-agent-management/src/main/java/com/alibaba/cloud/ai/dataagent/service/hybrid/fusion/impl/RrfFusionStrategy.java:73 | inserting one id into the sorted list adds exactly that id |
| RrfFusion.SortDesc | data-agent-management/src/main/java/com/alibaba/cloud/ai/dataagent/service/hybrid/fusion/impl/RrfFusionStrategy.java:73 | the sorted ids are a permutation of the ids given |
| RrfFusion.SortDescSorted | data-agent-management/src/main/java/com/alibaba/cloud/ai/dataagent/service/hybrid/fusion/impl/RrfFusionStrategy.java:73 | the sorted ids are in non-increasing score order |
| RrfFusion.TopIds | data-agent-management/src/main/java/com/alibaba/cloud/ai/dataagent/service/hybrid/fusion/impl/RrfFusionStrategy.java:71-74 | every top id has a document |
| RrfFusion.Pick | data-agent-management/src/main/java/com/alibaba/cloud/ai/dataagent/service/hybrid/fusion/impl/RrfFusionStrategy.java:75 | each top id is mapped to its document, in order |
| RrfFusion.FuseFails | data-agent-management/src/main/java/com/alibaba/cloud/ai/dataagent/service/hybrid/fusion/impl/RrfFusionStrategy.java:80-87 | a document with a blank id and no text anywhere in the lists makes fusion fail with a null dereference |
| RrfFusion.FusedEmpty | data-agent-management/src/main/java/com/alibaba/cloud/ai/dataagent/service/hybrid/fusion/impl/RrfFusionStrategy.java:34-68 | no list, or only null and empty lists, gives the empty result |
| RrfFusion.FusedSpec | data-agent-management/src/main/java/com/alibaba/cloud/ai/dataagent/service/hybrid/fusion/impl/RrfFusionStrategy.java:33-78 | a successful fusion returns, for each top id in order, the first document seen with it |
| RrfFusion.TopIdsSpec | data-agent-management/src/main/java/com/alibaba/cloud/ai/dataagent/service/hybrid/fusion/impl/RrfFusionStrategy.java:71-74 | the top ids are min(topK, distinct ids) of the ids that occur, none twice |
| RrfFusion.TopIdsOrdered | data-agent-management/src/main/java/com/alibaba/cloud/ai/dataagent/service/hybrid/fusion/impl/RrfFusionStrategy.java:73 | the top ids are in non-increasing order of their summed score |
| RrfFusion.TopIdsBeatRest | data-agent-management/src/main/java/com/alibaba/cloud/ai/dataagent/service/hybrid/fusion/impl/RrfFusionStrategy.java:73-74 | an id left out is left out only because topK was reached, and scores no more than the last one kept |
| RrfFusion.SortedIds | data-agent-management/src/main/java/com/alibaba/cloud/ai/dataagent/service/hybrid/fusion/impl/RrfFusionStrategy.java:71-73 | the sorted ids are each id that occurs, once, highest score first |
| RrfFusion.ScoreAppend | data-agent-management/src/main/java/com/alibaba/cloud/ai/dataagent/service/hybrid/fusion/impl/RrfFusionStrategy.java:59 | the score over concatenated entries is the sum of the scores |
| RrfFusion.ScorePositive | data-agent-management/src/main/java/com/alibaba/cloud/ai/dataagent/service/hybrid/fusion/impl/RrfFusionStrategy.java:59 | every id that occurs has a positive score |
| RrfFusion.ScoreGrows | data-agent-management/src/main/java/com/alibaba/cloud/ai/dataagent/service/hybrid/fusion/impl/RrfFusionStrategy.java:46-62 | one more list holding a document strictly raises that document's score |
| RrfFusion.Accumulate | data-agent-management/src/main/java/com/alibaba/cloud/ai/dataagent/service/hybrid/fusion/impl/RrfFusionStrategy.java:56-61 | one document merged into rrfScores and put-if-absent into documentMap |
| RrfFusion.AccumulateAt | data-agent-management/src/main/java/com/alibaba/cloud/ai/dataagent/service/hybrid/fusion/impl/RrfFusionStrategy.java:51-62 | the i-th document is accumulated at rank i + 1 |
| RrfFusion.AccumulateList | data-agent-management/src/main/java/com/alibaba/cloud/ai/dataagent/service/hybrid/fusion/impl/RrfFusionStrategy.java:51-62 | the inner loop accumulates the whole list, or stops at a document it cannot resolve |
| RrfFusion.ScoreMapEmpty | data-agent-management/src/main/java/com/alibaba/cloud/ai/dataagent/service/hybrid/fusion/impl/RrfFusionStrategy.java:66-68 | rrfScores is empty exactly when no document was seen |
| RrfFusion.AccumulateLists | data-agent-management/src/main/java/com/alibaba/cloud/ai/dataagent/service/hybrid/fusion/impl/RrfFusionStrategy.java:46-64 | the outer loop skips null lists and folds every other list in, leaving the tables of all entries in visiting order; it stops only when some document can be neither identified nor hashed |
| RrfFusion.FuseResults | data-agent-management/src/main/java/com/alibaba/cloud/ai/dataagent/service/hybrid/fusion/impl/RrfFusionStrategy.java:33-78 | fuseResults' nested loops compute Fused |
| SchemaInit.Remove | data-agent-management/src/main/java/com/alibaba/cloud/ai/dataagent/service/schema/SchemaServiceImpl.java:266-267 | deleting one vector type of one agent keeps exactly the other entries |
| SchemaInit.ClearedSpec | data-agent-management/src/main/java/com/alibaba/cloud/ai/dataagent/service/schema/SchemaServiceImpl.java:261-268 | clearing removes exactly the agent's column and table documents; other agents and other kinds stay |
| SchemaInit.StampAppend | data-agent-management/src/main/java/com/alibaba/cloud/ai/dataagent/service/schema/SchemaServiceImpl.java:236-246 | filing consecutive batches files their concatenation |
| SchemaInit.Run | data-agent-management/src/main/java/com/alibaba/cloud/ai/dataagent/service/schema/SchemaServiceImpl.java:125-174 | a run of store calls either completes every write or stops at the first call that throws, having made at least one call and no more than it had writes |
| SchemaInit.RunAppend | data-agent-management/src/main/java/com/alibaba/cloud/ai/dataagent/service/schema/SchemaServiceImpl.java:130-166 | running two lists of writes is running the first and, unless it threw, the second from where it stopped |
| SchemaInit.RunAsFarAsItGot | data-agent-management/src/main/java/com/alibaba/cloud/ai/dataagent/service/schema/SchemaServiceImpl.java:125-174 | after an exception the store holds exactly the effect of some prefix of the writes, and of all of them when none threw |
| SchemaInit.RunWithoutFailures | data-agent-management/src/main/java/com/alibaba/cloud/ai/dataagent/service/schema/SchemaServiceImpl.java:236-268 | when none of the calls throws, every write is done |
| SchemaInit.FoldClearOps | data-agent-management/src/main/java/com/alibaba/cloud/ai/dataagent/service/schema/SchemaServiceImpl.java:261-268 | clearing, when its calls succeed, leaves exactly what Cleared says |
| SchemaInit.FoldAddOps | data-agent-management/src/main/java/com/alibaba/cloud/ai/dataagent/service/schema/SchemaServiceImpl.java:238-240 | writing batches one after the other appends their concatenation |
| SchemaInit.FoldStoreOps | data-agent-management/src/main/java/com/alibaba/cloud/ai/dataagent/service/schema/SchemaServiceImpl.java:236-246 | storing appends the column documents and then the table documents |
| SchemaInit.AddOps | data-agent-management/src/main/java/com/alibaba/cloud/ai/dataagent/service/schema/SchemaServiceImpl.java:238-244 | one addDocuments call per batch, in order |
| SchemaInit.RunPair | data-agent-management/src/main/java/com/alibaba/cloud/ai/dataagent/service/schema/SchemaServiceImpl.java:261-268 | two calls: the first one's exception, else the second's after the first write, else both writes |
| SchemaInit.AgentVectorStore.constructor | data-agent-management/src/main/java/com/alibaba/cloud/ai/dataagent/service/schema/SchemaServiceImpl.java:79 | the store starts with the given entries |
| SchemaInit.AgentVectorStore.DeleteDocumentsByVectorType | data-agent-management/src/main/java/com/alibaba/cloud/ai/dataagent/service/schema/SchemaServiceImpl.java:266-267 | a call that succeeds removes exactly the agent's documents of that type; a call that throws leaves the store as it was; either way the call is counted |
| SchemaInit.AgentVectorStore.AddDocuments | data-agent-management/src/main/java/com/alibaba/cloud/ai/dataagent/service/schema/SchemaServiceImpl.java:239 | a call that succeeds appends the batch filed under the agent; a call that throws leaves the store as it was |
| SchemaInit.AgentVectorStore.ClearSchemaData | data-agent-management/src/main/java/com/alibaba/cloud/ai/dataagent/service/schema/SchemaServiceImpl.java:261-268 | clearSchemaDataForAgent makes no call when the agent has no documents, otherwise the column delete then the table delete, stopping at the first that throws |
| SchemaInit.AgentVectorStore.AddBatches | data-agent-management/src/main/java/com/alibaba/cloud/ai/dataagent/service/schema/SchemaServiceImpl.java:238-240 | the batches are written one call each, in order, stopping at the first call that throws |
| SchemaInit.AgentVectorStore.StoreSchemaDocuments | data-agent-management/src/main/java/com/alibaba/cloud/ai/dataagent/service/schema/SchemaServiceImpl.java:236-246 | every column batch is written before any table batch; the first call that throws ends it |
| SchemaInit.ParallelBatchSize | data-agent-management/src/main/java/com/alibaba/cloud/ai/dataagent/service/schema/SchemaServiceImpl.java:187-188 | the parallel batch size is at least 1 and is ceil(n / min(2 * processors, n)) |
| SchemaInit.PartitionList | data-agent-management/src/main/java/com/alibaba/cloud/ai/dataagent/service/schema/SchemaServiceImpl.java:228-234 | partitionList yields the consecutive slices of batchSize elements |
| SchemaInit.ProcessTablesInParallel | data-agent-management/src/main/java/com/alibaba/cloud/ai/dataagent/service/schema/SchemaServiceImpl.java:183-226 | enriching the batches succeeds exactly when enriching the whole list does, with the same tables; one failing batch fails the step |
| SchemaInit.SuffixFails | data-agent-management/src/main/java/com/alibaba/cloud/ai/dataagent/service/schema/SchemaServiceImpl.java:216-225 | a failing batch fails the enrichment of the whole list |
| SchemaInit.Schema | data-agent-management/src/main/java/com/alibaba/cloud/ai/dataagent/service/schema/SchemaServiceImpl.java:118-175 | no accessor: false and the store untouched; otherwise the old documents are cleared first; an exception while clearing or a failed read or enrichment gives false with the store as clearing left it; after that the result is true exactly when every write succeeds, and the store is as far as the writes got |
| SchemaInit.SuccessStores | data-agent-management/src/main/java/com/alibaba/cloud/ai/dataagent/service/schema/SchemaServiceImpl.java:162-166 | when clearing and every write succeed, the store holds what clearing kept followed by the new column and table documents |
| SchemaInit.ReliableStore | data-agent-management/src/main/java/com/alibaba/cloud/ai/dataagent/service/schema/SchemaServiceImpl.java:125-174 | with a store that never throws, clearing leaves exactly Cleared and storing succeeds, so the result is true exactly when reading and enriching succeed |
| SchemaInit.StoredInOrder | data-agent-management/src/main/java/com/alibaba/cloud/ai/dataagent/service/schema/SchemaServiceImpl.java:162-165 | with a lossless batching, a successful initialisation stores the column documents and then the table documents, each once, after what clearing kept |
| SchemaService.KeysForStep | data-agent-management/src/main/java/com/alibaba/cloud/ai/dataagent/service/schema/SchemaServiceImpl.java:250-257 | one more foreign key files its key under its table and then under its referenced table |
| SchemaService.BuildForeignKeyMap | data-agent-management/src/main/java/com/alibaba/cloud/ai/dataagent/service/schema/SchemaServiceImpl.java:249-259 | a table has an entry exactly when some foreign key starts or ends at it, and the entry lists those keys in foreign-key order |
| SchemaService.ForeignKeyMapSpec | data-agent-management/src/main/java/com/alibaba/cloud/ai/dataagent/service/schema/SchemaServiceImpl.java:249-259 | the value form of the map has exactly the tables with keys |
| SchemaService.MapStep | data-agent-management/src/main/java/com/alibaba/cloud/ai/dataagent/service/schema/SchemaServiceImpl.java:255-256 | the two computeIfAbsent calls of one foreign key extend exactly the lists of its two tables |
| SchemaService.KeysForSpec | data-agent-management/src/main/java/com/alibaba/cloud/ai/dataagent/service/schema/SchemaServiceImpl.java:249-259 | every foreign key's key is filed under both its tables, a table has keys exactly when a foreign key touches it, and every filed key comes from such a foreign key |
| SchemaService.SelfReferenceTwice | data-agent-management/src/main/java/com/alibaba/cloud/ai/dataagent/service/schema/SchemaServiceImpl.java:255-256 | a self-referencing foreign key is filed twice under its table |
| SchemaService.PairNames | data-agent-management/src/main/java/com/alibaba/cloud/ai/dataagent/service/schema/SchemaServiceImpl.java:388-393 | a pair that does not split on the equals sign into exactly two parts names nothing; otherwise both sides, trimmed |
| SchemaService.MissingTables | data-agent-management/src/main/java/com/alibaba/cloud/ai/dataagent/service/schema/SchemaServiceImpl.java:279-295 | a missing table is the table part of a related two-part name that was not recalled, and every such table is missing |
| SchemaService.FkKeys | data-agent-management/src/main/java/com/alibaba/cloud/ai/dataagent/service/schema/SchemaServiceImpl.java:250-251 | the key of every foreign key, in order |
| SchemaService.FkKeySplits | data-agent-management/src/main/java/com/alibaba/cloud/ai/dataagent/service/schema/SchemaServiceImpl.java:250-251 | a foreign key of plain names splits back into its two ends |
| SchemaService.PairsNamesOfKeys | data-agent-management/src/main/java/com/alibaba/cloud/ai/dataagent/service/schema/SchemaServiceImpl.java:384-396 | the names read from the keys of plain foreign keys are exactly their ends |
| SchemaService.SummaryRoundTrip | data-agent-management/src/main/java/com/alibaba/cloud/ai/dataagent/service/schema/SchemaServiceImpl.java:382-399 | the foreign-key summary (keys joined with the Chinese enumeration comma) reads back as exactly the ends of those foreign keys |
| SchemaService.NewOnly | data-agent-management/src/main/java/com/alibaba/cloud/ai/dataagent/service/schema/SchemaServiceImpl.java:335 | the new documents kept are exactly those whose id is not already present |
| SchemaService.AddUniqueDocuments | data-agent-management/src/main/java/com/alibaba/cloud/ai/dataagent/service/schema/SchemaServiceImpl.java:329-343 | the existing documents stay first and unchanged and exactly the new documents with a new id are appended |
| SchemaService.AddUniqueKeepsRepeatedNewIds | data-agent-management/src/main/java/com/alibaba/cloud/ai/dataagent/service/schema/SchemaServiceImpl.java:331-338 | two new documents sharing an id that was not present are both appended |
| SchemaService.PrimaryKeysOf | data-agent-management/src/main/java/com/alibaba/cloud/ai/dataagent/service/schema/SchemaServiceImpl.java:358-371 | a list is kept, a non-blank string becomes a one-element list, a blank string or a missing key gives none |
| SchemaService.TableOf | data-agent-management/src/main/java/com/alibaba/cloud/ai/dataagent/service/schema/SchemaServiceImpl.java:354-372 | a table takes its name, description and primary keys from the document and starts without columns |
| SchemaService.BuildTableList | data-agent-management/src/main/java/com/alibaba/cloud/ai/dataagent/service/schema/SchemaServiceImpl.java:351-375 | one table per document, in document order |
| SchemaService.ColumnOf | data-agent-management/src/main/java/com/alibaba/cloud/ai/dataagent/service/schema/SchemaServiceImpl.java:415-432 | a column takes its name and type from the document; sample data is set only from a samples text that decodes as a list |
| SchemaService.FirstMatch | data-agent-management/src/main/java/com/alibaba/cloud/ai/dataagent/service/schema/SchemaServiceImpl.java:434-437 | the first table with the name is found; a table without a name reached first throws a null dereference |
| SchemaService.WithColumns | data-agent-management/src/main/java/com/alibaba/cloud/ai/dataagent/service/schema/SchemaServiceImpl.java:411-438 | every table is kept, in order |
| SchemaService.AttachedToSpec | data-agent-management/src/main/java/com/alibaba/cloud/ai/dataagent/service/schema/SchemaServiceImpl.java:411-438 | a column lands in a table exactly when that table is the first with the column's table name |
| SchemaService.AttachStep | data-agent-management/src/main/java/com/alibaba/cloud/ai/dataagent/service/schema/SchemaServiceImpl.java:434-437 | one more column document extends exactly the list of the table it found |
| SchemaService.AttachColumns | data-agent-management/src/main/java/com/alibaba/cloud/ai/dataagent/service/schema/SchemaServiceImpl.java:404-439 | the loop attaches every column document to the first table of its name, or fails as Attached says |
| SchemaService.ListOfSet | data-agent-management/src/main/java/com/alibaba/cloud/ai/dataagent/service/schema/SchemaServiceImpl.java:112 | the list made from a set holds each element once |
| SchemaService.BuildSchemaFromDocuments | data-agent-management/src/main/java/com/alibaba/cloud/ai/dataagent/service/schema/SchemaServiceImpl.java:81-113 | the schema is the closed table list with its columns attached, failing exactly when attaching fails, and lists each foreign key of the recalled tables once |
| SchemaService.NoClosureKeepsRecall | data-agent-management/src/main/java/com/alibaba/cloud/ai/dataagent/service/schema/SchemaServiceImpl.java:94-97 | without missing tables the recalled tables are used as they are |
| SchemaService.ClosureExtendsRecall | data-agent-management/src/main/java/com/alibaba/cloud/ai/dataagent/service/schema/SchemaServiceImpl.java:94-97 | the closure only appends tables not already recalled |
| TableMetadata.Distinct | data-agent-management/src/main/java/com/alibaba/cloud/ai/dataagent/service/schema/TableMetadataService.java:301 | distinct keeps each value once, loses none, and never grows the list |
| TableMetadata.ShortOnly | data-agent-management/src/main/java/com/alibaba/cloud/ai/dataagent/service/schema/TableMetadataService.java:303 | a value is kept exactly when it was present and is at most 100 characters long |
| TableMetadata.Take | data-agent-management/src/main/java/com/alibaba/cloud/ai/dataagent/service/schema/TableMetadataService.java:302 | limit keeps a prefix of at most n values, the whole list when it is short enough |
| TableMetadata.FilterSamplesBounds | data-agent-management/src/main/java/com/alibaba/cloud/ai/dataagent/service/schema/TableMetadataService.java:298-307 | the kept samples are distinct, at most three, at most 100 characters each, and all taken from the input |
| TableMetadata.FilterSamplesIdempotent | data-agent-management/src/main/java/com/alibaba/cloud/ai/dataagent/service/schema/TableMetadataService.java:298-307 | filtering already filtered samples changes nothing |
| TableMetadata.RowValuesFromRow | data-agent-management/src/main/java/com/alibaba/cloud/ai/dataagent/service/schema/TableMetadataService.java:282-291 | a row contributes only its own values, and only for requested columns |
| TableMetadata.ColumnSamplesFromRows | data-agent-management/src/main/java/com/alibaba/cloud/ai/dataagent/service/schema/TableMetadataService.java:268-270 | only values present in some row are collected (a SQL NULL is skipped), and only for requested columns |
| TableMetadata.CollectSamples | data-agent-management/src/main/java/com/alibaba/cloud/ai/dataagent/service/schema/TableMetadataService.java:260-270 | a column has an entry exactly when some row gave it a value, and the entry lists those values in row order |
| TableMetadata.AddRow | data-agent-management/src/main/java/com/alibaba/cloud/ai/dataagent/service/schema/TableMetadataService.java:282-291 | one row appends its value of every requested column under the column name; no entry is ever empty |
| TableMetadata.Lookup | data-agent-management/src/main/java/com/alibaba/cloud/ai/dataagent/service/schema/TableMetadataService.java:132 | the entry of a column, or the empty list when it has none |
| TableMetadata.FetchedSamplesBounds | data-agent-management/src/main/java/com/alibaba/cloud/ai/dataagent/service/schema/TableMetadataService.java:231-252 | the samples of a fetched table are bounded, distinct, and belong to requested columns |
| TableMetadata.FetchTableSampleData | data-agent-management/src/main/java/com/alibaba/cloud/ai/dataagent/service/schema/TableMetadataService.java:231-252 | the five-row query's rows collected and filtered, or the empty map on any failure |
| TableMetadata.BatchGetSampleData | data-agent-management/src/main/java/com/alibaba/cloud/ai/dataagent/service/schema/TableMetadataService.java:191-221 | one entry per table; a sample query is issued exactly for the tables with columns |
| TableMetadata.GetOrEmpty | data-agent-management/src/main/java/com/alibaba/cloud/ai/dataagent/service/schema/TableMetadataService.java:181 | the map's list for the key, or the empty list |
| TableMetadata.PrimaryKeyNamesSpec | data-agent-management/src/main/java/com/alibaba/cloud/ai/dataagent/service/schema/TableMetadataService.java:161-173 | a name is a primary key exactly when some column of that name is flagged primary; no flag gives the empty list |
| TableMetadata.EnrichTableSpec | data-agent-management/src/main/java/com/alibaba/cloud/ai/dataagent/service/schema/TableMetadataService.java:99-183 | an enriched table keeps its name and description; its columns are the listed ones in order, each naming the table and carrying samples that read back as its sample list; the foreign-key summary is empty when the map has no entry |
| TableMetadata.FetchTableColumns | data-agent-management/src/main/java/com/alibaba/cloud/ai/dataagent/service/schema/TableMetadataService.java:76-90 | it fails exactly when some table's columns cannot be listed; otherwise each table name maps to its listed columns |
| TableMetadata.EnrichOne | data-agent-management/src/main/java/com/alibaba/cloud/ai/dataagent/service/schema/TableMetadataService.java:102-115 | one table fails exactly when its columns cannot be listed |
| TableMetadata.EnrichAllSpec | data-agent-management/src/main/java/com/alibaba/cloud/ai/dataagent/service/schema/TableMetadataService.java:55-67 | enrichment fails exactly when some table's columns cannot be listed; otherwise every table is enriched with its own columns |
| TableMetadata.EnrichAllAppend | data-agent-management/src/main/java/com/alibaba/cloud/ai/dataagent/service/schema/TableMetadataService.java:55-67 | enriching a list in consecutive parts gives the same tables as enriching it whole |
| TableMetadata.BatchEnrichTableMetadata | data-agent-management/src/main/java/com/alibaba/cloud/ai/dataagent/service/schema/TableMetadataService.java:55-67 | columns, then samples, then enrichment in order compute EnrichAll |
| SemanticModels.RelationsOf | data-agent-management/src/main/java/com/alibaba/cloud/ai/dataagent/mapper/AgentDatasourceMapper.java:38-39 | an agent's relations are exactly the rows with its agent id |
| SemanticModels.FirstActiveFrom | data-agent-management/src/main/java/com/alibaba/cloud/ai/dataagent/service/semantic/SemanticModelServiceImpl.java:108-112 | the first active relation is found, or none is active |
| SemanticModels.ChosenDatasource | data-agent-management/src/main/java/com/alibaba/cloud/ai/dataagent/service/semantic/SemanticModelServiceImpl.java:107-115 | the chosen data source is that of the first active relation, or of the first relation when none is active |
| SemanticModels.SelectByDatasourceAndTables | data-agent-management/src/main/java/com/alibaba/cloud/ai/dataagent/mapper/SemanticModelMapper.java:131-144 | a row is selected exactly when it is enabled, belongs to the data source and its table is one of the names |
| SemanticModels.FindColumn | data-agent-management/src/main/java/com/alibaba/cloud/ai/dataagent/mapper/SemanticModelMapper.java:149-157 | the first row holding the agent's table and column is found, or no row holds it; a null name never matches |
| SemanticModels.ColumnCount | data-agent-management/src/main/java/com/alibaba/cloud/ai/dataagent/mapper/SemanticModelMapper.java:149-157 | no row holds the column exactly when the lookup finds none |
| SemanticModels.NewModel | data-agent-management/src/main/java/com/alibaba/cloud/ai/dataagent/service/semantic/SemanticModelServiceImpl.java:80-91 | a new row carries the request's fields, the agent, the data source and the enabled status |
| SemanticModels.UpdatedModel | data-agent-management/src/main/java/com/alibaba/cloud/ai/dataagent/service/semantic/SemanticModelServiceImpl.java:171-178 | an update sets the descriptive fields, a null field keeping the stored value; key, agent, data source, table, column and status stay |
| SemanticModels.ItemError | data-agent-management/src/main/java/com/alibaba/cloud/ai/dataagent/service/semantic/SemanticModelServiceImpl.java:205-210 | a failed entry's message names its position counted from 1 |
| SemanticModels.ImportOneKeysValid | data-agent-management/src/main/java/com/alibaba/cloud/ai/dataagent/service/semantic/SemanticModelServiceImpl.java:168-198 | importing one entry keeps every key unique and below the next key |
| SemanticModels.ImportPrefixKeysValid | data-agent-management/src/main/java/com/alibaba/cloud/ai/dataagent/service/semantic/SemanticModelServiceImpl.java:164-212 | importing any prefix of the entries keeps the keys valid |
| SemanticModels.ColumnCountUpdate | data-agent-management/src/main/java/com/alibaba/cloud/ai/dataagent/service/semantic/SemanticModelServiceImpl.java:178 | updating a row in place leaves the row count of other columns unchanged |
| SemanticModels.ImportOneUpserts | data-agent-management/src/main/java/com/alibaba/cloud/ai/dataagent/service/semantic/SemanticModelServiceImpl.java:168-201 | the import is an upsert: a column already held is updated in place and keeps its row count; a column not held gets exactly one row |
| SemanticModels.ImportOneNullKeyInserts | data-agent-management/src/main/java/com/alibaba/cloud/ai/dataagent/service/semantic/SemanticModelServiceImpl.java:168-198 | an entry without a table or column name matches no row, so each import inserts a new row |
| SemanticModels.SemanticModelService.constructor | data-agent-management/src/main/java/com/alibaba/cloud/ai/dataagent/service/semantic/SemanticModelServiceImpl.java:39-43 | the service starts with the given relations and no semantic rows |
| SemanticModels.SemanticModelService.FindDatasourceIdByAgentId | data-agent-management/src/main/java/com/alibaba/cloud/ai/dataagent/service/semantic/SemanticModelServiceImpl.java:100-116 | an agent without relations is an error naming it; otherwise the chosen data source |
| SemanticModels.SemanticModelService.GetByAgentIdAndTableNames | data-agent-management/src/main/java/com/alibaba/cloud/ai/dataagent/service/semantic/SemanticModelServiceImpl.java:54-62 | the lookup's error propagates; a null data source or a null or empty name list gives no rows; otherwise the enabled rows of those tables |
| SemanticModels.SemanticModelService.AddSemanticModel | data-agent-management/src/main/java/com/alibaba/cloud/ai/dataagent/service/semantic/SemanticModelServiceImpl.java:75-97 | the lookup's error propagates; otherwise one enabled row for the entry under the agent's data source is appended and the answer is true |
| SemanticModels.SemanticModelService.ImportItem | data-agent-management/src/main/java/com/alibaba/cloud/ai/dataagent/service/semantic/SemanticModelServiceImpl.java:166-201 | one entry updates the row holding its column or inserts a new one |
| SemanticModels.SemanticModelService.ImportItems | data-agent-management/src/main/java/com/alibaba/cloud/ai/dataagent/service/semantic/SemanticModelServiceImpl.java:164-211 | each entry in turn is upserted unless its statement fails, in which case the failure is counted with a message; successes plus failures equal the entry count |
| SemanticModels.SemanticModelService.BatchImport | data-agent-management/src/main/java/com/alibaba/cloud/ai/dataagent/service/semantic/SemanticModelServiceImpl.java:144-215 | total is the entry count and successes plus failures equal it; a failed lookup fails every entry and writes nothing; otherwise each entry is upserted unless its statement fails |
| SemanticModels.NoFailuresNoneFail | data-agent-management/src/main/java/com/alibaba/cloud/ai/dataagent/service/semantic/SemanticModelServiceImpl.java:203-208 | with no failing statement no entry fails |
| SqlServerDdl.ShowTablesQuery | data-agent-management/src/main/java/com/alibaba/cloud/ai/dataagent/connector/impls/sqlserver/SqlServerJdbcDdl.java:98-106 | the table listing selects the schema and carries the substring filter exactly when the pattern is not blank |
| SqlServerDdl.BlankPatternsAgree | data-agent-management/src/main/java/com/alibaba/cloud/ai/dataagent/connector/impls/sqlserver/SqlServerJdbcDdl.java:104-106 | every blank pattern sends the same unfiltered query |
| SqlServerDdl.ShowDatabases | data-agent-management/src/main/java/com/alibaba/cloud/ai/dataagent/connector/impls/sqlserver/SqlServerJdbcDdl.java:48-71 | one database per data row, from its first cell; a failing query is rethrown |
| SqlServerDdl.ShowSchemas | data-agent-management/src/main/java/com/alibaba/cloud/ai/dataagent/connector/impls/sqlserver/SqlServerJdbcDdl.java:73-96 | one schema per data row, from its first cell; a failing query is rethrown |
| SqlServerDdl.ShowTables | data-agent-management/src/main/java/com/alibaba/cloud/ai/dataagent/connector/impls/sqlserver/SqlServerJdbcDdl.java:98-133 | one table per data row, from name and comment; a short row is an index error; every listed table starts without columns or keys |
| SqlServerDdl.FetchTables | data-agent-management/src/main/java/com/alibaba/cloud/ai/dataagent/connector/impls/sqlserver/SqlServerJdbcDdl.java:135-166 | the named tables are read by an IN list of the quoted names, one per data row |
| SqlServerDdl.ShowColumns | data-agent-management/src/main/java/com/alibaba/cloud/ai/dataagent/connector/impls/sqlserver/SqlServerJdbcDdl.java:168-210 | one column per data row with at least five cells, named by the first cell; the primary and not-null flags are read from the query's text, "true" giving a set flag and "false" a cleared one |
| SqlServerDdl.ShowForeignKeys | data-agent-management/src/main/java/com/alibaba/cloud/ai/dataagent/connector/impls/sqlserver/SqlServerJdbcDdl.java:212-252 | one foreign key per data row with at least four cells |
| SqlServerDdl.SampleColumn | data-agent-management/src/main/java/com/alibaba/cloud/ai/dataagent/connector/impls/sqlserver/SqlServerJdbcDdl.java:254-277 | a query failing with an SQLException gives no samples and any other exception propagates; otherwise each distinct first cell of a data row that is not the column name (ignoring case), each exactly once, in some order |
| SqlServerDdl.ScanTable | data-agent-management/src/main/java/com/alibaba/cloud/ai/dataagent/connector/impls/sqlserver/SqlServerJdbcDdl.java:279-290 | the select builder's query is run and a failure rethrown |
| UserPrompts.OrZero | data-agent-management/src/main/java/com/alibaba/cloud/ai/dataagent/service/prompt/UserPromptServiceImpl.java:54-55 | a null priority or display order is stored as 0, any other kept |
| UserPrompts.NewConfig | data-agent-management/src/main/java/com/alibaba/cloud/ai/dataagent/service/prompt/UserPromptServiceImpl.java:58-88 | a new configuration takes every field from the request under the given id, numbers defaulted to 0 |
| UserPrompts.EditedConfig | data-agent-management/src/main/java/com/alibaba/cloud/ai/dataagent/service/prompt/UserPromptServiceImpl.java:48-55 | the editable fields come from the request; id, prompt type and creator stay |
| UserPrompts.UpdatedRow | data-agent-management/src/main/java/com/alibaba/cloud/ai/dataagent/mapper/UserPromptConfigMapper.java:86-103 | every non-null field of the written object replaces the stored one, a null field keeps it; id and creator stay |
| UserPrompts.UpdateKeepsTypeAndCreator | data-agent-management/src/main/java/com/alibaba/cloud/ai/dataagent/service/prompt/UserPromptServiceImpl.java:47-56 | updating an existing configuration never changes its prompt type, creator or id, and a field the request leaves null keeps the stored value |
| UserPrompts.WithEnabled | data-agent-management/src/main/java/com/alibaba/cloud/ai/dataagent/mapper/UserPromptConfigMapper.java:74-81 | enabling or disabling changes the flag and nothing else |
| UserPrompts.UserPromptService.constructor | data-agent-management/src/main/java/com/alibaba/cloud/ai/dataagent/service/prompt/UserPromptServiceImpl.java:38 | the table starts empty |
| UserPrompts.UserPromptService.SaveOrUpdateConfig | data-agent-management/src/main/java/com/alibaba/cloud/ai/dataagent/service/prompt/UserPromptServiceImpl.java:41-97 | a known id updates that row; an unknown id is inserted under that same id; no id inserts under a fresh one; exactly the saved id is added to the table; a saved enabled configuration is enabled |
| UserPrompts.UserPromptService.DeleteConfig | data-agent-management/src/main/java/com/alibaba/cloud/ai/dataagent/service/prompt/UserPromptServiceImpl.java:125-136 | true exactly when the id was stored; the row is removed and nothing else |
| UserPrompts.UserPromptService.EnableConfig | data-agent-management/src/main/java/com/alibaba/cloud/ai/dataagent/service/prompt/UserPromptServiceImpl.java:139-150 | true exactly when the id was stored, in which case only its flag is set |
| UserPrompts.UserPromptService.DisableConfig | data-agent-management/src/main/java/com/alibaba/cloud/ai/dataagent/service/prompt/UserPromptServiceImpl.java:153-160 | true exactly when a row was updated, in which case only its flag is cleared |
| JavaText.Trim | data-agent-management/src/main/java/com/alibaba/cloud/ai/dataagent/splitter/ParagraphTextSplitter.java:65 | String.trim: the result is the slice between the first and the last code unit above ' ', so it neither starts nor ends with one, and is never longer than the text |
| JavaText.TrimIdempotent | data-agent-management/src/main/java/com/alibaba/cloud/ai/dataagent/service/datasource/handler/registry/DatasourceTypeHandlerRegistry.java:59 | trimming an already trimmed text leaves it unchanged |
| JavaText.TrimCharacterized | data-agent-management/src/main/java/com/alibaba/cloud/ai/dataagent/splitter/ParagraphTextSplitter.java:65 | any cut whose ends are above ' ' and outside which every code unit is at most ' ' is exactly the cut String.trim makes |
| JavaText.ToLower | data-agent-management/src/main/java/com/alibaba/cloud/ai/dataagent/service/datasource/handler/registry/DatasourceTypeHandlerRegistry.java:59 | toLowerCase keeps the length and lower-cases each ASCII letter in place |
| JavaText.IndexOf | data-agent-management/src/main/java/com/alibaba/cloud/ai/dataagent/splitter/ParagraphTextSplitter.java:164 | String.indexOf: -1 exactly when the pattern does not occur; otherwise an occurrence with none before it |
| JavaText.LastIndexOf | data-agent-management/src/main/java/com/alibaba/cloud/ai/dataagent/util/JsonParseUtil.java:162 | String.lastIndexOf: -1 exactly when the pattern does not occur; otherwise an occurrence with none after it |
| JdbcResults.ReadRowsFails | data-agent-management/src/main/java/com/alibaba/cloud/ai/dataagent/connector/impls/dameng/DamengJdbcDdl.java:74-91 | a non-empty row shorter than the columns the conversion reads makes the whole read an index-out-of-bounds error |
| ConnectionPool.Pool.constructor | data-agent-management/src/main/java/com/alibaba/cloud/ai/dataagent/connector/pool/AbstractDBConnectionPool.java:40 | a new pool starts with an empty data-source cache and has slept through no waits |

## Left out

- SQL text: each catalog query is a `Query` value naming what it selects, its pattern, IN-list and row limit; the literal SQL strings of the dialects are not reproduced.
- Null result cells: JDBC cells are modelled as non-null strings; a null cell read through `getString` is not modelled.
- JDBC drivers, the database and the network: executing a query, creating a data source and taking a connection are parameters (the outcomes of each attempt are given as inputs).
- Thread sleeps and interruption: the retry loop records the waits it would sleep (1000·k ms) instead of sleeping; cancelling a sleep is not modelled.
- Concurrency: `ConcurrentHashMap.computeIfAbsent` single-flight, the parallel table enrichment and the parallel schema path (chosen when more than 5 tables are stored) are modelled as sequential code; thread pools and their ordering are not captured.
- `wrapType` (the column type mapping) and the SQL executor are parameters of the model.
- The regular expression that cuts a text into paragraphs, the sentence regular expression of the sentence splitter, and the Unicode HAN-script test are parameters; the paragraph splitter's sentence pattern is written out as a scanner.
- Letter case: `toLowerCase`, `toUpperCase` and `equalsIgnoreCase` are modelled on ASCII letters only; other scripts are left unchanged.
- UTF-16: Java counts a character outside the Basic Multilingual Plane as two code units; the model's strings are sequences of Unicode characters, so such a character counts once in lengths and chunk sizes.
- ParagraphSplitter.SplitText: requires a chunk size of at least 1; with 0 the source's character loop never ends, so that input is excluded rather than modelled.
- Batching.Batch: requires a batch size of at least 1; with 0 the source loop never ends.
- MultiTurnContext.MultiTurnContextManager.constructor: requires a history length of at least 1; with 0 or less the eviction loop of the source never ends.
- MultiTurnContext: a null thread id is not modelled.
- Documents.MetaStr: a metadata value that is not a string is read as absent, where the source would throw a ClassCastException.
- Constant.java (the metadata key and node-name constants) is not part of this model; the keys are written out as string constants and the graph nodes as a datatype.
- Validation and log messages: only the messages the model returns as errors are kept; log output is left out.
- ConnectionPool.Ping: the mapping from an SQL state to an error kind is a parameter (`errorMapping`), so the dialect-specific error codes are not listed.
- RrfFusion.FuseResults: scores are Java doubles in the source and reals in the model, so rounding is not captured; documents with equal scores come out in an unspecified order because the source sorts the entries of a HashMap, so the model states only the descending order of scores.
- RrfFusion.ScoreGrows: the claim that a document found by both retrievers always outranks one found by only one does not hold in general (a low rank in both lists can score below rank 1 in one list); the model proves only that each extra list a document appears in raises its score.
- SqlServerDdl.SampleColumn: the source de-duplicates through a HashSet, so the order of the samples is unspecified; the contract states which values are in the result and that each occurs once, not their order.
- JsonParse: the LLM call, the JSON parser and the markdown code-block extraction are parameters (the `Oracles` bundle); the first repair is asked with "Unknown error", as the source does, not with the initial parse error.
- PromptHelper: prompt templates are rendered by an external template engine; the model states the parameter maps handed to it, not the rendered text. A null question in the mix-selector parameters is not modelled.
- PromptHelper.TypePart: the optional column-type flag is a plain boolean.
- DatasourceHandlers: the connection protocol is assumed to be "jdbc"; the full catalogue of BizDataSourceTypeEnum entries is reduced to the handler kinds the core dispatches on (MySQL, PostgreSQL, H2, default). A null URL in `normalizeTestUrl` is not modelled.
- UserPrompts: identifiers come from `UUID.randomUUID()` in the source and are a parameter (`freshId`) here; timestamps are left out; the read-only queries (active configurations by type, listing) are not modelled. The update semantics are those of the mapper's `updateById`, which skips null fields.
- SemanticModels: creation and update timestamps (`now()`) are left out, so the created-time ordering of queries is not modelled; ids are unbounded integers rather than Java `Long`/`Integer`; a null agent id, enable/disable, search, listing and the Excel import are not modelled.
- PresetQuestions.PresetQuestionService.Create: the source fills in the defaults and the id on the caller's own object; the model returns a new value, so the aliasing is not captured. The ordering of `findByAgentId` is stated only for the lists `batchSave` writes.
- DifyKnowledge: the HTTP client of the Dify service and `getDatasetTotal` are not modelled; the order of the agent groups built from a HashMap is unspecified and not stated.
- ReportHtml: the page's CSS and JavaScript are kept only as constant text; the script that renders the Markdown on load is not interpreted, and the raw report text is recovered from its position in the page.
- The vector store is a sequence of documents; similarity search and embedding are not modelled.
- SchemaInit.AgentVectorStore.AddDocuments: a call that throws is modelled as writing nothing of its batch; a store that keeps part of a batch before throwing is not modelled, and which calls throw is an input (`outcome`).
