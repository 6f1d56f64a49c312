# gosqlpp-mcp-server core, modelled in Dafny

gosqlpp-mcp-server exposes the `sqlpp` database command-line tool as eight callable tools. This
project models the three parts of the server that hold its logic, and proves what they promise.

- **The tool dispatcher** (`internal/tools/tools.go`), in module `Tools` (tools.dfy).
  - It covers the fixed catalog of eight tool descriptors.
  - It routes a tool name to one of four handlers.
  - It reads arguments permissively: only string values count.
  - It checks required arguments in a fixed order.
  - It separates errors into three classes: a call made wrongly, a transport error wrapped with the operation's context, and a failed tool run.
  - It truncates log previews.
  - The executor is a parameter: a function from the request made to the executor's answer. This mirrors the `ExecutorInterface` of `internal/sqlpp/interface.go`.
  - The JSON pretty-printer `formatResult` is a parameter as well.
- **The executor** (`internal/sqlpp/executor.go`), in module `Sqlpp` (sqlpp.dfy).
  - It covers what each operation launches: the argument vector and the standard-input payload.
  - It covers how a finished process becomes a `SqlppResult`, and which failures become transport errors.
  - The operating system is an oracle `System` from what is launched (`Invocation`) to what became of it (`ProcessOutcome`).
  - The standard-input protocol (create pipe, start, write, close, wait, with early returns) is a method. It records the steps it takes on the process.
- **Configuration checking** (`internal/config/config.go`), in module `Config` (config.dfy).
  - `validate` is a method whose log-level scan is the source's loop with early exit. It is proved equal to "the first failing check of an ordered chain".
  - The module also covers the resolution of the `sqlpp` executable path.

Supporting modules:

- `Types` (types.dfy) holds `SqlppResult` from `pkg/types/types.go`.
- `Text` (text.dfy) holds Go's `strings.TrimSpace` over the `unicode.IsSpace` set, plus decimal rendering.
- `Paths` (paths.dfy) holds `filepath.Base` and a two-element `filepath.Join` on `/`-separated paths.
- `Wrappers` (wrappers.dfy) holds `Option` and `Result`.

## Model

| member | source | states |
|---|---|---|
| Tools.TruncateForLogging | internal/tools/tools.go:14-23 | A preview is at most 500 + 15 characters long. Output of at most 500 characters is kept whole. Longer output keeps its first 500 characters, followed by "... (truncated)". |
| Tools.GetStringArg | internal/tools/tools.go:309-316 | The value under the key is returned when it is present and a string. In every other case (absent, null, number, boolean, composite) the default is returned. |
| Tools.GetStringArgPermissive | internal/tools/tools.go:309-316 | A non-string value reads exactly like an absent key. Other keys never affect the result. |
| Tools.GetTools | internal/tools/tools.go:47-58 | The catalog, built from the eight builders in the source's order. Its contents are stated by `Tools.CatalogNamesInOrder` and the descriptor lemmas. |
| Tools.CreateSchemaToolSchema | internal/tools/tools.go:161-180 | The schema shared by the five schema tools. Stated by `Tools.SchemaToolSchemaShape`. |
| Tools.CreateSchemaAllTool | internal/tools/tools.go:116-123 | The list_schema_all descriptor. Stated by `Tools.CatalogNamesInOrder` and `Tools.SchemaToolDescriptors`. |
| Tools.CreateSchemaTablesTool | internal/tools/tools.go:125-132 | The list_schema_tables descriptor. Stated by `Tools.CatalogNamesInOrder` and `Tools.SchemaToolDescriptors`. |
| Tools.CreateSchemaViewsTool | internal/tools/tools.go:134-141 | The list_schema_views descriptor. Stated by `Tools.CatalogNamesInOrder` and `Tools.SchemaToolDescriptors`. |
| Tools.CreateSchemaProceduresTool | internal/tools/tools.go:143-150 | The list_schema_procedures descriptor. Stated by `Tools.CatalogNamesInOrder` and `Tools.SchemaToolDescriptors`. |
| Tools.CreateSchemaFunctionsTool | internal/tools/tools.go:152-159 | The list_schema_functions descriptor. Stated by `Tools.CatalogNamesInOrder` and `Tools.SchemaToolDescriptors`. |
| Tools.CreateListConnectionsTool | internal/tools/tools.go:183-193 | The list_connections descriptor. Stated by `Tools.ListingToolDescriptors`. |
| Tools.CreateExecuteSqlTool | internal/tools/tools.go:196-220 | The execute_sql_command descriptor. Stated by `Tools.SqlToolSchemaShape` and `Tools.SqlToolDescriptor`. |
| Tools.CreateDriversTool | internal/tools/tools.go:223-233 | The list_drivers descriptor. Stated by `Tools.ListingToolDescriptors`. |
| Tools.ExecuteTool | internal/tools/tools.go:61-113 | The dispatch switch. Stated by `Tools.DispatchMatchesCatalog`, `Tools.KnownNameReachesHandler`, `Tools.UnknownNameRejected` and `Tools.ValidationNeverReachesExecutor`. |
| Tools.ExecuteSchemaCommand | internal/tools/tools.go:236-255 | The schema handler. Stated by `Tools.SchemaToolRouting`. |
| Tools.ExecuteListConnections | internal/tools/tools.go:257-268 | The list_connections handler. Stated by `Tools.ListingToolsIgnoreArguments`. |
| Tools.ExecuteSql | internal/tools/tools.go:270-293 | The SQL handler. Stated by `Tools.SqlToolRouting`. |
| Tools.ExecuteDrivers | internal/tools/tools.go:295-306 | The list_drivers handler. Stated by `Tools.ListingToolsIgnoreArguments`. |
| Tools.Finish | internal/tools/tools.go:246-254 | The tail shared by the four handlers. Stated by `Tools.FinishSeparatesFailures`. |
| Tools.ToolError.Message | internal/tools/tools.go:88-303 | The text of each error class: "unknown tool: ", "<p> parameter is required", "<context>: <cause>", "sqlpp command failed: ". Stated by `Tools.UnknownNameRejected` and `Tools.FinishSeparatesFailures`. |
| Tools.Names | internal/tools/tools.go:40-44 | The names of a tool list, one per tool and in order. |
| Tools.CatalogNamesInOrder | internal/tools/tools.go:47-58 | The catalog holds exactly eight tools: list_schema_all, list_schema_tables, list_schema_views, list_schema_procedures, list_schema_functions, list_connections, execute_sql_command, list_drivers, in that order. |
| Tools.ToolNamesDistinct | internal/tools/tools.go:47-58 | The eight tool names are pairwise distinct. |
| Tools.SchemaToolDescriptors | internal/tools/tools.go:116-180 | Each of the five schema tools declares exactly connection, filter and output. Each requires exactly ["connection"]. |
| Tools.SchemaToolSchemaShape | internal/tools/tools.go:161-180 | The shared schema-tool descriptor declares connection, filter and output. It is consistent. |
| Tools.SqlToolDescriptor | internal/tools/tools.go:196-220 | The SQL tool declares exactly connection, command and output. It requires ["connection", "command"], in that order. |
| Tools.SqlToolSchemaShape | internal/tools/tools.go:196-214 | The SQL descriptor's keys are connection, command and output. The descriptor is consistent. |
| Tools.ListingToolDescriptors | internal/tools/tools.go:183-193 | The two listing tools have an empty property map and no required list. |
| Tools.CatalogConsistent | internal/tools/tools.go:161-233 | Every descriptor is an object schema. All its declared arguments are strings, and every required argument is declared. |
| Tools.DispatchMatchesCatalog | internal/tools/tools.go:70-89 | A name gets "unknown tool" exactly when it is not in the catalog. In that case the reply is empty text with `UnknownTool(name)`, whatever the executor does. |
| Tools.KnownNameReachesHandler | internal/tools/tools.go:70-86 | Each catalog name is routed to its own handler. The i-th schema tool uses the i-th schema type. |
| Tools.UnknownNameRejected | internal/tools/tools.go:87-88 | A name outside the catalog is answered with `unknown tool: <name>` and empty text. |
| Tools.SchemaToolRouting | internal/tools/tools.go:71-80 | `list_schema_<k>` sends schema type exactly k to the executor, with connection, filter and output from the arguments. An empty connection instead fails with "connection parameter is required", and the executor is not consulted. |
| Tools.FirstMissing | internal/tools/tools.go:241-243 | The first required argument that resolves to empty, in declaration order. None means every required argument is non-empty. |
| Tools.RequiredArgumentsFollowDescriptors | internal/tools/tools.go:236-293 | For every catalog tool, a missing-parameter error occurs exactly when a required argument in its descriptor resolves to empty. The error names the first such argument, so for the SQL tool the connection is checked before the command. |
| Tools.ValidationNeverReachesExecutor | internal/tools/tools.go:70-89 | Every error reply has empty text. An unknown-tool or missing-parameter reply is the same for any executor, so the executor was never consulted. |
| Tools.FinishSeparatesFailures | internal/tools/tools.go:246-254 | A transport error reads "<context>: <cause>". A failed run reads "sqlpp command failed: <error>". Text is returned only for a successful run, and it is the formatted output. None of these is a validation error. |
| Tools.SqlToolRouting | internal/tools/tools.go:270-293 | execute_sql_command checks the connection, then the command. Only then does it pass the command verbatim to the executor with the output option. |
| Tools.ListingToolsIgnoreArguments | internal/tools/tools.go:257-306 | list_connections and list_drivers ignore their arguments. Each always consults the executor and finishes with its own error context. |
| Tools.SchemaTablesLaunch | internal/tools/tools.go:245 | With the real executor behind it, list_schema_tables launches `sqlpp --stdin --connection c --output json` and writes `@schema-tables f*`. |
| Tools.FailedRunReachesCaller | internal/tools/tools.go:263-265 | A listing run that exits with an error and a diagnostic reaches the caller as "sqlpp command failed: " plus the trimmed diagnostic. |
| Sqlpp.SchemaPayload | internal/sqlpp/executor.go:34-37 | The schema directive. Stated by `Sqlpp.SchemaPayloadRoundTrip`. |
| Sqlpp.StdinArgs | internal/sqlpp/executor.go:111-119 | The argument vector of the stdin protocol with options. Stated by `Sqlpp.StdinArgsRoundTrip`. |
| Sqlpp.Classify | internal/sqlpp/executor.go:81-92 | The SqlppResult of a finished process. Stated by `Sqlpp.ClassifyDiagnostic`, `Sqlpp.ClassifyOutputTrimmed` and `Sqlpp.ClassifyWellFormed`. |
| Sqlpp.ExecuteCommand | internal/sqlpp/executor.go:59-107 | A run without standard input. Stated by `Sqlpp.RunExit` and `Sqlpp.TransportErrorsOnlyBeforeExit`. |
| Sqlpp.StdinResult | internal/sqlpp/executor.go:136-172 | What a stdin-protocol run returns for each outcome. Stated by `Sqlpp.TransportErrorsOnlyBeforeExit` and the ensures of `Sqlpp.RunStdin`. |
| Sqlpp.InvocationFor | internal/sqlpp/executor.go:32-56 | What each executor operation launches. Stated by `Sqlpp.StdinRequestsRoundTrip`, `Sqlpp.ListConnectionsNeverTransportFails` and `Tools.SchemaTablesLaunch`. |
| Sqlpp.Serve | internal/sqlpp/executor.go:32-56 | The executor's answer to each request. Stated by `Sqlpp.TransportErrorsOnlyBeforeExit` and `Sqlpp.ServeWellFormed`, and tied to the methods by their ensures. |
| Sqlpp.ListConnections | internal/sqlpp/executor.go:48-51 | The connections listing. Stated by `Sqlpp.ListConnectionsNeverTransportFails`. |
| Sqlpp.ValidateExecutable | internal/sqlpp/executor.go:261-283 | The executable check. Stated by `Sqlpp.ValidateExecutableClassifies`. |
| Sqlpp.SchemaPayloadRoundTrip | internal/sqlpp/executor.go:34-37 | Type and filter can be read back from the directive. Its length is that of "@schema-" + type, plus one space and the filter only when a filter is given. Together these fix the directive exactly. |
| Sqlpp.StdinArgsRoundTrip | internal/sqlpp/executor.go:111-119 | Both options can be read back from the argument vector. It holds --stdin plus two entries per non-empty option and nothing else, and a connection flag comes right after --stdin. So the vector is --stdin, then --connection c only for a non-empty c, then --output o only for a non-empty o. |
| Sqlpp.StdinRequestsRoundTrip | internal/sqlpp/executor.go:32-45 | Schema and SQL requests launch with exactly the given options. The schema directive, or the SQL text verbatim, is the payload. |
| Sqlpp.ExecuteStdinCommandWithOptions | internal/sqlpp/executor.go:110-189 | Builds the argument vector flag by flag, then runs the corrected stdin protocol (see Findings) on that vector and the payload. Its result is the one the code as written returns. Only the pipe step is taken when the pipe fails, and only pipe and start when the start fails. Otherwise all five steps are taken. |
| Sqlpp.ExecuteStdinCommand | internal/sqlpp/executor.go:192-258 | The corrected stdin protocol with the bare --stdin flag. It has the same results and the same steps as above. |
| Sqlpp.ExecuteSchemaCommand | internal/sqlpp/executor.go:32-40 | Builds the schema directive step by step. Its result is what the executor answers to the schema request. Its steps are those of the corrected protocol on that directive. Only the pipe step is taken when the pipe fails, and only pipe and start when the start fails. Otherwise all five steps are taken, so a started process is always closed and waited for. |
| Sqlpp.ExecuteSQLCommand | internal/sqlpp/executor.go:43-45 | Its result is what the executor answers to the SQL request. Its steps are those of the corrected protocol with the command as payload. Only the pipe step is taken when the pipe fails, and only pipe and start when the start fails. Otherwise all five steps are taken, so a started process is always closed and waited for. |
| Sqlpp.ListDrivers | internal/sqlpp/executor.go:54-56 | Its result is what the executor answers to the drivers request: `--stdin` with payload exactly `@drivers`. Its steps are those of the corrected protocol. Only the pipe step is taken when the pipe fails, and only pipe and start when the start fails. Otherwise all five steps are taken, so a started process is always closed and waited for. |
| Sqlpp.ListConnectionsNeverTransportFails | internal/sqlpp/executor.go:48-51 | Runs exactly `--list-connections` with no payload, and never returns a transport error. |
| Sqlpp.ClassifyDiagnostic | internal/sqlpp/executor.go:81-92 | Success holds exactly when there was no error. On failure, the error is the trimmed standard error when that holds anything but white space, and the process error text otherwise. On success, the error is empty. |
| Sqlpp.ClassifyOutputTrimmed | internal/sqlpp/executor.go:161-164 | The output is the trimmed standard output, on failure too. It is itself trimmed. |
| Sqlpp.ClassifyWellFormed | internal/sqlpp/executor.go:166-172 | A result carries an error text exactly when it failed, given that process errors have non-empty texts. |
| Sqlpp.RunExit | internal/sqlpp/executor.go:79 | `Run` reports a launch failure as the run's error, with nothing captured. |
| Sqlpp.TransportErrorsOnlyBeforeExit | internal/sqlpp/executor.go:136-155 | A transport error occurs exactly when a payload was to be sent and the process never ran to its end (pipe, start or write failed). A process that exits with any status never yields one. |
| Sqlpp.OutcomeWellFormed | internal/sqlpp/executor.go:81-92 | Both ways of running yield well-formed results from outcomes with non-empty error texts. |
| Sqlpp.ServeWellFormed | internal/sqlpp/executor.go:59-258 | Every successful answer of the executor is well formed. |
| Sqlpp.RunStdinAsWritten | internal/sqlpp/executor.go:136-159 | The protocol as written. The result is "failed to create stdin pipe/start command/write to stdin: ..." or the classified exit. The steps are a prefix of pipe, start, write, close, wait. Only the pipe step is taken when the pipe fails, and only pipe and start when the start fails. Standard input is closed once the process has started. All five steps are taken exactly when the process ran, and a failed write stops after close. |
| Sqlpp.RunStdin | internal/sqlpp/executor.go:207-230 | The same results. After a pipe failure only the pipe step is taken, and after a start failure only pipe and start. Otherwise all five steps are taken, so the started process is always closed and waited for. |
| Sqlpp.ValidateExecutableClassifies | internal/sqlpp/executor.go:261-283 | Validation succeeds exactly when `--help` exits cleanly. Non-blank standard error gives "sqlpp executable validation failed: <stderr>". A process that cannot be started, or that fails with blank standard error, gives "sqlpp executable not found or not working: <error>". |
| Config.Checks | internal/config/config.go:115-152 | The five checks in the source's order. Stated by `Config.ValidateAcceptsExactly` and the ordering lemmas below. |
| Config.ConfigError.Message | internal/config/config.go:117-149 | The error texts of validation. Stated by `Config.MessageNamesCheck`. |
| Config.MessageNamesCheck | internal/config/config.go:117-149 | Each error text opens with the name of the failed check ("invalid transport: ", "invalid port: ", "invalid log level: ", "invalid log format: ", "invalid sqlpp timeout: "), followed by the offending value. |
| Config.FirstFailure | internal/config/config.go:115-152 | None exactly when every check passes. Otherwise the error of a failing check all of whose predecessors pass. |
| Config.FirstFailureSkipsPassing | internal/config/config.go:115-152 | Passing checks at the head of the chain do not influence the outcome. |
| Config.FirstFailureIsEarliest | internal/config/config.go:115-152 | A failing check whose predecessors all pass is the one reported. |
| Config.Validate | internal/config/config.go:115-152 | The source's sequence of checks, with its log-level loop and early exit, returns the first failure of the ordered chain transport, port, level, format, timeout. |
| Config.ValidateAcceptsExactly | internal/config/config.go:115-152 | A configuration is accepted exactly when all of these hold: the transport is stdio or http; an http port lies in 1..65535; the level is one of the seven known ones; the format is json or text; the timeout is at least 1. |
| Config.TransportCheckedFirst | internal/config/config.go:117-119 | An invalid transport is reported whatever else is wrong. |
| Config.StdioIgnoresPort | internal/config/config.go:122-126 | A stdio configuration is judged the same whatever its port. |
| Config.LevelCheckedBeforeFormatAndTimeout | internal/config/config.go:129-139 | On a stdio configuration an unknown level is reported even when format and timeout are also wrong. |
| Config.GetSqlppExecutablePath | internal/config/config.go:155-167 | The three-case path rule. Stated by `Config.ExecutablePathNamesSqlpp` and `Config.ExecutablePathStable`. |
| Config.ExecutablePathNamesSqlpp | internal/config/config.go:155-167 | The resolved path always has base name `sqlpp`. This covers the empty path (`.bin/sqlpp`), a path already naming sqlpp, and a directory. |
| Config.ExecutablePathStable | internal/config/config.go:160-166 | Resolving a resolved path changes nothing. With the model's Join, which does not apply `filepath.Clean`, a configured path is also a prefix of the resolved one (see Left out). |
| Paths.Base | internal/config/config.go:161 | `filepath.Base`: "." for the empty path, and "/" for a path made only of separators. Otherwise it is the last segment after trailing separators are removed, so it is non-empty and holds no separator. |
| Paths.Join | internal/config/config.go:157 | Two-element `filepath.Join` without `Clean`. Stated by `Paths.BaseOfJoin` and `Paths.JoinExtendsDir`. |
| Paths.BaseOfJoin | internal/config/config.go:157 | Joining a separator-free, non-empty name onto any directory gives a path whose base is that name. |
| Paths.JoinExtendsDir | internal/config/config.go:166 | The model's Join, which does not apply `filepath.Clean`, keeps the directory as a prefix (see Left out). |
| Paths.StripTrailingSeparators | internal/config/config.go:161 | The path without its trailing separators: a prefix of the input that does not end with a separator, and only separators were removed. |
| Paths.LastSegment | internal/config/config.go:161 | A separator-free suffix of the input, which is either the whole input or preceded by a separator. |
| Paths.LastSegmentStep | internal/config/config.go:161 | A last character that is not a separator extends the last segment of the rest. |
| Paths.LastSegmentOfSuffix | internal/config/config.go:161 | The last segment of prefix + name is name, when name has no separator and the prefix is empty or ends with one. |
| Text.SkipSpace | internal/sqlpp/executor.go:83 | The end of the white space run starting at an index. Everything skipped is white space, and it stops at a non-space character or the end. |
| Text.SkipSpaceBack | internal/sqlpp/executor.go:83 | The start of the white space run ending at an index, no lower than a bound. Everything skipped is white space, and it stops at a non-space character or the bound. |
| Text.NatToDecimal | internal/config/config.go:124 | `%d` of a number in an error message: a non-empty string of digits. |
| Text.NatToDecimalValue | internal/config/config.go:124 | The digits of `%d` denote the number rendered, so reading them back gives it. |
| Text.NoLeadingZero | internal/config/config.go:124 | Like `%d`, the rendering of a positive number never starts with a zero. |
| Text.IntToDecimal | internal/config/config.go:148 | `%d` of a signed number: a minus sign before the digits of a negative one. Its digits are stated by `Text.NatToDecimalValue`. |
| Text.TrimSpace | internal/sqlpp/executor.go:83 | `strings.TrimSpace`: the result neither starts nor ends with white space, and is no longer than the input. |
| Text.TrimSpaceIsSlice | internal/sqlpp/executor.go:87 | The trimmed text is the slice of the input that starts where the leading white space ends. All that was cut off on either side is white space. |
| Text.TrimSpaceEmptyIff | internal/sqlpp/executor.go:88 | Trimming leaves nothing exactly when the input is all white space. |
| Text.TrimSpaceIdempotent | internal/sqlpp/executor.go:163 | Trimming twice is trimming once. |

## Left out

- Real process execution is not modelled: `exec.CommandContext`, deadlines, `context.WithTimeout`, the 10-second validation deadline and killing on timeout. What happens to a launch is an oracle value. A process killed at its deadline is an `Exited` outcome carrying an error.
- `NewExecutor` and the timeout arithmetic are not modelled. `Sqlpp.Executor` keeps the configured seconds, and nothing uses them.
- Logging is not modelled: every logrus call in the dispatcher and the executor. `TruncateForLogging` is modelled on its own; the trace-level preview it feeds is not.
- `formatResult` (JSON parse and indentation) is not modelled. It is a parameter `Formatter` applied to successful output.
- Tools.TruncateForLogging: counts characters, where the source counts bytes of UTF-8 and may cut inside a character. Strings here are sequences of characters.
- Text.TrimSpace: works on characters, not on UTF-8 bytes. Invalid byte sequences are not represented.
- Paths.Join: `filepath.Clean` is not applied. Joining only avoids doubling a separator the directory already ends with. Paths containing `.`, `..` or repeated separators resolve differently from the source.
- Tools.GetStringArg: JSON numbers are modelled as reals and arrays and objects as one opaque value. Only the string/non-string distinction matters to the source.
- Tools.ListingToolDescriptors: Go distinguishes a nil `Required` slice from an empty one when serialising. The model has one empty list.
- Config.Load, setDefaults and the environment and file sources are not modelled. A `Config` value is given as it is after loading.
- The server transports, registration with the tool-call SDK, signal handling, the file logger, the command-line entry point and the deployment stacks are not part of this model.
- Sqlpp.ExecuteStdinCommandWithOptions: runs the corrected protocol `Sqlpp.RunStdin`. After a failed write it also takes a Wait step, which executor.go:152-155 does not take; the result returned is the same. The code as written is `Sqlpp.RunStdinAsWritten` (see Findings).
- Sqlpp.ExecuteStdinCommand: runs the corrected protocol as well. It takes a Wait step after a failed write that executor.go:223-226 does not take; the result is the same.
- Config.ExecutablePathStable: the prefix half holds for the model's Join only. Go's `filepath.Join` cleans its result, so `./bin` resolves to `bin/sqlpp` and `a//b` to `a/b/sqlpp`. The idempotence half does not depend on Join.
- Paths.JoinExtendsDir: a property of the model's Join without `Clean`. Go's `filepath.Join` breaks it for directories that are not already clean (a `.` or `..` segment, or a repeated separator).
- Sqlpp.RunStdinAsWritten: the as-written method records a step trace but not the pipe's byte stream. A partial write is a `WriteFailed` outcome.

## Findings

| source | as written | input that shows it | evidently intended | confidence | as-written member | corrected member |
|---|---|---|---|---|---|---|
| internal/sqlpp/executor.go:152-155 | When writing the payload fails, standard input is closed and the function returns without `cmd.Wait()`. The started process is never reaped. The same happens at lines 223-226. | An outcome `WriteFailed("broken pipe")`, for a process that exits before reading its input. The steps taken are pipe, start, write, close, with no wait. | Every started process is closed and waited for before returning, on the failure path too. The returned error stays the same. | medium, not executed | Sqlpp.RunStdinAsWritten | Sqlpp.RunStdin |
