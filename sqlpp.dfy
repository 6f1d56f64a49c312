/** The command executor (internal/sqlpp/executor.go): how each operation launches the external
    `sqlpp` tool, what it writes to the tool's standard input, and how the finished process is
    turned into a SqlppResult or a transport error.

    The operating system is a parameter: a `System` maps what is launched (an Invocation) to what
    happened to it (a ProcessOutcome). Deadlines, killing on timeout and the bytes of the pipes
    are not modelled; a process killed at its deadline is an `Exited` outcome with an error. */
module Sqlpp {
  import opened Wrappers
  import opened Types
  import Text

  /** The executor's fixed configuration. */
  datatype Executor = Executor(executablePath: string, timeoutSeconds: int)

  /** The calls the tool dispatcher makes on an executor (internal/sqlpp/interface.go). */
  datatype Request =
    | SchemaRequest(schemaType: string, connection: string, filter: string, output: string)
    | SqlRequest(connection: string, command: string, output: string)
    | ConnectionsRequest
    | DriversRequest

  /** One launch of the external tool: the executable, its argument vector and, for the
      standard-input protocol, the payload written to it. */
  datatype Invocation = Invocation(path: string, args: seq<string>, stdin: Option<string>)

  /** A process that ran: the error `Wait`/`Run` returned (None for a zero exit status) and the
      captured output streams. */
  datatype Exit = Exit(err: Option<string>, stdout: string, stderr: string)

  /** What became of a launch: the stdin pipe could not be created, the process could not be
      started, the payload could not be written, or the process ran to its end. */
  datatype ProcessOutcome =
    | PipeFailed(message: string)
    | StartFailed(message: string)
    | WriteFailed(message: string)
    | Exited(exit: Exit)

  type System = Invocation -> ProcessOutcome

  /** The steps a stdin-protocol run takes on the process, in order. */
  datatype Step = CreatePipe | Start(args: seq<string>) | Write(payload: string) | CloseStdin | Wait

  const StdinFlag := "--stdin"
  const ConnectionFlag := "--connection"
  const OutputFlag := "--output"
  const ListConnectionsFlag := "--list-connections"
  const HelpFlag := "--help"
  const SchemaDirective := "@schema-"
  const DriversDirective := "@drivers"

  // ---------------------------------------------------------------- standard-input payloads

  /** The schema directive: `@schema-<type>`, followed by a space and the filter when one is given. */
  function SchemaPayload(schemaType: string, filter: string): string {
    if filter == "" then SchemaDirective + schemaType
    else SchemaDirective + schemaType + " " + filter
  }

  /** Reads a schema directive back into its type (up to the first space) and filter. */
  function ParseSchemaPayload(payload: string): Option<(string, string)> {
    if |payload| < |SchemaDirective| || payload[..|SchemaDirective|] != SchemaDirective then None
    else
      var rest := payload[|SchemaDirective|..];
      var k := Text.IndexOf(rest, ' ');
      if k == -1 then Some((rest, "")) else Some((rest[..k], rest[k + 1..]))
  }

  /** The directive loses nothing: for a schema type without spaces (every type the tools use),
      type and filter are recovered, and an empty filter is recovered as empty. It adds nothing
      either: a separating space is there only when a filter follows. */
  lemma SchemaPayloadRoundTrip(schemaType: string, filter: string)
    requires ' ' !in schemaType
    ensures ParseSchemaPayload(SchemaPayload(schemaType, filter)) == Some((schemaType, filter))
    ensures |SchemaPayload(schemaType, filter)| ==
      |SchemaDirective| + |schemaType| + (if filter == "" then 0 else 1 + |filter|)
  {
    var p := SchemaPayload(schemaType, filter);
    assert p[..|SchemaDirective|] == SchemaDirective;
    var rest := p[|SchemaDirective|..];
    if filter == "" {
      assert rest == schemaType;
    } else {
      assert rest == schemaType + " " + filter;
      assert rest[|schemaType|] == ' ';
      assert rest[..|schemaType|] == schemaType;
      assert Text.IndexOf(rest, ' ') == |schemaType|;
      assert rest[|schemaType| + 1..] == filter;
    }
  }

  // ---------------------------------------------------------------- argument vectors

  /** A flag and its value, or nothing when the value is empty. */
  function FlagIfSet(flag: string, value: string): seq<string> {
    if value == "" then [] else [flag, value]
  }

  /** The argument vector of the stdin protocol with options: `--stdin`, then `--connection c`
      only for a non-empty c, then `--output o` only for a non-empty o. */
  function StdinArgs(connection: string, output: string): seq<string> {
    [StdinFlag] + FlagIfSet(ConnectionFlag, connection) + FlagIfSet(OutputFlag, output)
  }

  /** Reads `--connection`/`--output` pairs; an option that is absent reads as empty. */
  function ParseOptions(rest: seq<string>, connection: string, output: string): Option<(string, string)>
    decreases |rest|
  {
    if rest == [] then Some((connection, output))
    else if |rest| >= 2 && rest[0] == ConnectionFlag then ParseOptions(rest[2..], rest[1], output)
    else if |rest| >= 2 && rest[0] == OutputFlag then ParseOptions(rest[2..], connection, rest[1])
    else None
  }

  /** Reads an argument vector of the stdin protocol back into its connection and output. */
  function ParseStdinArgs(args: seq<string>): Option<(string, string)> {
    if args == [] || args[0] != StdinFlag then None else ParseOptions(args[1..], "", "")
  }

  /** The argument vector determines the options: both are recovered, empty meaning absent. A flag
      is sent only for a non-empty value, and the connection comes first. */
  lemma StdinArgsRoundTrip(connection: string, output: string)
    ensures ParseStdinArgs(StdinArgs(connection, output)) == Some((connection, output))
    ensures |StdinArgs(connection, output)| ==
      1 + (if connection == "" then 0 else 2) + (if output == "" then 0 else 2)
    ensures connection != "" ==> StdinArgs(connection, output)[1] == ConnectionFlag
  {
    var args := StdinArgs(connection, output);
    var c := FlagIfSet(ConnectionFlag, connection);
    var o := FlagIfSet(OutputFlag, output);
    assert args[1..] == c + o;
    assert ParseOptions(o, connection, "") == Some((connection, output)) by {
      if output != "" {
        assert o[2..] == [];
      }
    }
    if connection != "" {
      assert (c + o)[2..] == o;
    } else {
      assert c + o == o;
    }
  }

  // ---------------------------------------------------------------- result normalisation

  /** The SqlppResult built from a finished process: success when there was no error, the trimmed
      standard output in every case, and on failure the trimmed standard error, or the error text
      when standard error is blank. */
  function Classify(x: Exit): SqlppResult {
    var stderr := Text.TrimSpace(x.stderr);
    SqlppResult(
      x.err.None?,
      Text.TrimSpace(x.stdout),
      if x.err.None? then "" else if stderr != "" then stderr else x.err.value)
  }

  /** A failed run reports the tool's own diagnostic whenever standard error holds anything but
      white space, and the process error text otherwise; a successful run reports no error. */
  lemma ClassifyDiagnostic(x: Exit)
    ensures Classify(x).success <==> x.err.None?
    ensures x.err.None? ==> Classify(x).error == ""
    ensures x.err.Some? && !Text.AllSpace(x.stderr) ==> Classify(x).error == Text.TrimSpace(x.stderr)
    ensures x.err.Some? && Text.AllSpace(x.stderr) ==> Classify(x).error == x.err.value
  {
    Text.TrimSpaceEmptyIff(x.stderr);
  }

  /** The output is trimmed standard output on success and failure alike, and is itself trimmed. */
  lemma ClassifyOutputTrimmed(x: Exit)
    ensures Classify(x).output == Text.TrimSpace(x.stdout)
    ensures Text.TrimSpace(Classify(x).output) == Classify(x).output
  {
    Text.TrimSpaceIdempotent(x.stdout);
  }

  /** A failed result always carries an error text, provided the process error has one. */
  lemma ClassifyWellFormed(x: Exit)
    requires x.err.Some? ==> x.err.value != ""
    ensures WellFormed(Classify(x))
  {
  }

  // ---------------------------------------------------------------- running the process

  /** What `Run` reports for a launch without payload: the process's own exit when it ran, and
      otherwise the launch failure folded in as the run's error, with nothing captured. */
  function RunExit(o: ProcessOutcome): (x: Exit)
    ensures o.Exited? ==> x == o.exit
    ensures !o.Exited? ==> x.err == Some(o.message) && x.stdout == "" && x.stderr == ""
  {
    match o
    case Exited(x) => x
    case PipeFailed(m) => Exit(Some(m), "", "")
    case StartFailed(m) => Exit(Some(m), "", "")
    case WriteFailed(m) => Exit(Some(m), "", "")
  }

  /** `executeCommand`: a run without standard input. `Run` folds a failure to launch into its
      error, so every outcome becomes a SqlppResult and none is a transport error. */
  function ExecuteCommand(e: Executor, args: seq<string>, os: System): SqlppResult {
    Classify(RunExit(os(Invocation(e.executablePath, args, None))))
  }

  /** What a stdin-protocol run returns for each outcome: the three launch failures are transport
      errors with their context, and a process that ran is classified. */
  function StdinResult(o: ProcessOutcome): Result<SqlppResult> {
    match o
    case PipeFailed(m) => Failure("failed to create stdin pipe: " + m)
    case StartFailed(m) => Failure("failed to start command: " + m)
    case WriteFailed(m) => Failure("failed to write to stdin: " + m)
    case Exited(x) => Success(Classify(x))
  }

  /** Every step of the stdin protocol, in order: create the pipe, start the process with its
      arguments, write the payload, close standard input, wait for the process. */
  function StdinProtocol(args: seq<string>, input: string): seq<Step> {
    [CreatePipe, Start(args), Write(input), CloseStdin, Wait]
  }

  /** The stdin protocol as executor.go writes it: pipe, start, write, close, wait, with an early
      return at each failure. Standard input is closed on every path once the process has started,
      but after a failed write the process is never waited for. */
  method RunStdinAsWritten(e: Executor, args: seq<string>, input: string, os: System)
    returns (res: Result<SqlppResult>, steps: seq<Step>)
    ensures res == StdinResult(os(Invocation(e.executablePath, args, Some(input))))
    ensures 1 <= |steps| && steps <= StdinProtocol(args, input)
    ensures |steps| > 2 ==> |steps| >= 4
    ensures steps == StdinProtocol(args, input) <==> os(Invocation(e.executablePath, args, Some(input))).Exited?
    ensures os(Invocation(e.executablePath, args, Some(input))).WriteFailed? ==> steps == StdinProtocol(args, input)[..4]
    ensures |steps| == 1 <==> os(Invocation(e.executablePath, args, Some(input))).PipeFailed?
    ensures |steps| == 2 <==> os(Invocation(e.executablePath, args, Some(input))).StartFailed?
  {
    var outcome := os(Invocation(e.executablePath, args, Some(input)));
    ghost var protocol := StdinProtocol(args, input);
    steps := [CreatePipe];
    assert steps == protocol[..1];
    if outcome.PipeFailed? {
      return Failure("failed to create stdin pipe: " + outcome.message), steps;
    }
    steps := steps + [Start(args)];
    assert steps == protocol[..2];
    if outcome.StartFailed? {
      return Failure("failed to start command: " + outcome.message), steps;
    }
    steps := steps + [Write(input)];
    assert steps == protocol[..3];
    if outcome.WriteFailed? {
      steps := steps + [CloseStdin];
      assert steps == protocol[..4];
      return Failure("failed to write to stdin: " + outcome.message), steps;
    }
    steps := steps + [CloseStdin];
    steps := steps + [Wait];
    assert steps == protocol;
    res := Success(Classify(outcome.exit));
  }

  /** The stdin protocol with the write-failure path also waiting for the process: once the
      process has been started and the write attempted, standard input is closed and the process
      is reaped, whatever the write did. What it returns is unchanged. */
  method RunStdin(e: Executor, args: seq<string>, input: string, os: System)
    returns (res: Result<SqlppResult>, steps: seq<Step>)
    ensures res == StdinResult(os(Invocation(e.executablePath, args, Some(input))))
    ensures 1 <= |steps| && steps <= StdinProtocol(args, input)
    ensures |steps| > 2 ==> steps == StdinProtocol(args, input)
    ensures |steps| == 1 <==> os(Invocation(e.executablePath, args, Some(input))).PipeFailed?
    ensures |steps| == 2 <==> os(Invocation(e.executablePath, args, Some(input))).StartFailed?
  {
    var outcome := os(Invocation(e.executablePath, args, Some(input)));
    ghost var protocol := StdinProtocol(args, input);
    steps := [CreatePipe];
    assert steps == protocol[..1];
    if outcome.PipeFailed? {
      return Failure("failed to create stdin pipe: " + outcome.message), steps;
    }
    steps := steps + [Start(args)];
    assert steps == protocol[..2];
    if outcome.StartFailed? {
      return Failure("failed to start command: " + outcome.message), steps;
    }
    steps := steps + [Write(input)];
    assert steps == protocol[..3];
    if outcome.WriteFailed? {
      steps := steps + [CloseStdin, Wait];
      assert steps == protocol;
      return Failure("failed to write to stdin: " + outcome.message), steps;
    }
    steps := steps + [CloseStdin];
    steps := steps + [Wait];
    assert steps == protocol;
    res := Success(Classify(outcome.exit));
  }

  // ---------------------------------------------------------------- the executor's operations

  /** The wire contract with the external tool: what each request launches. */
  function InvocationFor(e: Executor, req: Request): Invocation {
    match req
    case SchemaRequest(t, c, f, o) => Invocation(e.executablePath, StdinArgs(c, o), Some(SchemaPayload(t, f)))
    case SqlRequest(c, command, o) => Invocation(e.executablePath, StdinArgs(c, o), Some(command))
    case ConnectionsRequest => Invocation(e.executablePath, [ListConnectionsFlag], None)
    case DriversRequest => Invocation(e.executablePath, [StdinFlag], Some(DriversDirective))
  }

  /** What the executor answers to a request: a run without standard input for a launch without a
      payload, the stdin protocol otherwise. */
  function Serve(e: Executor, os: System, req: Request): Result<SqlppResult> {
    var inv := InvocationFor(e, req);
    if inv.stdin.None? then Success(ExecuteCommand(e, inv.args, os)) else StdinResult(os(inv))
  }

  /** `executeStdinCommandWithOptions`: builds the argument vector flag by flag and runs the stdin
      protocol with `input` as payload. It runs the corrected protocol (RunStdin), which also
      waits for the process after a failed write; its results are those of the code as written. */
  method ExecuteStdinCommandWithOptions(e: Executor, input: string, connection: string, output: string, os: System)
    returns (res: Result<SqlppResult>, steps: seq<Step>)
    ensures res == StdinResult(os(Invocation(e.executablePath, StdinArgs(connection, output), Some(input))))
    ensures 1 <= |steps| && steps <= StdinProtocol(StdinArgs(connection, output), input)
    ensures |steps| > 2 ==> steps == StdinProtocol(StdinArgs(connection, output), input)
    ensures |steps| == 1 <==> os(Invocation(e.executablePath, StdinArgs(connection, output), Some(input))).PipeFailed?
    ensures |steps| == 2 <==> os(Invocation(e.executablePath, StdinArgs(connection, output), Some(input))).StartFailed?
  {
    var args := [StdinFlag];
    if connection != "" {
      args := args + [ConnectionFlag, connection];
    }
    if output != "" {
      args := args + [OutputFlag, output];
    }
    assert args == StdinArgs(connection, output);
    res, steps := RunStdin(e, args, input, os);
  }

  /** `executeStdinCommand`: the stdin protocol with the bare `--stdin` flag, run in its corrected
      form (RunStdin), like `executeStdinCommandWithOptions`. */
  method ExecuteStdinCommand(e: Executor, input: string, os: System)
    returns (res: Result<SqlppResult>, steps: seq<Step>)
    ensures res == StdinResult(os(Invocation(e.executablePath, [StdinFlag], Some(input))))
    ensures 1 <= |steps| && steps <= StdinProtocol([StdinFlag], input)
    ensures |steps| > 2 ==> steps == StdinProtocol([StdinFlag], input)
    ensures |steps| == 1 <==> os(Invocation(e.executablePath, [StdinFlag], Some(input))).PipeFailed?
    ensures |steps| == 2 <==> os(Invocation(e.executablePath, [StdinFlag], Some(input))).StartFailed?
  {
    res, steps := RunStdin(e, [StdinFlag], input, os);
  }

  /** `ExecuteSchemaCommand`: the schema directive sent through the stdin protocol with options. */
  method ExecuteSchemaCommand(e: Executor, schemaType: string, connection: string, filter: string, output: string, os: System)
    returns (res: Result<SqlppResult>, steps: seq<Step>)
    ensures res == Serve(e, os, SchemaRequest(schemaType, connection, filter, output))
    ensures 1 <= |steps| && steps <= StdinProtocol(StdinArgs(connection, output), SchemaPayload(schemaType, filter))
    ensures |steps| > 2 ==> steps == StdinProtocol(StdinArgs(connection, output), SchemaPayload(schemaType, filter))
    ensures |steps| == 1 <==> os(InvocationFor(e, SchemaRequest(schemaType, connection, filter, output))).PipeFailed?
    ensures |steps| == 2 <==> os(InvocationFor(e, SchemaRequest(schemaType, connection, filter, output))).StartFailed?
  {
    var payload := SchemaDirective + schemaType;
    if filter != "" {
      payload := payload + " " + filter;
    }
    assert payload == SchemaPayload(schemaType, filter);
    assert InvocationFor(e, SchemaRequest(schemaType, connection, filter, output)) ==
      Invocation(e.executablePath, StdinArgs(connection, output), Some(payload));
    res, steps := ExecuteStdinCommandWithOptions(e, payload, connection, output, os);
  }

  /** `ExecuteSQLCommand`: the SQL text, verbatim, as the payload of the stdin protocol with options. */
  method ExecuteSQLCommand(e: Executor, connection: string, command: string, output: string, os: System)
    returns (res: Result<SqlppResult>, steps: seq<Step>)
    ensures res == Serve(e, os, SqlRequest(connection, command, output))
    ensures 1 <= |steps| && steps <= StdinProtocol(StdinArgs(connection, output), command)
    ensures |steps| > 2 ==> steps == StdinProtocol(StdinArgs(connection, output), command)
    ensures |steps| == 1 <==> os(InvocationFor(e, SqlRequest(connection, command, output))).PipeFailed?
    ensures |steps| == 2 <==> os(InvocationFor(e, SqlRequest(connection, command, output))).StartFailed?
  {
    assert InvocationFor(e, SqlRequest(connection, command, output)) ==
      Invocation(e.executablePath, StdinArgs(connection, output), Some(command));
    res, steps := ExecuteStdinCommandWithOptions(e, command, connection, output, os);
  }

  /** `ListConnections`: a run with the single flag `--list-connections` and no payload. */
  function ListConnections(e: Executor, os: System): Result<SqlppResult> {
    Success(ExecuteCommand(e, [ListConnectionsFlag], os))
  }

  /** `ListDrivers`: the `@drivers` directive through the bare stdin protocol. */
  method ListDrivers(e: Executor, os: System) returns (res: Result<SqlppResult>, steps: seq<Step>)
    ensures res == Serve(e, os, DriversRequest)
    ensures 1 <= |steps| && steps <= StdinProtocol([StdinFlag], DriversDirective)
    ensures |steps| > 2 ==> steps == StdinProtocol([StdinFlag], DriversDirective)
    ensures |steps| == 1 <==> os(InvocationFor(e, DriversRequest)).PipeFailed?
    ensures |steps| == 2 <==> os(InvocationFor(e, DriversRequest)).StartFailed?
  {
    assert InvocationFor(e, DriversRequest) == Invocation(e.executablePath, [StdinFlag], Some(DriversDirective));
    res, steps := ExecuteStdinCommand(e, DriversDirective, os);
  }

  /** Listing connections never fails at the transport level, whatever the process does. */
  lemma ListConnectionsNeverTransportFails(e: Executor, os: System)
    ensures ListConnections(e, os) == Serve(e, os, ConnectionsRequest)
    ensures ListConnections(e, os).Success?
  {
    assert InvocationFor(e, ConnectionsRequest) == Invocation(e.executablePath, [ListConnectionsFlag], None);
  }

  /** A process that ran to its end, with any exit status, never yields a transport error: those
      are reserved for a pipe that could not be created, a process that could not be started and
      a payload that could not be written, and only on the stdin protocol. */
  lemma TransportErrorsOnlyBeforeExit(e: Executor, os: System, req: Request)
    ensures Serve(e, os, req).Failure? <==>
      InvocationFor(e, req).stdin.Some? && !os(InvocationFor(e, req)).Exited?
  {
  }

  /** A process outcome whose error texts are all non-empty. */
  predicate ReportsErrors(o: ProcessOutcome) {
    if o.Exited? then o.exit.err.Some? ==> o.exit.err.value != "" else o.message != ""
  }

  /** Both ways of running a process yield a well-formed result from an outcome whose error texts
      are non-empty. */
  lemma OutcomeWellFormed(o: ProcessOutcome)
    requires ReportsErrors(o)
    ensures WellFormed(Classify(RunExit(o)))
    ensures StdinResult(o).Success? ==> WellFormed(StdinResult(o).value)
  {
    if o.Exited? {
      ClassifyWellFormed(o.exit);
      assert StdinResult(o) == Success(Classify(o.exit));
    } else {
      var x := RunExit(o);
      assert x.err == Some(o.message);
      ClassifyWellFormed(x);
    }
  }

  /** Results are well formed (an error text exactly on failure) whenever the system's own error
      texts are non-empty. */
  lemma ServeWellFormed(e: Executor, os: System, req: Request)
    requires forall inv :: ReportsErrors(os(inv))
    ensures Serve(e, os, req).Success? ==> WellFormed(Serve(e, os, req).value)
  {
    var inv := InvocationFor(e, req);
    OutcomeWellFormed(os(inv));
    if inv.stdin.None? {
      assert inv == Invocation(e.executablePath, inv.args, None);
    }
  }

  /** Schema and SQL requests launch `sqlpp --stdin` with exactly the options given and the
      expected payload, and both can be read back from what is launched. */
  lemma StdinRequestsRoundTrip(e: Executor, req: Request)
    requires req.SchemaRequest? ==> ' ' !in req.schemaType
    requires req.SchemaRequest? || req.SqlRequest?
    ensures ParseStdinArgs(InvocationFor(e, req).args) == Some((req.connection, req.output))
    ensures req.SchemaRequest? ==>
      ParseSchemaPayload(InvocationFor(e, req).stdin.value) == Some((req.schemaType, req.filter))
    ensures req.SqlRequest? ==> InvocationFor(e, req).stdin == Some(req.command)
  {
    StdinArgsRoundTrip(req.connection, req.output);
    if req.SchemaRequest? {
      SchemaPayloadRoundTrip(req.schemaType, req.filter);
    }
  }

  // ---------------------------------------------------------------- validation of the executable

  /** `ValidateExecutable`: runs `sqlpp --help` and reports None when it exits cleanly; otherwise
      an error quoting the tool's trimmed standard error when there is any, or one saying the
      executable was not found or is not working, wrapping the process error. */
  function ValidateExecutable(e: Executor, os: System): Option<string> {
    var x := RunExit(os(Invocation(e.executablePath, [HelpFlag], None)));
    if x.err.None? then None
    else
      var stderr := Text.TrimSpace(x.stderr);
      if stderr != "" then Some("sqlpp executable validation failed: " + stderr)
      else Some("sqlpp executable not found or not working: " + x.err.value)
  }

  /** Validation succeeds exactly when `--help` exits cleanly; an executable that cannot even be
      started, or that fails without a word on standard error, is reported as not found or not
      working, and a tool that complains on standard error has its complaint quoted. */
  lemma ValidateExecutableClassifies(e: Executor, os: System)
    ensures var o := os(Invocation(e.executablePath, [HelpFlag], None));
      && (ValidateExecutable(e, os).None? <==> o.Exited? && o.exit.err.None?)
      && (o.StartFailed? ==>
            ValidateExecutable(e, os) == Some("sqlpp executable not found or not working: " + o.message))
      && (o.Exited? && o.exit.err.Some? && !Text.AllSpace(o.exit.stderr) ==>
            ValidateExecutable(e, os) == Some("sqlpp executable validation failed: " + Text.TrimSpace(o.exit.stderr)))
      && (o.Exited? && o.exit.err.Some? && Text.AllSpace(o.exit.stderr) ==>
            ValidateExecutable(e, os) == Some("sqlpp executable not found or not working: " + o.exit.err.value))
  {
    var o := os(Invocation(e.executablePath, [HelpFlag], None));
    Text.TrimSpaceEmptyIff("");
    if o.Exited? {
      Text.TrimSpaceEmptyIff(o.exit.stderr);
    }
  }
}
