/** The tool dispatcher (internal/tools/tools.go): the fixed catalog of eight tools, the routing of
    a tool name to an executor request, argument extraction and the three classes of error.

    The executor is a parameter (the ExecutorInterface of internal/sqlpp/interface.go): a function
    from the request made to what the executor returns, a SqlppResult or a transport error. The
    JSON pretty-printing of successful output (`formatResult`) is a parameter too. */
module Tools {
  import opened Wrappers
  import opened Types
  import Sqlpp
  import Text

  // ---------------------------------------------------------------- log previews

  const MaxLogOutputLength := 500
  const TruncationMarker := "... (truncated)"

  /** The preview of a result written to the trace log: the output itself when it is short, and
      otherwise its first 500 characters followed by the truncation marker. */
  function TruncateForLogging(output: string): (r: string)
    ensures |r| <= MaxLogOutputLength + |TruncationMarker|
    ensures |output| <= MaxLogOutputLength ==> r == output
    ensures |output| > MaxLogOutputLength ==>
      |r| == MaxLogOutputLength + |TruncationMarker| && output[..MaxLogOutputLength] <= r
      && r[MaxLogOutputLength..] == TruncationMarker
  {
    if |output| <= MaxLogOutputLength then output
    else output[..MaxLogOutputLength] + TruncationMarker
  }

  // ---------------------------------------------------------------- arguments

  /** A loosely typed argument value as it arrives from the caller. The contents of arrays and
      objects are never inspected. */
  datatype Value = Str(s: string) | Number(n: real) | Boolean(b: bool) | Null | Composite

  type Arguments = map<string, Value>

  /** `getStringArg`: the value under `key` when it is present and a string, the default otherwise
      (absent, null, a number or any other non-string). */
  function GetStringArg(arguments: Arguments, key: string, defaultValue: string): (r: string)
    ensures key in arguments && arguments[key].Str? ==> r == arguments[key].s
    ensures !(key in arguments && arguments[key].Str?) ==> r == defaultValue
  {
    if key in arguments && arguments[key].Str? then arguments[key].s else defaultValue
  }

  /** A non-string value reads exactly as an absent key, and other keys never matter. */
  lemma GetStringArgPermissive(arguments: Arguments, key: string, other: string, v: Value, defaultValue: string)
    requires !v.Str?
    requires other != key
    ensures GetStringArg(arguments[key := v], key, defaultValue) == GetStringArg(arguments - {key}, key, defaultValue)
    ensures GetStringArg(arguments[other := v], key, defaultValue) == GetStringArg(arguments, key, defaultValue)
  {
  }

  // ---------------------------------------------------------------- the catalog

  /** One argument declared in a tool's input schema. */
  datatype Property = Property(typ: string, description: string)

  datatype InputSchema = InputSchema(typ: string, properties: map<string, Property>, required: seq<string>)

  /** A catalog entry: name, description and input schema. */
  datatype Tool = Tool(name: string, description: string, inputSchema: InputSchema)

  const SchemaTypes: seq<string> := ["all", "tables", "views", "procedures", "functions"]

  // The descriptions shown to the caller, word for word.
  const ConnectionDescription := "Database connection name to use"
  const FilterDescription := "Filter pattern to apply to results (optional)"
  const OutputDescription := "Output format (json, table, csv, etc.)"
  const CommandDescription := "SQL command(s) to execute. Multiple commands can be separated by GO statements"
  const SchemaAllDescription :=
    "Retrieve all schema information (tables, views, procedures, functions) from the database"
  const SchemaTablesDescription := "Retrieve table schema information from the database"
  const SchemaViewsDescription := "Retrieve view schema information from the database"
  const SchemaProceduresDescription := "Retrieve stored procedure schema information from the database"
  const SchemaFunctionsDescription := "Retrieve function schema information from the database"
  const ListConnectionsDescription := "List all available database connections"
  const ExecuteSqlDescription := "Execute SQL commands against the database"
  const ListDriversDescription := "List all available database drivers"

  /** `createSchemaToolSchema`: connection (required), filter and output, all strings. */
  function CreateSchemaToolSchema(): InputSchema {
    InputSchema(
      "object",
      map[
        "connection" := Property("string", ConnectionDescription),
        "filter" := Property("string", FilterDescription),
        "output" := Property("string", OutputDescription)],
      ["connection"])
  }

  function CreateSchemaAllTool(): Tool {
    Tool("list_schema_all", SchemaAllDescription, CreateSchemaToolSchema())
  }

  function CreateSchemaTablesTool(): Tool {
    Tool("list_schema_tables", SchemaTablesDescription, CreateSchemaToolSchema())
  }

  function CreateSchemaViewsTool(): Tool {
    Tool("list_schema_views", SchemaViewsDescription, CreateSchemaToolSchema())
  }

  function CreateSchemaProceduresTool(): Tool {
    Tool("list_schema_procedures", SchemaProceduresDescription, CreateSchemaToolSchema())
  }

  function CreateSchemaFunctionsTool(): Tool {
    Tool("list_schema_functions", SchemaFunctionsDescription, CreateSchemaToolSchema())
  }

  /** The listing tools take no arguments: no properties and no required list. */
  function CreateListConnectionsTool(): Tool {
    Tool("list_connections", ListConnectionsDescription, InputSchema("object", map[], []))
  }

  function CreateExecuteSqlTool(): Tool {
    Tool("execute_sql_command", ExecuteSqlDescription,
      InputSchema(
        "object",
        map[
          "connection" := Property("string", ConnectionDescription),
          "command" := Property("string", CommandDescription),
          "output" := Property("string", OutputDescription)],
        ["connection", "command"]))
  }

  function CreateDriversTool(): Tool {
    Tool("list_drivers", ListDriversDescription, InputSchema("object", map[], []))
  }

  /** `GetTools`: the catalog, in its fixed order. */
  function GetTools(): seq<Tool> {
    [ CreateSchemaAllTool(), CreateSchemaTablesTool(), CreateSchemaViewsTool(),
      CreateSchemaProceduresTool(), CreateSchemaFunctionsTool(), CreateListConnectionsTool(),
      CreateExecuteSqlTool(), CreateDriversTool() ]
  }

  function Names(tools: seq<Tool>): (names: seq<string>)
    ensures |names| == |tools|
    ensures forall i | 0 <= i < |tools| :: names[i] == tools[i].name
  {
    if tools == [] then [] else [tools[0].name] + Names(tools[1..])
  }

  /** The names the dispatcher answers to. */
  const ToolNames: seq<string> :=
    [ "list_schema_all", "list_schema_tables", "list_schema_views", "list_schema_procedures",
      "list_schema_functions", "list_connections", "execute_sql_command", "list_drivers" ]

  /** The catalog holds exactly eight tools, in this order. */
  lemma CatalogNamesInOrder()
    ensures Names(GetTools()) == ToolNames
  {
    var tools := GetTools();
    var names := Names(tools);
    forall i | 0 <= i < |ToolNames|
      ensures names[i] == ToolNames[i]
    {
      assert names[i] == tools[i].name;
    }
  }

  /** No two tools share a name. */
  lemma ToolNamesDistinct()
    ensures forall i, j | 0 <= i < j < |ToolNames| :: ToolNames[i] != ToolNames[j]
  {
    // the eight names have eight different lengths
    var lengths := seq(|ToolNames|, i requires 0 <= i < |ToolNames| => |ToolNames[i]|);
    assert lengths == [15, 18, 17, 22, 21, 16, 19, 12];
    forall i, j | 0 <= i < j < |ToolNames|
      ensures ToolNames[i] != ToolNames[j]
    {
      assert lengths[i] != lengths[j];
    }
  }

  /** A descriptor is an object schema whose declared arguments are all strings and whose
      required arguments are all declared. */
  predicate ConsistentSchema(schema: InputSchema) {
    && schema.typ == "object"
    && (forall p | p in schema.properties :: schema.properties[p].typ == "string")
    && (forall k | 0 <= k < |schema.required| :: schema.required[k] in schema.properties)
  }

  /** The five schema tools declare connection, filter and output, and require only connection. */
  lemma SchemaToolDescriptors()
    ensures forall i | 0 <= i < 5 ::
      && GetTools()[i].inputSchema.properties.Keys == {"connection", "filter", "output"}
      && GetTools()[i].inputSchema.required == ["connection"]
  {
    SchemaToolSchemaShape();
    var tools := GetTools();
    forall i | 0 <= i < 5
      ensures tools[i].inputSchema == CreateSchemaToolSchema()
    {
    }
  }

  /** The SQL tool declares connection, command and output, and requires connection then command. */
  lemma SqlToolDescriptor()
    ensures GetTools()[6].inputSchema.properties.Keys == {"connection", "command", "output"}
    ensures GetTools()[6].inputSchema.required == ["connection", "command"]
  {
    SqlToolSchemaShape();
  }

  /** The two listing tools declare and require nothing. */
  lemma ListingToolDescriptors()
    ensures GetTools()[5].inputSchema.properties == map[] && GetTools()[5].inputSchema.required == []
    ensures GetTools()[7].inputSchema.properties == map[] && GetTools()[7].inputSchema.required == []
  {
  }

  /** Every descriptor in the catalog is consistent. */
  lemma CatalogConsistent()
    ensures forall i | 0 <= i < |GetTools()| :: ConsistentSchema(GetTools()[i].inputSchema)
  {
    SchemaToolSchemaShape();
    SqlToolSchemaShape();
    var tools := GetTools();
    assert ConsistentSchema(InputSchema("object", map[], []));
    forall i | 0 <= i < |tools|
      ensures ConsistentSchema(tools[i].inputSchema)
    {
    }
  }

  lemma SchemaToolSchemaShape()
    ensures CreateSchemaToolSchema().properties.Keys == {"connection", "filter", "output"}
    ensures ConsistentSchema(CreateSchemaToolSchema())
  {
    var schema := CreateSchemaToolSchema();
    assert schema.properties.Keys == {"connection", "filter", "output"};
  }

  lemma SqlToolSchemaShape()
    ensures CreateExecuteSqlTool().inputSchema.properties.Keys == {"connection", "command", "output"}
    ensures ConsistentSchema(CreateExecuteSqlTool().inputSchema)
  {
    var sql := CreateExecuteSqlTool().inputSchema;
    assert sql.properties.Keys == {"connection", "command", "output"};
  }

  // ---------------------------------------------------------------- errors

  const SchemaContext := "error executing schema command"
  const ConnectionsContext := "error listing connections"
  const SqlContext := "error executing SQL command"
  const DriversContext := "error listing drivers"

  /** The three classes of failure: a call made wrongly (unknown tool, missing argument), a
      transport error from the executor wrapped with the operation's context, and a tool run that
      reported failure. */
  datatype ToolError =
    | UnknownTool(name: string)
    | MissingParameter(parameter: string)
    | ExecutorError(context: string, cause: string)
    | CommandFailed(detail: string)
  {
    predicate IsValidation() {
      UnknownTool? || MissingParameter?
    }

    /** The text of the error the caller sees. */
    function Message(): string {
      match this
      case UnknownTool(n) => "unknown tool: " + n
      case MissingParameter(p) => p + " parameter is required"
      case ExecutorError(context, cause) => context + ": " + cause
      case CommandFailed(detail) => "sqlpp command failed: " + detail
    }
  }

  /** What ExecuteTool returns: a text and an optional error. */
  datatype Reply = Reply(text: string, err: Option<ToolError>)

  type Executor = Sqlpp.Request -> Result<SqlppResult>

  /** The `formatResult` hook applied to successful output. */
  type Formatter = string -> string

  // ---------------------------------------------------------------- dispatch

  /** The common tail of every handler: a transport error is wrapped with the context, a failed
      run becomes a command failure carrying its error text, and a successful run's output is
      formatted. */
  function Finish(context: string, outcome: Result<SqlppResult>, format: Formatter): Reply {
    match outcome
    case Failure(cause) => Reply("", Some(ExecutorError(context, cause)))
    case Success(result) =>
      if !result.success then Reply("", Some(CommandFailed(result.error)))
      else Reply(format(result.output), None)
  }

  /** `executeSchemaCommand`: connection, filter and output from the arguments; the connection
      must be non-empty before the executor is asked. */
  function ExecuteSchemaCommand(schemaType: string, arguments: Arguments, executor: Executor, format: Formatter): Reply {
    var connection := GetStringArg(arguments, "connection", "");
    var filter := GetStringArg(arguments, "filter", "");
    var output := GetStringArg(arguments, "output", "");
    if connection == "" then Reply("", Some(MissingParameter("connection")))
    else Finish(SchemaContext, executor(Sqlpp.SchemaRequest(schemaType, connection, filter, output)), format)
  }

  /** `executeListConnections`: ignores its arguments. */
  function ExecuteListConnections(arguments: Arguments, executor: Executor, format: Formatter): Reply {
    Finish(ConnectionsContext, executor(Sqlpp.ConnectionsRequest), format)
  }

  /** `executeSQL`: the connection is checked first, then the command. */
  function ExecuteSql(arguments: Arguments, executor: Executor, format: Formatter): Reply {
    var connection := GetStringArg(arguments, "connection", "");
    var command := GetStringArg(arguments, "command", "");
    var output := GetStringArg(arguments, "output", "");
    if connection == "" then Reply("", Some(MissingParameter("connection")))
    else if command == "" then Reply("", Some(MissingParameter("command")))
    else Finish(SqlContext, executor(Sqlpp.SqlRequest(connection, command, output)), format)
  }

  /** `executeDrivers`: ignores its arguments. */
  function ExecuteDrivers(arguments: Arguments, executor: Executor, format: Formatter): Reply {
    Finish(DriversContext, executor(Sqlpp.DriversRequest), format)
  }

  /** `ExecuteTool`: routes the name to its handler; any other name is an unknown tool. */
  function ExecuteTool(name: string, arguments: Arguments, executor: Executor, format: Formatter): Reply {
    match name
    case "list_schema_all" => ExecuteSchemaCommand("all", arguments, executor, format)
    case "list_schema_tables" => ExecuteSchemaCommand("tables", arguments, executor, format)
    case "list_schema_views" => ExecuteSchemaCommand("views", arguments, executor, format)
    case "list_schema_procedures" => ExecuteSchemaCommand("procedures", arguments, executor, format)
    case "list_schema_functions" => ExecuteSchemaCommand("functions", arguments, executor, format)
    case "list_connections" => ExecuteListConnections(arguments, executor, format)
    case "execute_sql_command" => ExecuteSql(arguments, executor, format)
    case "list_drivers" => ExecuteDrivers(arguments, executor, format)
    case _ => Reply("", Some(UnknownTool(name)))
  }

  // ---------------------------------------------------------------- properties of dispatch

  /** Catalog and dispatch agree: a name is reported as an unknown tool exactly when it is not
      in the catalog, and then the reply is the same whatever the executor would have done. */
  lemma DispatchMatchesCatalog(name: string, arguments: Arguments, executor: Executor, format: Formatter)
    ensures name in Names(GetTools()) <==> ExecuteTool(name, arguments, executor, format).err != Some(UnknownTool(name))
    ensures name !in Names(GetTools()) ==> ExecuteTool(name, arguments, executor, format) == Reply("", Some(UnknownTool(name)))
  {
    CatalogNamesInOrder();
    if name in ToolNames {
      var i :| 0 <= i < |ToolNames| && ToolNames[i] == name;
      KnownNameReachesHandler(i, arguments, executor, format);
    } else {
      UnknownNameRejected(name, arguments, executor, format);
    }
  }

  /** Each catalog name is routed to its own handler. */
  lemma KnownNameReachesHandler(i: nat, arguments: Arguments, executor: Executor, format: Formatter)
    requires i < |ToolNames|
    ensures i < 5 ==> ExecuteTool(ToolNames[i], arguments, executor, format) == ExecuteSchemaCommand(SchemaTypes[i], arguments, executor, format)
    ensures i == 5 ==> ExecuteTool(ToolNames[i], arguments, executor, format) == ExecuteListConnections(arguments, executor, format)
    ensures i == 6 ==> ExecuteTool(ToolNames[i], arguments, executor, format) == ExecuteSql(arguments, executor, format)
    ensures i == 7 ==> ExecuteTool(ToolNames[i], arguments, executor, format) == ExecuteDrivers(arguments, executor, format)
    ensures ExecuteTool(ToolNames[i], arguments, executor, format).err.None?
      || !ExecuteTool(ToolNames[i], arguments, executor, format).err.value.UnknownTool?
  {
  }

  /** A name outside the catalog is rejected before anything else is looked at. */
  lemma UnknownNameRejected(name: string, arguments: Arguments, executor: Executor, format: Formatter)
    requires name !in ToolNames
    ensures ExecuteTool(name, arguments, executor, format) == Reply("", Some(UnknownTool(name)))
  {
  }

  /** `list_schema_<k>` asks the executor for schema type exactly k, with connection, filter and
      output taken from the arguments, once the connection is present. */
  lemma SchemaToolRouting(k: string, arguments: Arguments, executor: Executor, format: Formatter)
    requires k in SchemaTypes
    ensures var connection := GetStringArg(arguments, "connection", "");
      ExecuteTool("list_schema_" + k, arguments, executor, format) ==
        if connection == "" then Reply("", Some(MissingParameter("connection")))
        else Finish(SchemaContext,
          executor(Sqlpp.SchemaRequest(k, connection, GetStringArg(arguments, "filter", ""), GetStringArg(arguments, "output", ""))),
          format)
  {
    if k == "all" {
      assert "list_schema_" + k == "list_schema_all";
    } else if k == "tables" {
      assert "list_schema_" + k == "list_schema_tables";
    } else if k == "views" {
      assert "list_schema_" + k == "list_schema_views";
    } else if k == "procedures" {
      assert "list_schema_" + k == "list_schema_procedures";
    } else {
      assert "list_schema_" + k == "list_schema_functions";
    }
  }

  /** The first required argument (in the descriptor's order) that resolves to empty. */
  function FirstMissing(required: seq<string>, arguments: Arguments): (r: Option<string>)
    ensures r.None? <==> forall k | 0 <= k < |required| :: GetStringArg(arguments, required[k], "") != ""
    ensures r.Some? ==> r.value in required && GetStringArg(arguments, r.value, "") == ""
    ensures r.Some? ==> exists i | 0 <= i < |required| ::
      required[i] == r.value && forall j | 0 <= j < i :: GetStringArg(arguments, required[j], "") != ""
  {
    if required == [] then None
    else if GetStringArg(arguments, required[0], "") == "" then Some(required[0])
    else
      var r := FirstMissing(required[1..], arguments);
      assert forall k | 1 <= k < |required| :: required[k] == required[1..][k - 1];
      if r.Some? then
        var i :| 0 <= i < |required[1..]| && required[1..][i] == r.value
          && forall j | 0 <= j < i :: GetStringArg(arguments, required[1..][j], "") != "";
        assert required[i + 1] == r.value;
        assert forall j | 0 <= j < i + 1 :: GetStringArg(arguments, required[j], "") != "";
        r
      else r
  }

  /** Every catalog tool rejects a call for a missing argument exactly when one of its declared
      required arguments resolves to empty, naming the first such one in declaration order
      (so for the SQL tool the connection is checked before the command). */
  lemma RequiredArgumentsFollowDescriptors(i: nat, arguments: Arguments, executor: Executor, format: Formatter)
    requires i < |GetTools()|
    ensures var t := GetTools()[i];
      var reply := ExecuteTool(t.name, arguments, executor, format);
      (reply.err.Some? && reply.err.value.MissingParameter?) <==> FirstMissing(t.inputSchema.required, arguments).Some?
    ensures var t := GetTools()[i];
      var reply := ExecuteTool(t.name, arguments, executor, format);
      FirstMissing(t.inputSchema.required, arguments).Some? ==>
        reply == Reply("", Some(MissingParameter(FirstMissing(t.inputSchema.required, arguments).value)))
  {
    SchemaToolDescriptors();
    SqlToolDescriptor();
    ListingToolDescriptors();
  }

  /** A rejected call carries no text, and a call rejected as made wrongly (unknown tool or
      missing argument) never reached the executor: its reply is the same for any executor. */
  lemma ValidationNeverReachesExecutor(name: string, arguments: Arguments, executor: Executor, other: Executor, format: Formatter)
    ensures ExecuteTool(name, arguments, executor, format).err.Some? ==> ExecuteTool(name, arguments, executor, format).text == ""
    ensures ExecuteTool(name, arguments, executor, format).err.Some? && ExecuteTool(name, arguments, executor, format).err.value.IsValidation() ==>
      ExecuteTool(name, arguments, other, format) == ExecuteTool(name, arguments, executor, format)
  {
  }

  /** Executor outcomes map onto the error classes: a transport error is wrapped with the
      operation's context, a failed run becomes "sqlpp command failed: " followed by its error
      text, and only a successful run yields text, the formatted output. */
  lemma FinishSeparatesFailures(context: string, outcome: Result<SqlppResult>, format: Formatter)
    ensures outcome.Failure? ==>
      Finish(context, outcome, format).err.value.Message() == context + ": " + outcome.error
    ensures outcome.Success? && !outcome.value.success ==>
      Finish(context, outcome, format).err.value.Message() == "sqlpp command failed: " + outcome.value.error
    ensures Finish(context, outcome, format).err.None? <==> outcome.Success? && outcome.value.success
    ensures Finish(context, outcome, format).err.None? ==> Finish(context, outcome, format).text == format(outcome.value.output)
    ensures Finish(context, outcome, format).err.Some? ==> !Finish(context, outcome, format).err.value.IsValidation()
  {
  }

  /** `execute_sql_command` checks the connection, then the command, and only then sends the
      command verbatim to the executor. */
  lemma SqlToolRouting(arguments: Arguments, executor: Executor, format: Formatter)
    ensures var connection := GetStringArg(arguments, "connection", "");
      var command := GetStringArg(arguments, "command", "");
      ExecuteTool("execute_sql_command", arguments, executor, format) ==
        if connection == "" then Reply("", Some(MissingParameter("connection")))
        else if command == "" then Reply("", Some(MissingParameter("command")))
        else Finish(SqlContext, executor(Sqlpp.SqlRequest(connection, command, GetStringArg(arguments, "output", ""))), format)
  {
  }

  /** The listing tools ignore their arguments and always consult the executor. */
  lemma ListingToolsIgnoreArguments(arguments: Arguments, executor: Executor, format: Formatter)
    ensures ExecuteTool("list_connections", arguments, executor, format) == Finish(ConnectionsContext, executor(Sqlpp.ConnectionsRequest), format)
    ensures ExecuteTool("list_drivers", arguments, executor, format) == Finish(DriversContext, executor(Sqlpp.DriversRequest), format)
  {
  }

  // ---------------------------------------------------------------- dispatcher over the executor

  /** With the real executor behind it, `list_schema_tables` with connection "c", filter "f*" and
      output "json" launches `sqlpp --stdin --connection c --output json` and writes
      `@schema-tables f*` to its standard input. */
  lemma SchemaTablesLaunch(e: Sqlpp.Executor, os: Sqlpp.System, format: Formatter)
    ensures var arguments := map["connection" := Str("c"), "filter" := Str("f*"), "output" := Str("json")];
      ExecuteTool("list_schema_tables", arguments, req => Sqlpp.Serve(e, os, req), format) ==
        Finish(SchemaContext,
          Sqlpp.StdinResult(os(Sqlpp.Invocation(e.executablePath,
            ["--stdin", "--connection", "c", "--output", "json"], Some("@schema-tables f*")))),
          format)
  {
    var arguments := map["connection" := Str("c"), "filter" := Str("f*"), "output" := Str("json")];
    assert Sqlpp.StdinArgs("c", "json") == ["--stdin", "--connection", "c", "--output", "json"];
    assert Sqlpp.SchemaPayload("tables", "f*") == "@schema-tables f*";
  }

  /** A tool run that exits with a failure status and a diagnostic on standard error reaches the
      caller as an error quoting that diagnostic, trimmed. */
  lemma FailedRunReachesCaller(e: Sqlpp.Executor, os: Sqlpp.System, format: Formatter)
    requires os(Sqlpp.Invocation(e.executablePath, ["--list-connections"], None)).Exited?
    requires os(Sqlpp.Invocation(e.executablePath, ["--list-connections"], None)).exit.err.Some?
    requires !Text.AllSpace(os(Sqlpp.Invocation(e.executablePath, ["--list-connections"], None)).exit.stderr)
    ensures var reply := ExecuteTool("list_connections", map[], req => Sqlpp.Serve(e, os, req), format);
      && reply.text == ""
      && reply.err.Some?
      && reply.err.value.Message() ==
        "sqlpp command failed: " + Text.TrimSpace(os(Sqlpp.Invocation(e.executablePath, ["--list-connections"], None)).exit.stderr)
  {
    var x := os(Sqlpp.Invocation(e.executablePath, ["--list-connections"], None)).exit;
    Sqlpp.ClassifyDiagnostic(x);
    var executor: Executor := req => Sqlpp.Serve(e, os, req);
    KnownNameReachesHandler(5, map[], executor, format);
    Sqlpp.ListConnectionsNeverTransportFails(e, os);
    var outcome := Success(Sqlpp.Classify(x));
    assert executor(Sqlpp.ConnectionsRequest) == outcome;
    FinishSeparatesFailures(ConnectionsContext, outcome, format);
  }
}
