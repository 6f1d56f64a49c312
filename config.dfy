/** Configuration checking and executable path resolution (internal/config/config.go).
    Loading from files and the environment is not part of this model: a Config value is given. */
module Config {
  import opened Wrappers
  import Text
  import Paths

  datatype ServerConfig = ServerConfig(transport: string, port: int, host: string)

  /** `executablePath` names either the directory holding `sqlpp` or the executable itself;
      `timeout` is in seconds. */
  datatype SqlppConfig = SqlppConfig(executablePath: string, timeout: int)

  datatype LogConfig = LogConfig(level: string, format: string, fileLogging: bool)

  datatype AwsConfig = AwsConfig(region: string, environment: string)

  datatype Config = Config(server: ServerConfig, sqlpp: SqlppConfig, log: LogConfig, aws: AwsConfig)

  /** The ways `validate` can reject a configuration, each carrying the offending value. */
  datatype ConfigError =
    | InvalidTransport(transport: string)
    | InvalidPort(port: int)
    | InvalidLogLevel(level: string)
    | InvalidLogFormat(format: string)
    | InvalidTimeout(timeout: int)
  {
    /** The error text `validate` produces. */
    function Message(): string {
      match this
      case InvalidTransport(t) => "invalid transport: " + t + " (must be 'stdio' or 'http')"
      case InvalidPort(p) => "invalid port: " + Text.IntToDecimal(p) + " (must be between 1 and 65535)"
      case InvalidLogLevel(l) => "invalid log level: " + l
      case InvalidLogFormat(f) => "invalid log format: " + f + " (must be 'json' or 'text')"
      case InvalidTimeout(t) => "invalid sqlpp timeout: " + Text.IntToDecimal(t) + " (must be greater than 0)"
    }
  }

  /** Each error text opens by naming the check that failed and quoting the offending value. */
  lemma MessageNamesCheck(e: ConfigError)
    ensures e.InvalidTransport? ==> "invalid transport: " + e.transport <= e.Message()
    ensures e.InvalidPort? ==> "invalid port: " + Text.IntToDecimal(e.port) <= e.Message()
    ensures e.InvalidLogLevel? ==> e.Message() == "invalid log level: " + e.level
    ensures e.InvalidLogFormat? ==> "invalid log format: " + e.format <= e.Message()
    ensures e.InvalidTimeout? ==> "invalid sqlpp timeout: " + Text.IntToDecimal(e.timeout) <= e.Message()
  {
  }

  const ValidLevels: seq<string> := ["trace", "debug", "info", "warn", "error", "fatal", "panic"]

  const MinPort := 1
  const MaxPort := 65535

  /** One check of the chain: whether it passes, and the error reported when it does not. */
  datatype Check = Check(passes: bool, failure: ConfigError)

  /** The checks `validate` performs, in the order it performs them. The port range applies
      only to the HTTP transport. */
  function Checks(c: Config): seq<Check> {
    [ Check(c.server.transport == "stdio" || c.server.transport == "http", InvalidTransport(c.server.transport)),
      Check(c.server.transport != "http" || MinPort <= c.server.port <= MaxPort, InvalidPort(c.server.port)),
      Check(c.log.level in ValidLevels, InvalidLogLevel(c.log.level)),
      Check(c.log.format == "json" || c.log.format == "text", InvalidLogFormat(c.log.format)),
      Check(c.sqlpp.timeout >= 1, InvalidTimeout(c.sqlpp.timeout)) ]
  }

  /** The error of the first failing check of a chain, or None when every check passes. */
  function FirstFailure(checks: seq<Check>): (r: Option<ConfigError>)
    ensures r.None? <==> forall i | 0 <= i < |checks| :: checks[i].passes
    ensures r.Some? ==>
      exists i | 0 <= i < |checks| ::
        !checks[i].passes && checks[i].failure == r.value && forall j | 0 <= j < i :: checks[j].passes
  {
    if checks == [] then None
    else if !checks[0].passes then Some(checks[0].failure)
    else
      var r := FirstFailure(checks[1..]);
      assert forall i | 1 <= i < |checks| :: checks[i] == checks[1..][i - 1];
      r
  }

  /** `validate`: runs the checks in order and returns the first failure, scanning the list of
      valid log levels with an early exit as the source does. */
  method Validate(c: Config) returns (err: Option<ConfigError>)
    ensures err == FirstFailure(Checks(c))
  {
    if c.server.transport != "stdio" && c.server.transport != "http" {
      FirstFailureIsEarliest(Checks(c), 0);
      return Some(InvalidTransport(c.server.transport));
    }

    if c.server.transport == "http" {
      if c.server.port < MinPort || c.server.port > MaxPort {
        FirstFailureIsEarliest(Checks(c), 1);
        return Some(InvalidPort(c.server.port));
      }
    }

    var validLevel := false;
    for i := 0 to |ValidLevels|
      invariant !validLevel
      invariant c.log.level !in ValidLevels[..i]
    {
      if c.log.level == ValidLevels[i] {
        validLevel := true;
        break;
      }
    }
    if !validLevel {
      FirstFailureIsEarliest(Checks(c), 2);
      return Some(InvalidLogLevel(c.log.level));
    }

    if c.log.format != "json" && c.log.format != "text" {
      FirstFailureIsEarliest(Checks(c), 3);
      return Some(InvalidLogFormat(c.log.format));
    }

    if c.sqlpp.timeout < 1 {
      FirstFailureIsEarliest(Checks(c), 4);
      return Some(InvalidTimeout(c.sqlpp.timeout));
    }

    return None;
  }

  /** A configuration is accepted exactly when its transport is stdio or http, an http
      configuration has a port in 1..65535, its log level and format are known, and its timeout
      is at least one second. */
  lemma ValidateAcceptsExactly(c: Config)
    ensures FirstFailure(Checks(c)).None? <==>
      && (c.server.transport == "stdio" || c.server.transport == "http")
      && (c.server.transport == "http" ==> 1 <= c.server.port <= 65535)
      && c.log.level in ["trace", "debug", "info", "warn", "error", "fatal", "panic"]
      && (c.log.format == "json" || c.log.format == "text")
      && c.sqlpp.timeout >= 1
  {
    var cs := Checks(c);
    assert (forall i | 0 <= i < |cs| :: cs[i].passes) <==>
      cs[0].passes && cs[1].passes && cs[2].passes && cs[3].passes && cs[4].passes;
  }

  /** Checks that pass do not influence the outcome: the chain answers as its remainder does. */
  lemma {:induction false} FirstFailureSkipsPassing(checks: seq<Check>, k: nat)
    requires k <= |checks|
    requires forall j | 0 <= j < k :: checks[j].passes
    ensures FirstFailure(checks) == FirstFailure(checks[k..])
  {
    if k > 0 {
      assert checks[1..][k - 1..] == checks[k..];
      FirstFailureSkipsPassing(checks[1..], k - 1);
    }
  }

  /** A failing check whose predecessors all pass is the one reported. */
  lemma FirstFailureIsEarliest(checks: seq<Check>, k: nat)
    requires k < |checks| && !checks[k].passes
    requires forall j | 0 <= j < k :: checks[j].passes
    ensures FirstFailure(checks) == Some(checks[k].failure)
  {
    FirstFailureSkipsPassing(checks, k);
  }

  /** An invalid transport is reported before anything else, whatever the rest holds. */
  lemma TransportCheckedFirst(c: Config)
    requires c.server.transport != "stdio" && c.server.transport != "http"
    ensures FirstFailure(Checks(c)) == Some(InvalidTransport(c.server.transport))
  {
  }

  /** A stdio configuration is judged without regard to its port. */
  lemma StdioIgnoresPort(c: Config, port: int)
    requires c.server.transport == "stdio"
    ensures FirstFailure(Checks(c.(server := c.server.(port := port)))) == FirstFailure(Checks(c))
  {
    var c' := c.(server := c.server.(port := port));
    FirstFailureSkipsPassing(Checks(c), 2);
    FirstFailureSkipsPassing(Checks(c'), 2);
    assert Checks(c')[2..] == Checks(c)[2..];
  }

  /** An unknown log level on an otherwise valid transport and port is reported as such,
      even when the format and timeout are also wrong. */
  lemma LevelCheckedBeforeFormatAndTimeout(c: Config)
    requires c.server.transport == "stdio"
    requires c.log.level !in ValidLevels
    ensures FirstFailure(Checks(c)) == Some(InvalidLogLevel(c.log.level))
  {
    FirstFailureIsEarliest(Checks(c), 2);
  }

  /** The executable the server runs: `.bin/sqlpp` when no path is configured, the path itself
      when it already names `sqlpp`, and otherwise `sqlpp` inside the configured directory. */
  function GetSqlppExecutablePath(c: SqlppConfig): string {
    if c.executablePath == [] then Paths.Join(".bin", "sqlpp")
    else if Paths.Base(c.executablePath) == "sqlpp" then c.executablePath
    else Paths.Join(c.executablePath, "sqlpp")
  }

  /** Whatever is configured, the resolved path names the `sqlpp` executable. */
  lemma ExecutablePathNamesSqlpp(c: SqlppConfig)
    ensures Paths.Base(GetSqlppExecutablePath(c)) == "sqlpp"
  {
    if c.executablePath == [] {
      Paths.BaseOfJoin(".bin", "sqlpp");
    } else if Paths.Base(c.executablePath) != "sqlpp" {
      Paths.BaseOfJoin(c.executablePath, "sqlpp");
    }
  }

  /** A configured path is kept as a prefix of the resolved one, and resolving a resolved path
      returns it unchanged. */
  lemma ExecutablePathStable(c: SqlppConfig)
    ensures c.executablePath != [] ==> c.executablePath <= GetSqlppExecutablePath(c)
    ensures GetSqlppExecutablePath(c.(executablePath := GetSqlppExecutablePath(c))) == GetSqlppExecutablePath(c)
  {
    ExecutablePathNamesSqlpp(c);
    if c.executablePath != [] {
      Paths.JoinExtendsDir(c.executablePath, "sqlpp");
    }
  }
}
