/**
 * The validated settings record of Marvin and the validators that produce
 * it.  Filesystem work (`expanduser`, `resolve`, `mkdir`) is outside the
 * model: path resolution is the parameter `resolve`, about which nothing is
 * assumed unless a lemma says so.
 */
module Settings {
  import opened Wrappers

  /** Default of `home_path`, before validation. */
  const DefaultHomePath: string := "~/.marvin"
  /** File name joined to the home path when `database_url` is not given. */
  const DefaultDatabaseName: string := "marvin.db"
  /** The database location that is kept verbatim. */
  const MemoryUrl: string := ":memory:"
  /** Message of the ValueError raised when `home_path` did not validate first. */
  const MissingHomeError: string := "home_path must be set before database_url"
  /** Message of the validation error for a log level outside the Literal. */
  const LogLevelError: string := "Input should be 'DEBUG', 'INFO', 'WARNING', 'ERROR' or 'CRITICAL'"

  /** The five members of the `log_level` Literal. */
  datatype LogLevel = Debug | Info | Warning | Error | Critical {
    /** The literal string of this level. */
    function Name(): string {
      match this
      case Debug => "DEBUG"
      case Info => "INFO"
      case Warning => "WARNING"
      case Error => "ERROR"
      case Critical => "CRITICAL"
    }
  }

  const LevelNames: set<string> := {"DEBUG", "INFO", "WARNING", "ERROR", "CRITICAL"}

  /** Upper-casing of one character (ASCII letters only). */
  function UpperChar(c: char): char {
    if 'a' <= c <= 'z' then (c as int - 32) as char else c
  }

  /** `str.upper`, character by character. */
  function Upper(s: string): (r: string)
    ensures |r| == |s|
    ensures forall i :: 0 <= i < |s| ==> r[i] == UpperChar(s[i])
  {
    if s == [] then [] else [UpperChar(s[0])] + Upper(s[1..])
  }

  /** Upper-casing twice is upper-casing once. */
  lemma UpperIdempotent(s: string)
    ensures Upper(Upper(s)) == Upper(s)
  {
  }

  /** The `Literal[...]` check that pydantic applies after the before-validator. */
  function ParseLogLevel(s: string): (r: Option<LogLevel>)
    ensures r.Some? <==> s in LevelNames
    ensures r.Some? ==> r.value.Name() == s
  {
    if s == "DEBUG" then Some(Debug)
    else if s == "INFO" then Some(Info)
    else if s == "WARNING" then Some(Warning)
    else if s == "ERROR" then Some(Error)
    else if s == "CRITICAL" then Some(Critical)
    else None
  }

  /** `_validate_log_level` followed by the Literal check. */
  function ValidateLogLevel(v: string): (r: Result<LogLevel>)
    ensures r.Success? <==> Upper(v) in LevelNames
    ensures r.Success? ==> r.value.Name() == Upper(v)
    ensures r.Failure? ==> r.error == LogLevelError
  {
    match ParseLogLevel(Upper(v))
    case Some(level) => Success(level)
    case None => Failure(LogLevelError)
  }

  /** Validating the name of an accepted level gives the same level back. */
  lemma LogLevelNormalisationIdempotent(v: string)
    ensures ValidateLogLevel(v).Success? ==>
      ValidateLogLevel(ValidateLogLevel(v).value.Name()) == ValidateLogLevel(v)
  {
    if ValidateLogLevel(v).Success? {
      var name := ValidateLogLevel(v).value.Name();
      UpperIdempotent(v);
      assert name == Upper(v);
      assert Upper(name) == name;
    }
  }

  /** Lower case is accepted: "debug" validates to DEBUG. */
  lemma LowerCaseLevelAccepted()
    ensures ValidateLogLevel("debug") == Success(Debug)
    ensures ValidateLogLevel("Warning") == Success(Warning)
  {
  }

  /**
   * `str(Path(dir) / name)` for a plain file name and a normalised `dir`
   * (no repeated separators): the result starts with `dir`, ends with
   * `name`, and between the two is exactly one separator, the one `dir`
   * ends with or else one added. An empty `dir` gives `name`.
   */
  function JoinPath(dir: string, name: string): (r: string)
    ensures |r| >= |name| && r[|r| - |name|..] == name
    ensures dir == "" ==> r == name
    ensures |r| >= |dir| + |name|
    ensures dir != "" ==> |r| > |name| && r[..|dir|] == dir && r[|r| - |name| - 1] == '/'
    ensures dir != "" && dir[|dir| - 1] == '/' ==> |r| == |dir| + |name|
    ensures dir != "" && dir[|dir| - 1] != '/' ==> |r| == |dir| + 1 + |name|
  {
    if dir == "" then name
    else if dir[|dir| - 1] == '/' then dir + name
    else dir + "/" + name
  }

  /** `validate_home_path`: the expanded, resolved path (the `mkdir` is left out). */
  function ValidateHomePath(v: string, resolve: string -> string): (home: string)
    ensures home == resolve(v)
  {
    resolve(v)
  }

  /**
   * Assigning a validated home path back to the settings (validation on
   * assignment) leaves it as it is, as long as resolving is idempotent.
   */
  lemma RevalidateHomePath(v: string, resolve: string -> string)
    requires forall p :: resolve(resolve(p)) == resolve(p)
    ensures ValidateHomePath(ValidateHomePath(v, resolve), resolve) == ValidateHomePath(v, resolve)
  {
  }

  /**
   * `validate_database_url`. `homePath` is what `info.data.get("home_path")`
   * finds: absent when `home_path` failed its own validation.
   */
  function ValidateDatabaseUrl(v: Option<string>, homePath: Option<string>, resolve: string -> string): (r: Result<string>)
    ensures r.Failure? <==> v.None? && homePath.None?
    ensures r.Failure? ==> r.error == MissingHomeError
    ensures v.None? && homePath.Some? ==> r == Success(JoinPath(homePath.value, DefaultDatabaseName))
    ensures v == Some(MemoryUrl) ==> r == Success(MemoryUrl)
    ensures v.Some? && v.value != MemoryUrl ==> r == Success(resolve(v.value))
  {
    match v
    case None =>
      if homePath.None? then Failure(MissingHomeError)
      else Success(JoinPath(homePath.value, DefaultDatabaseName))
    case Some(url) =>
      if url == MemoryUrl then Success(url) else Success(resolve(url))
  }

  /**
   * Assigning a validated, explicitly given `database_url` back to the
   * settings (the model validates on assignment) leaves it as it is, as long
   * as resolving is idempotent and never yields ":memory:".
   */
  lemma RevalidateDatabaseUrl(v: string, homePath: Option<string>, resolve: string -> string)
    requires forall p :: resolve(resolve(p)) == resolve(p)
    requires forall p :: resolve(p) != MemoryUrl
    ensures ValidateDatabaseUrl(Some(v), homePath, resolve).Success?
    ensures var url := ValidateDatabaseUrl(Some(v), homePath, resolve).value;
      ValidateDatabaseUrl(Some(url), homePath, resolve) == Success(url)
  {
  }

  /** The validated settings. */
  datatype Settings = Settings(
    homePath: string,
    databaseUrl: string,
    logLevel: LogLevel,
    logEvents: bool,
    agentModel: string,
    agentTemperature: Option<real>,
    agentRetries: int,
    maxAgentTurns: Option<int>,
    enableDefaultPrintHandler: bool,
    memoryProvider: string,
    chromaCloudApiKey: Option<string>,
    chromaCloudTenant: Option<string>,
    chromaCloudDatabase: Option<string>)

  /** The values supplied from the environment; `None` leaves a field at its default. */
  datatype RawSettings = RawSettings(
    homePath: Option<string>,
    databaseUrl: Option<string>,
    logLevel: Option<string>,
    logEvents: Option<bool>,
    agentModel: Option<string>,
    agentTemperature: Option<real>,
    agentRetries: Option<int>,
    maxAgentTurns: Option<Option<int>>,
    enableDefaultPrintHandler: Option<bool>,
    memoryProvider: Option<string>,
    chromaCloudApiKey: Option<string>,
    chromaCloudTenant: Option<string>,
    chromaCloudDatabase: Option<string>)

  /** Nothing supplied. */
  const NoOverrides: RawSettings :=
    RawSettings(None, None, None, None, None, None, None, None, None, None, None, None, None)

  /** The names `Settings` declares as attributes. */
  const FieldNames: set<string> := {
    "home_path", "database_url", "log_level", "log_events", "agent_model",
    "agent_temperature", "agent_retries", "max_agent_turns",
    "enable_default_print_handler", "memory_provider", "chroma_cloud_api_key",
    "chroma_cloud_tenant", "chroma_cloud_database"}

  /**
   * Constructing `Settings`: every field takes its supplied value or its
   * default, and the defaults are validated too. Fields are validated in the
   * order they are declared, so `database_url` sees the validated home path.
   */
  function Build(raw: RawSettings, resolve: string -> string): (r: Result<Settings>)
    ensures r.Failure? <==> raw.logLevel.Some? && Upper(raw.logLevel.value) !in LevelNames
    ensures r.Success? ==>
      && r.value.homePath == resolve(raw.homePath.GetOr(DefaultHomePath))
      && Success(r.value.databaseUrl) == ValidateDatabaseUrl(raw.databaseUrl, Some(r.value.homePath), resolve)
      && r.value.logLevel.Name() == Upper(raw.logLevel.GetOr("INFO"))
  {
    var home := ValidateHomePath(raw.homePath.GetOr(DefaultHomePath), resolve);
    var url := ValidateDatabaseUrl(raw.databaseUrl, Some(home), resolve);
    var level := ValidateLogLevel(raw.logLevel.GetOr("INFO"));
    if url.Failure? then Failure(MissingHomeError)
    else if level.Failure? then Failure(level.error)
    else Success(Settings(
      homePath := home,
      databaseUrl := url.value,
      logLevel := level.value,
      logEvents := raw.logEvents.GetOr(false),
      agentModel := raw.agentModel.GetOr("openai:gpt-4o"),
      agentTemperature := raw.agentTemperature,
      agentRetries := raw.agentRetries.GetOr(10),
      maxAgentTurns := raw.maxAgentTurns.GetOr(Some(100)),
      enableDefaultPrintHandler := raw.enableDefaultPrintHandler.GetOr(true),
      memoryProvider := raw.memoryProvider.GetOr("chroma-db"),
      chromaCloudApiKey := raw.chromaCloudApiKey,
      chromaCloudTenant := raw.chromaCloudTenant,
      chromaCloudDatabase := raw.chromaCloudDatabase))
  }

  /** With nothing supplied, construction succeeds with the documented defaults. */
  lemma DefaultSettings(resolve: string -> string)
    ensures var home := resolve(DefaultHomePath);
      Build(NoOverrides, resolve) == Success(Settings(
        homePath := home,
        databaseUrl := JoinPath(home, DefaultDatabaseName),
        logLevel := Info,
        logEvents := false,
        agentModel := "openai:gpt-4o",
        agentTemperature := None,
        agentRetries := 10,
        maxAgentTurns := Some(100),
        enableDefaultPrintHandler := true,
        memoryProvider := "chroma-db",
        chromaCloudApiKey := None,
        chromaCloudTenant := None,
        chromaCloudDatabase := None))
  {
  }

  /**
   * Inside construction the missing-home error cannot happen: home_path is
   * always validated before database_url.
   */
  lemma BuildNeverMissesHome(raw: RawSettings, resolve: string -> string)
    ensures Build(raw, resolve).Failure? ==> Build(raw, resolve).error == LogLevelError
  {
  }
}
