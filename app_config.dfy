/** The application configuration: class attributes read from the environment with typed
    parsing and defaults, a validator that collects every error (and raises when there is
    one) plus production warnings, and the summary that leaves secrets out.

    The environment is a map from variable name to value; a missing key is an unset variable.
    An optional string is Python's `Optional[str]`; it is truthy when present and non-empty. */
module AppConfig {
  import opened Wrappers
  import opened Text

  type Env = map<string, string>

  const ValidEnvironments: seq<string> := ["local", "development", "staging", "production"]
  const ValidLogLevels: seq<string> := ["DEBUG", "INFO", "WARNING", "ERROR", "CRITICAL"]
  const TrueWords: seq<string> := ["true", "1", "yes", "on"]
  const MinSecretLength: nat := 32

  predicate Truthy(o: Option<string>) {
    o.Some? && o.value != []
  }

  predicate ValidPort(p: int) {
    1 <= p <= 65535
  }

  // ---------------------------------------------------------------------------------------
  // Typed environment access
  // ---------------------------------------------------------------------------------------

  /** `os.getenv(key, default)` */
  function GetEnv(env: Env, key: string, default: Option<string>): (r: Option<string>)
    ensures key in env ==> r == Some(env[key])
    ensures key !in env ==> r == default
  {
    if key in env then Some(env[key]) else default
  }

  /** `_get_env_int(key, default)`: the parsed value, or the default when the variable is unset
      or is not an integer. */
  function GetEnvInt(env: Env, key: string, default: int): (r: int)
    ensures key !in env || ParseInt(env[key]).None? ==> r == default
    ensures key in env && ParseInt(env[key]).Some? ==> r == ParseInt(env[key]).value
  {
    if key !in env then default
    else match ParseInt(env[key])
      case Some(v) => v
      case None => default
  }

  /** `_get_env_bool(key, default)`: the default only when unset; otherwise whether the
      lower-cased value is one of `true`, `1`, `yes`, `on`. */
  function GetEnvBool(env: Env, key: string, default: bool): (r: bool)
    ensures key !in env ==> r == default
    ensures key in env ==> (r <==> Lower(env[key]) in TrueWords)
  {
    if key !in env then default else Lower(env[key]) in TrueWords
  }

  /** An integer written out in decimal is read back exactly, whatever the default, as long
      as it has no more digits than `int()` converts; a longer one falls back to the
      default. */
  lemma GetEnvIntReadsBack(env: Env, key: string, default: int, i: int)
    requires key in env && env[key] == IntToString(i)
    ensures GetEnvInt(env, key, default) == if WithinStrDigits(i) then i else default
  {
    ParseIntToString(i);
  }

  /** A variable holding more decimal digits than `int()` converts is read as the default:
      `int()` raises `ValueError` and `_get_env_int` falls back. */
  lemma OverlongIntegerGivesDefault(env: Env, key: string, default: int)
    requires key in env && |env[key]| > MaxStrDigits
    requires forall i :: 0 <= i < |env[key]| ==> IsDigit(env[key][i])
    ensures GetEnvInt(env, key, default) == default
  {
    var v := env[key];
    TrimUnpadded(v);
    DigitCountOfDigits(v);
    assert !IsDigit('+') && !IsDigit('-');
  }

  /** `v` spells the lower-case word `w`, each letter in either case. */
  predicate SpellsInAnyCase(v: string, w: string) {
    |v| == |w| && forall i :: 0 <= i < |v| ==> LowerChar(v[i]) == w[i]
  }

  /** A set variable decides the flag on its own, whatever the default: the flag is true
      exactly when the value spells one of `true`, `1`, `yes`, `on` in any mix of letter
      cases. */
  lemma GetEnvBoolAnyCase(env: Env, key: string, default: bool)
    requires key in env
    ensures GetEnvBool(env, key, default) == GetEnvBool(env, key, !default)
    ensures GetEnvBool(env, key, default) <==> exists w :: w in TrueWords && SpellsInAnyCase(env[key], w)
  {
    var v := env[key];
    if exists w :: w in TrueWords && SpellsInAnyCase(v, w) {
      var w :| w in TrueWords && SpellsInAnyCase(v, w);
      assert Lower(v) == w;
    } else {
      assert SpellsInAnyCase(v, Lower(v));
    }
  }

  // ---------------------------------------------------------------------------------------
  // Settings, validation and summary
  // ---------------------------------------------------------------------------------------

  /** The values of the seventeen class attributes at one moment. */
  datatype Settings = Settings(
    appName: string, appVersion: string, environment: string, port: int, debug: bool, logLevel: string,
    databaseHost: Option<string>, databasePort: int, databaseName: Option<string>,
    databaseUser: Option<string>, databasePassword: Option<string>,
    redisHost: string, redisPort: int, redisTtl: int,
    jwtSecret: Option<string>, jwtExpirationHours: int, rateLimitEnabled: bool)

  /** One message of `_validate`'s `errors` list, with the value it reports. */
  datatype ConfigError =
    | InvalidPort(port: int)
    | InvalidEnvironment(environment: string)
    | InvalidLogLevel(level: string)
    | DatabaseIncomplete
    | InvalidDatabasePort(port: int)
    | InvalidRedisPort(port: int)
    | InvalidRedisTtl(ttl: int)
    | InvalidJwtExpiration(hours: int)

  /** A production warning: logged, never an error. */
  datatype ConfigWarning = DebugInProduction | MissingJwtSecret | ShortJwtSecret

  /** The position of each check in `_validate`. */
  function Rank(e: ConfigError): nat {
    match e
    case InvalidPort(_) => 0
    case InvalidEnvironment(_) => 1
    case InvalidLogLevel(_) => 2
    case DatabaseIncomplete => 3
    case InvalidDatabasePort(_) => 4
    case InvalidRedisPort(_) => 5
    case InvalidRedisTtl(_) => 6
    case InvalidJwtExpiration(_) => 7
  }

  predicate AnyDatabaseSetting(s: Settings) {
    Truthy(s.databaseHost) || Truthy(s.databaseName) || Truthy(s.databaseUser) || Truthy(s.databasePassword)
  }

  /** `is_database_configured()`: all four database settings are truthy. */
  predicate IsDatabaseConfigured(s: Settings) {
    Truthy(s.databaseHost) && Truthy(s.databaseName) && Truthy(s.databaseUser) && Truthy(s.databasePassword)
  }

  /** Whether error `e` describes `s`: the reported value is the current one and it breaks
      its rule. */
  predicate Applies(e: ConfigError, s: Settings) {
    Subject(e, s) && Broken(e, s)
  }

  /** The value error `e` reports is the current value of the setting it checks. */
  predicate Subject(e: ConfigError, s: Settings) {
    match e
    case InvalidPort(p) => p == s.port
    case InvalidEnvironment(v) => v == s.environment
    case InvalidLogLevel(v) => v == s.logLevel
    case DatabaseIncomplete => true
    case InvalidDatabasePort(p) => p == s.databasePort
    case InvalidRedisPort(p) => p == s.redisPort
    case InvalidRedisTtl(t) => t == s.redisTtl
    case InvalidJwtExpiration(h) => h == s.jwtExpirationHours
  }

  /** The reported value breaks its rule. */
  predicate Broken(e: ConfigError, s: Settings) {
    match e
    case InvalidPort(p) => !ValidPort(p)
    case InvalidEnvironment(v) => v !in ValidEnvironments
    case InvalidLogLevel(v) => v !in ValidLogLevels
    case DatabaseIncomplete => AnyDatabaseSetting(s) && !IsDatabaseConfigured(s)
    case InvalidDatabasePort(p) => !ValidPort(p)
    case InvalidRedisPort(p) => !ValidPort(p)
    case InvalidRedisTtl(t) => t < 0
    case InvalidJwtExpiration(h) => h < 1
  }

  /** The settings `_validate` lets through without raising. */
  predicate Acceptable(s: Settings) {
    ValidPort(s.port) && s.environment in ValidEnvironments && s.logLevel in ValidLogLevels &&
    (AnyDatabaseSetting(s) ==> IsDatabaseConfigured(s)) &&
    ValidPort(s.databasePort) && ValidPort(s.redisPort) && s.redisTtl >= 0 && s.jwtExpirationHours >= 1
  }

  /** Whether warning `w` is logged for `s`. */
  predicate Warns(w: ConfigWarning, s: Settings) {
    s.environment == "production" &&
    match w
    case DebugInProduction => s.debug
    case MissingJwtSecret => !Truthy(s.jwtSecret)
    case ShortJwtSecret => Truthy(s.jwtSecret) && |s.jwtSecret.value| < MinSecretLength
  }

  /** One check of `_validate`: its message when the condition holds. */
  function Check(failed: bool, e: ConfigError): seq<ConfigError> {
    if failed then [e] else []
  }

  /** The errors of the first `k` checks, in order. */
  function ErrorsOfFirst(s: Settings, k: nat): seq<ConfigError>
    requires k <= 8
  {
    if k == 0 then []
    else ErrorsOfFirst(s, k - 1) + CheckNumber(s, k - 1)
  }

  /** Check number `k` of `_validate`. */
  function CheckNumber(s: Settings, k: nat): seq<ConfigError>
    requires k < 8
  {
    if k == 0 then Check(!ValidPort(s.port), InvalidPort(s.port))
    else if k == 1 then Check(s.environment !in ValidEnvironments, InvalidEnvironment(s.environment))
    else if k == 2 then Check(s.logLevel !in ValidLogLevels, InvalidLogLevel(s.logLevel))
    else if k == 3 then Check(AnyDatabaseSetting(s) && !IsDatabaseConfigured(s), DatabaseIncomplete)
    else if k == 4 then Check(!ValidPort(s.databasePort), InvalidDatabasePort(s.databasePort))
    else if k == 5 then Check(!ValidPort(s.redisPort), InvalidRedisPort(s.redisPort))
    else if k == 6 then Check(s.redisTtl < 0, InvalidRedisTtl(s.redisTtl))
    else Check(s.jwtExpirationHours < 1, InvalidJwtExpiration(s.jwtExpirationHours))
  }

  /** The `errors` list `_validate` builds, one check after the other: it holds exactly the
      errors that apply, each once, in the order of the checks. */
  function ValidationErrors(s: Settings): (r: seq<ConfigError>)
    ensures forall e :: e in r <==> Applies(e, s)
    ensures InCheckOrder(r)
  {
    ErrorsOfFirstExact(s, 8);
    ErrorsOfFirst(s, 8)
  }

  lemma CheckNumberExact(s: Settings, k: nat, e: ConfigError)
    requires k < 8
    ensures e in CheckNumber(s, k) <==> Applies(e, s) && Rank(e) == k
  {
  }

  /** Strictly increasing check positions: no error twice, and in the order the checks run. */
  predicate InCheckOrder(r: seq<ConfigError>) {
    forall i, j :: 0 <= i < j < |r| ==> Rank(r[i]) < Rank(r[j])
  }

  lemma {:induction false} ErrorsOfFirstExact(s: Settings, k: nat)
    requires k <= 8
    ensures forall e :: e in ErrorsOfFirst(s, k) <==> Applies(e, s) && Rank(e) < k
    ensures InCheckOrder(ErrorsOfFirst(s, k))
  {
    if k > 0 {
      ErrorsOfFirstExact(s, k - 1);
      var p := ErrorsOfFirst(s, k - 1);
      var c := CheckNumber(s, k - 1);
      forall e ensures e in p + c <==> Applies(e, s) && Rank(e) < k {
        CheckNumberExact(s, k - 1, e);
      }
      assert InCheckOrder(p);
      forall i, j | 0 <= i < j < |p + c| ensures Rank((p + c)[i]) < Rank((p + c)[j]) {
        if j < |p| {
          assert (p + c)[i] == p[i] && (p + c)[j] == p[j];
          assert Rank(p[i]) < Rank(p[j]);
        } else {
          assert |c| <= 1 && i < |p|;
          assert (p + c)[i] == p[i] && p[i] in p;
          assert (p + c)[j] == c[j - |p|] && c[j - |p|] in c;
          CheckNumberExact(s, k - 1, c[j - |p|]);
          assert Rank(p[i]) < k - 1;
          assert Rank(c[j - |p|]) == k - 1;
        }
      }
    }
  }

  /** Some error applies exactly when the settings are not acceptable. */
  lemma SomeErrorIffUnacceptable(s: Settings)
    ensures (exists e :: Applies(e, s)) <==> !Acceptable(s)
  {
    if !Acceptable(s) {
      if !ValidPort(s.port) { assert Applies(InvalidPort(s.port), s); }
      else if s.environment !in ValidEnvironments { assert Applies(InvalidEnvironment(s.environment), s); }
      else if s.logLevel !in ValidLogLevels { assert Applies(InvalidLogLevel(s.logLevel), s); }
      else if AnyDatabaseSetting(s) && !IsDatabaseConfigured(s) { assert Applies(DatabaseIncomplete, s); }
      else if !ValidPort(s.databasePort) { assert Applies(InvalidDatabasePort(s.databasePort), s); }
      else if !ValidPort(s.redisPort) { assert Applies(InvalidRedisPort(s.redisPort), s); }
      else if s.redisTtl < 0 { assert Applies(InvalidRedisTtl(s.redisTtl), s); }
      else { assert Applies(InvalidJwtExpiration(s.jwtExpirationHours), s); }
    }
  }

  /** `_validate` raises exactly when the settings are not acceptable. */
  lemma ValidationFailsIffUnacceptable(s: Settings)
    ensures ValidationErrors(s) == [] <==> Acceptable(s)
  {
    SomeErrorIffUnacceptable(s);
    if ValidationErrors(s) != [] {
      assert ValidationErrors(s)[0] in ValidationErrors(s);
    }
  }

  /** The warnings `_validate` logs, in order: exactly those whose condition holds, each
      once. */
  function ProductionWarnings(s: Settings): (r: seq<ConfigWarning>)
    ensures forall w :: w in r <==> Warns(w, s)
    ensures forall i, j :: 0 <= i < j < |r| ==> r[i] != r[j]
  {
    if s.environment != "production" then []
    else
      (if s.debug then [DebugInProduction] else []) +
      (if !Truthy(s.jwtSecret) then [MissingJwtSecret] else []) +
      (if Truthy(s.jwtSecret) && |s.jwtSecret.value| < MinSecretLength then [ShortJwtSecret] else [])
  }

  /** The production warnings never make validation fail: the debug flag and the JWT secret
      play no part in it. */
  lemma WarningsNeverFail(s: Settings, debug: bool, secret: Option<string>)
    ensures Acceptable(s.(debug := debug, jwtSecret := secret)) == Acceptable(s)
  {
  }

  /** Once validation has passed, setting any one database variable means all four are set. */
  lemma AcceptedDatabaseIsConfigured(s: Settings)
    requires Acceptable(s) && AnyDatabaseSetting(s)
    ensures IsDatabaseConfigured(s)
  {
  }

  /** Empty strings count as unset: database settings that are all absent or empty pass the
      completeness check, and the database is then not configured. */
  lemma EmptyDatabaseSettingsAreUnset(s: Settings)
    requires s.databaseHost in {None, Some("")} && s.databaseName in {None, Some("")}
    requires s.databaseUser in {None, Some("")} && s.databasePassword in {None, Some("")}
    ensures !Applies(DatabaseIncomplete, s) && !IsDatabaseConfigured(s)
  {
  }

  /** `get_summary()` */
  datatype Summary = Summary(
    appName: string, appVersion: string, environment: string, port: int, debug: bool, logLevel: string,
    databaseConfigured: bool, databaseHost: Option<string>, databasePort: int, databaseName: Option<string>,
    redisHost: string, redisPort: int, redisTtl: int, jwtExpirationHours: int, rateLimitEnabled: bool)

  function SummaryOf(s: Settings): (r: Summary)
    ensures r.databaseConfigured == IsDatabaseConfigured(s)
    ensures r.databaseHost == if Truthy(s.databaseHost) then s.databaseHost else None
    ensures r.databaseName == if Truthy(s.databaseName) then s.databaseName else None
  {
    Summary(s.appName, s.appVersion, s.environment, s.port, s.debug, s.logLevel, IsDatabaseConfigured(s),
            if Truthy(s.databaseHost) then s.databaseHost else None, s.databasePort,
            if Truthy(s.databaseName) then s.databaseName else None,
            s.redisHost, s.redisPort, s.redisTtl, s.jwtExpirationHours, s.rateLimitEnabled)
  }

  /** The summary never exposes the database user, the database password or the JWT secret:
      changing them, short of making a database credential appear or vanish, leaves it as
      it was. */
  lemma SummaryHidesSecrets(s: Settings, user: Option<string>, password: Option<string>, secret: Option<string>)
    requires Truthy(user) == Truthy(s.databaseUser) && Truthy(password) == Truthy(s.databasePassword)
    ensures SummaryOf(s.(databaseUser := user, databasePassword := password, jwtSecret := secret)) == SummaryOf(s)
  {
  }

  /** The class defaults. */
  const Defaults: Settings := Settings("sample-app", "1.0.0", "local", 8080, false, "INFO",
                                       None, 5432, None, None, None, "localhost", 6379, 300, None, 24, true)

  lemma DefaultsAcceptable()
    ensures Acceptable(Defaults) && !IsDatabaseConfigured(Defaults)
  {
    assert Defaults.environment == ValidEnvironments[0];
    assert Defaults.logLevel == ValidLogLevels[1];
  }

  /** The settings `load()` reads: every variable that is set replaces the current value (the
      database and JWT secret settings fall back to `None` rather than to the current value),
      and `LOG_LEVEL` is upper-cased. */
  function Loaded(cur: Settings, env: Env): (s: Settings)
    ensures s.logLevel == Upper(if "LOG_LEVEL" in env then env["LOG_LEVEL"] else cur.logLevel)
    ensures "DATABASE_HOST" !in env ==> s.databaseHost == None
  {
    Settings(
      GetEnv(env, "APP_NAME", Some(cur.appName)).GetOr(cur.appName),
      GetEnv(env, "APP_VERSION", Some(cur.appVersion)).GetOr(cur.appVersion),
      GetEnv(env, "ENVIRONMENT", Some(cur.environment)).GetOr(cur.environment),
      GetEnvInt(env, "PORT", cur.port),
      GetEnvBool(env, "DEBUG", cur.debug),
      Upper(GetEnv(env, "LOG_LEVEL", Some(cur.logLevel)).GetOr(cur.logLevel)),
      GetEnv(env, "DATABASE_HOST", None),
      GetEnvInt(env, "DATABASE_PORT", cur.databasePort),
      GetEnv(env, "DATABASE_NAME", None),
      GetEnv(env, "DATABASE_USER", None),
      GetEnv(env, "DATABASE_PASSWORD", None),
      GetEnv(env, "REDIS_HOST", Some(cur.redisHost)).GetOr(cur.redisHost),
      GetEnvInt(env, "REDIS_PORT", cur.redisPort),
      GetEnvInt(env, "REDIS_TTL", cur.redisTtl),
      GetEnv(env, "JWT_SECRET", None),
      GetEnvInt(env, "JWT_EXPIRATION_HOURS", cur.jwtExpirationHours),
      GetEnvBool(env, "RATE_LIMIT_ENABLED", cur.rateLimitEnabled))
  }

  /** With nothing set, `load()` keeps every attribute except the log level, upper-cased, and
      the database and JWT secret settings, which become `None`. */
  lemma LoadEmptyEnvironment(cur: Settings)
    ensures Loaded(cur, map[]) == cur.(logLevel := Upper(cur.logLevel), databaseHost := None,
                                       databaseName := None, databaseUser := None,
                                       databasePassword := None, jwtSecret := None)
  {
  }

  /** A lower-case `LOG_LEVEL` is accepted: `debug` is read as `DEBUG`. */
  lemma LowerCaseLogLevelAccepted(cur: Settings, env: Env)
    requires "LOG_LEVEL" in env && env["LOG_LEVEL"] == "debug"
    ensures Loaded(cur, env).logLevel == "DEBUG" && Loaded(cur, env).logLevel in ValidLogLevels
  {
    assert Upper("debug") == "DEBUG";
  }

  /** The checks of `_validate()`, run one after the other on the attribute values `s`. */
  method CollectErrors(s: Settings) returns (errors: seq<ConfigError>)
    ensures errors == ValidationErrors(s)
  {
    errors := [];
    if s.port < 1 || s.port > 65535 {
      errors := errors + [InvalidPort(s.port)];
    }
    assert errors == ErrorsOfFirst(s, 1);
    if s.environment !in ValidEnvironments {
      errors := errors + [InvalidEnvironment(s.environment)];
    }
    assert errors == ErrorsOfFirst(s, 2);
    if s.logLevel !in ValidLogLevels {
      errors := errors + [InvalidLogLevel(s.logLevel)];
    }
    assert errors == ErrorsOfFirst(s, 3);
    if AnyDatabaseSetting(s) && !IsDatabaseConfigured(s) {
      errors := errors + [DatabaseIncomplete];
    }
    assert errors == ErrorsOfFirst(s, 4);
    if s.databasePort < 1 || s.databasePort > 65535 {
      errors := errors + [InvalidDatabasePort(s.databasePort)];
    }
    assert errors == ErrorsOfFirst(s, 5);
    if s.redisPort < 1 || s.redisPort > 65535 {
      errors := errors + [InvalidRedisPort(s.redisPort)];
    }
    assert errors == ErrorsOfFirst(s, 6);
    if s.redisTtl < 0 {
      errors := errors + [InvalidRedisTtl(s.redisTtl)];
    }
    assert errors == ErrorsOfFirst(s, 7);
    if s.jwtExpirationHours < 1 {
      errors := errors + [InvalidJwtExpiration(s.jwtExpirationHours)];
    }
    assert errors == ErrorsOfFirst(s, 8);
  }

  /** The production warnings of `_validate()`, logged in this order. */
  method CollectWarnings(s: Settings) returns (warnings: seq<ConfigWarning>)
    ensures warnings == ProductionWarnings(s)
  {
    warnings := [];
    if s.environment == "production" {
      if s.debug {
        warnings := warnings + [DebugInProduction];
      }
      if !Truthy(s.jwtSecret) {
        warnings := warnings + [MissingJwtSecret];
      }
      if Truthy(s.jwtSecret) && |s.jwtSecret.value| < MinSecretLength {
        warnings := warnings + [ShortJwtSecret];
      }
    }
  }

  // ---------------------------------------------------------------------------------------
  // The class
  // ---------------------------------------------------------------------------------------

  /** The class attributes of `Config`. */
  class Config {
    var appName: string
    var appVersion: string
    var environment: string
    var port: int
    var debug: bool
    var logLevel: string
    var databaseHost: Option<string>
    var databasePort: int
    var databaseName: Option<string>
    var databaseUser: Option<string>
    var databasePassword: Option<string>
    var redisHost: string
    var redisPort: int
    var redisTtl: int
    var jwtSecret: Option<string>
    var jwtExpirationHours: int
    var rateLimitEnabled: bool

    function Current(): Settings
      reads this
    {
      Settings(appName, appVersion, environment, port, debug, logLevel, databaseHost, databasePort,
               databaseName, databaseUser, databasePassword, redisHost, redisPort, redisTtl,
               jwtSecret, jwtExpirationHours, rateLimitEnabled)
    }

    constructor ()
      ensures Current() == Defaults
    {
      appName, appVersion, environment, port, debug, logLevel := "sample-app", "1.0.0", "local", 8080, false, "INFO";
      databaseHost, databasePort, databaseName, databaseUser, databasePassword := None, 5432, None, None, None;
      redisHost, redisPort, redisTtl := "localhost", 6379, 300;
      jwtSecret, jwtExpirationHours, rateLimitEnabled := None, 24, true;
    }

    /** `_validate()`: every broken rule, in the order the checks run, and the production
        warnings. A non-empty `errors` is the `ValueError` it raises. */
    method Validate() returns (errors: seq<ConfigError>, warnings: seq<ConfigWarning>)
      ensures errors == ValidationErrors(Current())
      ensures warnings == ProductionWarnings(Current())
    {
      var s := Current();
      errors := CollectErrors(s);
      warnings := CollectWarnings(s);
    }

    /** The application settings of `load()`. */
    method LoadApplication(env: Env)
      modifies this`appName, this`appVersion, this`environment, this`port, this`debug, this`logLevel
      ensures appName == GetEnv(env, "APP_NAME", Some(old(appName))).GetOr(old(appName))
      ensures appVersion == GetEnv(env, "APP_VERSION", Some(old(appVersion))).GetOr(old(appVersion))
      ensures environment == GetEnv(env, "ENVIRONMENT", Some(old(environment))).GetOr(old(environment))
      ensures port == GetEnvInt(env, "PORT", old(port))
      ensures debug == GetEnvBool(env, "DEBUG", old(debug))
      ensures logLevel == Upper(GetEnv(env, "LOG_LEVEL", Some(old(logLevel))).GetOr(old(logLevel)))
    {
      appName := GetEnv(env, "APP_NAME", Some(appName)).GetOr(appName);
      appVersion := GetEnv(env, "APP_VERSION", Some(appVersion)).GetOr(appVersion);
      environment := GetEnv(env, "ENVIRONMENT", Some(environment)).GetOr(environment);
      port := GetEnvInt(env, "PORT", port);
      debug := GetEnvBool(env, "DEBUG", debug);
      logLevel := Upper(GetEnv(env, "LOG_LEVEL", Some(logLevel)).GetOr(logLevel));
    }

    /** The database settings of `load()`: unset host, name, user and password become `None`. */
    method LoadDatabase(env: Env)
      modifies this`databaseHost, this`databasePort, this`databaseName, this`databaseUser, this`databasePassword
      ensures databaseHost == GetEnv(env, "DATABASE_HOST", None)
      ensures databasePort == GetEnvInt(env, "DATABASE_PORT", old(databasePort))
      ensures databaseName == GetEnv(env, "DATABASE_NAME", None)
      ensures databaseUser == GetEnv(env, "DATABASE_USER", None)
      ensures databasePassword == GetEnv(env, "DATABASE_PASSWORD", None)
    {
      databaseHost := GetEnv(env, "DATABASE_HOST", None);
      databasePort := GetEnvInt(env, "DATABASE_PORT", databasePort);
      databaseName := GetEnv(env, "DATABASE_NAME", None);
      databaseUser := GetEnv(env, "DATABASE_USER", None);
      databasePassword := GetEnv(env, "DATABASE_PASSWORD", None);
    }

    /** The Redis, JWT and security settings of `load()`. */
    method LoadServices(env: Env)
      modifies this`redisHost, this`redisPort, this`redisTtl, this`jwtSecret, this`jwtExpirationHours, this`rateLimitEnabled
      ensures redisHost == GetEnv(env, "REDIS_HOST", Some(old(redisHost))).GetOr(old(redisHost))
      ensures redisPort == GetEnvInt(env, "REDIS_PORT", old(redisPort))
      ensures redisTtl == GetEnvInt(env, "REDIS_TTL", old(redisTtl))
      ensures jwtSecret == GetEnv(env, "JWT_SECRET", None)
      ensures jwtExpirationHours == GetEnvInt(env, "JWT_EXPIRATION_HOURS", old(jwtExpirationHours))
      ensures rateLimitEnabled == GetEnvBool(env, "RATE_LIMIT_ENABLED", old(rateLimitEnabled))
    {
      redisHost := GetEnv(env, "REDIS_HOST", Some(redisHost)).GetOr(redisHost);
      redisPort := GetEnvInt(env, "REDIS_PORT", redisPort);
      redisTtl := GetEnvInt(env, "REDIS_TTL", redisTtl);
      jwtSecret := GetEnv(env, "JWT_SECRET", None);
      jwtExpirationHours := GetEnvInt(env, "JWT_EXPIRATION_HOURS", jwtExpirationHours);
      rateLimitEnabled := GetEnvBool(env, "RATE_LIMIT_ENABLED", rateLimitEnabled);
    }

    /** The assignments of `load()`, section by section. */
    method ReadEnvironment(env: Env)
      modifies this
      ensures Current() == Loaded(old(Current()), env)
    {
      LoadApplication(env);
      LoadDatabase(env);
      LoadServices(env);
    }

    /** `load()`: read every attribute from `env`, then validate; it raises exactly when the
        settings read are not acceptable. */
    method Load(env: Env) returns (errors: seq<ConfigError>, warnings: seq<ConfigWarning>)
      modifies this
      ensures Current() == Loaded(old(Current()), env)
      ensures errors == ValidationErrors(Current())
      ensures warnings == ProductionWarnings(Current())
      ensures errors == [] <==> Acceptable(Current())
    {
      ReadEnvironment(env);
      errors, warnings := Validate();
      ValidationFailsIffUnacceptable(Current());
    }

    /** `is_database_configured()` */
    method DatabaseConfigured() returns (configured: bool)
      ensures configured <==> IsDatabaseConfigured(Current())
    {
      configured := Truthy(databaseHost) && Truthy(databaseName) && Truthy(databaseUser) && Truthy(databasePassword);
    }

    /** `get_summary()` */
    method GetSummary() returns (summary: Summary)
      ensures summary == SummaryOf(Current())
    {
      var configured := DatabaseConfigured();
      summary := Summary(appName, appVersion, environment, port, debug, logLevel, configured,
                         if Truthy(databaseHost) then databaseHost else None, databasePort,
                         if Truthy(databaseName) then databaseName else None,
                         redisHost, redisPort, redisTtl, jwtExpirationHours, rateLimitEnabled);
    }
  }
}
