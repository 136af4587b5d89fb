/**
 * Configuration loading: the process environment, read once at start-up,
 * becomes an immutable `Config`.  The environment is a map from variable
 * names to values; a variable is set exactly when its name is a key.
 */
module Config {
  import opened Wrappers
  import Decimal

  type Environment = map<string, string>

  /** `time.ParseDuration`, left abstract: it reads some strings as a number of nanoseconds. */
  type DurationParser = string -> Option<int>

  /** One second in the nanoseconds of Go's `time.Duration`. */
  const Second: int := 1_000_000_000

  const DefaultPort: string := "8080"
  const DefaultMaxBodySize: int := 1024 * 1024
  const DefaultMinQRSize: int := 64
  const DefaultMaxQRSize: int := 512
  const DefaultQRSize: int := 256
  const DefaultEnv: string := "development"
  const DefaultLogLevel: string := "info"

  /** The `ENV` values for which an unset `LOG_FORMAT` means JSON logs. */
  const ProductionEnvs: set<string> := {"production", "prod", "staging", "live"}

  /** The loaded configuration; the five timeouts are in nanoseconds. */
  datatype Config = Config(
    port: string,
    readTimeout: int,
    writeTimeout: int,
    readHeaderTimeout: int,
    idleTimeout: int,
    shutdownTimeout: int,
    maxBodySize: int,
    minQRSize: int,
    maxQRSize: int,
    defaultQRSize: int,
    env: string,
    logLevel: string,
    logFormat: string)

  /** `getEnv`: a set variable's value, even the empty one; the fallback only when unset. */
  function GetEnv(env: Environment, key: string, fallback: string): (v: string)
    ensures key in env ==> v == env[key]
    ensures key !in env ==> v == fallback
  {
    if key in env then env[key] else fallback
  }

  /** `getEnvInt`: the variable read by `strconv.Atoi`, or the fallback when unset or unreadable. */
  function GetEnvInt(env: Environment, key: string, fallback: int): (v: int)
    ensures key in env && Decimal.Atoi(env[key]).Some? ==> v == Decimal.Atoi(env[key]).value
    ensures key !in env || Decimal.Atoi(env[key]).None? ==> v == fallback
  {
    if key in env then Decimal.Atoi(env[key]).GetOr(fallback) else fallback
  }

  /** `getEnvInt64`: as `GetEnvInt`, read by `strconv.ParseInt` at 64 bits. */
  function GetEnvInt64(env: Environment, key: string, fallback: int): (v: int)
    ensures key in env && Decimal.ParseInt(env[key], 64).Some? ==> v == Decimal.ParseInt(env[key], 64).value
    ensures key !in env || Decimal.ParseInt(env[key], 64).None? ==> v == fallback
  {
    if key in env then Decimal.ParseInt(env[key], 64).GetOr(fallback) else fallback
  }

  /** `getEnvDuration`: as `GetEnvInt`, read by the duration parser. */
  function GetEnvDuration(env: Environment, key: string, fallback: int, parseDuration: DurationParser): (v: int)
    ensures key in env && parseDuration(env[key]).Some? ==> v == parseDuration(env[key]).value
    ensures key !in env || parseDuration(env[key]).None? ==> v == fallback
  {
    if key in env then parseDuration(env[key]).GetOr(fallback) else fallback
  }

  /** The struct literal in `LoadConfig`: every field read from its variable with its default, nothing repaired yet. */
  function ReadEnvironment(env: Environment, parseDuration: DurationParser): (c: Config)
    ensures c.port == GetEnv(env, "PORT", DefaultPort)
    ensures c.readTimeout == GetEnvDuration(env, "READ_TIMEOUT", 5 * Second, parseDuration)
    ensures c.writeTimeout == GetEnvDuration(env, "WRITE_TIMEOUT", 10 * Second, parseDuration)
    ensures c.readHeaderTimeout == GetEnvDuration(env, "READ_HEADER_TIMEOUT", 2 * Second, parseDuration)
    ensures c.idleTimeout == GetEnvDuration(env, "IDLE_TIMEOUT", 60 * Second, parseDuration)
    ensures c.shutdownTimeout == GetEnvDuration(env, "SHUTDOWN_TIMEOUT", 5 * Second, parseDuration)
    ensures c.maxBodySize == GetEnvInt64(env, "MAX_BODY_SIZE", DefaultMaxBodySize)
    ensures c.minQRSize == GetEnvInt(env, "MIN_QR_SIZE", DefaultMinQRSize)
    ensures c.maxQRSize == GetEnvInt(env, "MAX_QR_SIZE", DefaultMaxQRSize)
    ensures c.defaultQRSize == GetEnvInt(env, "DEFAULT_QR_SIZE", DefaultQRSize)
    ensures c.env == GetEnv(env, "ENV", DefaultEnv)
    ensures c.logLevel == GetEnv(env, "LOG_LEVEL", DefaultLogLevel)
    ensures c.logFormat == GetEnv(env, "LOG_FORMAT", "")
  {
    Config(
      port := GetEnv(env, "PORT", DefaultPort),
      readTimeout := GetEnvDuration(env, "READ_TIMEOUT", 5 * Second, parseDuration),
      writeTimeout := GetEnvDuration(env, "WRITE_TIMEOUT", 10 * Second, parseDuration),
      readHeaderTimeout := GetEnvDuration(env, "READ_HEADER_TIMEOUT", 2 * Second, parseDuration),
      idleTimeout := GetEnvDuration(env, "IDLE_TIMEOUT", 60 * Second, parseDuration),
      shutdownTimeout := GetEnvDuration(env, "SHUTDOWN_TIMEOUT", 5 * Second, parseDuration),
      maxBodySize := GetEnvInt64(env, "MAX_BODY_SIZE", DefaultMaxBodySize),
      minQRSize := GetEnvInt(env, "MIN_QR_SIZE", DefaultMinQRSize),
      maxQRSize := GetEnvInt(env, "MAX_QR_SIZE", DefaultMaxQRSize),
      defaultQRSize := GetEnvInt(env, "DEFAULT_QR_SIZE", DefaultQRSize),
      env := GetEnv(env, "ENV", DefaultEnv),
      logLevel := GetEnv(env, "LOG_LEVEL", DefaultLogLevel),
      logFormat := GetEnv(env, "LOG_FORMAT", ""))
  }

  /**
   * The repairs `LoadConfig` makes after reading: an inverted QR size range
   * is swapped, a non-positive default size becomes 256, and an empty log
   * format is derived from the environment name.
   */
  function Normalise(raw: Config): (c: Config)
    ensures c.minQRSize <= c.maxQRSize
    ensures multiset{c.minQRSize, c.maxQRSize} == multiset{raw.minQRSize, raw.maxQRSize}
    ensures raw.minQRSize <= raw.maxQRSize ==> c.minQRSize == raw.minQRSize && c.maxQRSize == raw.maxQRSize
    ensures c.defaultQRSize > 0
    ensures raw.defaultQRSize > 0 ==> c.defaultQRSize == raw.defaultQRSize
    ensures raw.defaultQRSize <= 0 ==> c.defaultQRSize == DefaultQRSize
    ensures c.logFormat != ""
    ensures raw.logFormat != "" ==> c.logFormat == raw.logFormat
    ensures raw.logFormat == "" ==> (c.logFormat == "json" <==> raw.env in ProductionEnvs)
    ensures raw.logFormat == "" ==> c.logFormat == "json" || c.logFormat == "text"
    ensures c == raw.(minQRSize := c.minQRSize, maxQRSize := c.maxQRSize,
                      defaultQRSize := c.defaultQRSize, logFormat := c.logFormat)
  {
    var sized := if raw.minQRSize > raw.maxQRSize
      then raw.(minQRSize := raw.maxQRSize, maxQRSize := raw.minQRSize)
      else raw;
    var defaulted := if sized.defaultQRSize <= 0 then sized.(defaultQRSize := DefaultQRSize) else sized;
    if defaulted.logFormat == "" then
      defaulted.(logFormat := if defaulted.env in ProductionEnvs then "json" else "text")
    else
      defaulted
  }

  /** `LoadConfig`, with the process environment and the duration parser passed in. */
  function LoadConfig(env: Environment, parseDuration: DurationParser): (c: Config)
    ensures c.minQRSize <= c.maxQRSize
    ensures c.defaultQRSize > 0
    ensures c.logFormat != ""
  {
    Normalise(ReadEnvironment(env, parseDuration))
  }

  /** With no variable set, every field takes its documented default. */
  lemma UnsetVariablesGiveDefaults(parseDuration: DurationParser)
    ensures LoadConfig(map[], parseDuration) ==
      Config(DefaultPort, 5 * Second, 10 * Second, 2 * Second, 60 * Second, 5 * Second,
             DefaultMaxBodySize, DefaultMinQRSize, DefaultMaxQRSize, DefaultQRSize,
             DefaultEnv, DefaultLogLevel, "text")
  {
    assert DefaultEnv !in ProductionEnvs;
  }

  /** A body limit written out in decimal is read back by `getEnvInt64` exactly. */
  lemma GetEnvInt64RoundTrip(env: Environment, key: string, n: int, fallback: int)
    requires Decimal.InRange(n, 64)
    ensures GetEnvInt64(env[key := Decimal.FormatInt(n)], key, fallback) == n
  {
    Decimal.ParseFormatRoundTrip(n, 64);
  }

  /** A size written out in decimal is read back by `getEnvInt` exactly. */
  lemma GetEnvIntRoundTrip(env: Environment, key: string, n: int, fallback: int)
    requires Decimal.InRange(n, Decimal.IntSize)
    ensures GetEnvInt(env[key := Decimal.FormatInt(n)], key, fallback) == n
  {
    Decimal.ParseFormatRoundTrip(n, Decimal.IntSize);
  }

  /** A value that is not a decimal integer is ignored: the default is used as if unset. */
  lemma UnreadableIntIsUnset(env: Environment, key: string, fallback: int)
    requires key in env && Decimal.Atoi(env[key]).None?
    ensures GetEnvInt(env, key, fallback) == GetEnvInt(env - {key}, key, fallback)
  {
  }

  /** Setting `LOG_FORMAT` to the empty string is the same as leaving it unset. */
  lemma EmptyLogFormatIsUnset(env: Environment, parseDuration: DurationParser)
    ensures LoadConfig(env["LOG_FORMAT" := ""], parseDuration) == LoadConfig(env - {"LOG_FORMAT"}, parseDuration)
  {
    var a := env["LOG_FORMAT" := ""];
    var b := env - {"LOG_FORMAT"};
    forall k | k != "LOG_FORMAT"
      ensures (k in a <==> k in b) && (k in a ==> a[k] == b[k])
    {
    }
    assert ReadEnvironment(a, parseDuration) == ReadEnvironment(b, parseDuration);
  }
}
