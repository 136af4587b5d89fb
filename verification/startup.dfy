/**
 * Start-up wiring: the loaded configuration is handed to the logger and
 * to the handler.  Only the field mapping is modelled; the server, its
 * goroutine and signal handling are not.
 */
module Startup {
  import Config
  import Handler
  import Logger
  import Text

  /** The handler's configuration, copied field by field from the loaded one. */
  function HandlerConfigOf(cfg: Config.Config): Handler.HandlerConfig {
    Handler.HandlerConfig(cfg.maxBodySize, cfg.minQRSize, cfg.maxQRSize, cfg.defaultQRSize)
  }

  /** The logger's configuration, copied field by field from the loaded one. */
  function LoggerConfigOf(cfg: Config.Config): Logger.LoggerConfig {
    Logger.LoggerConfig(cfg.logLevel, cfg.logFormat, cfg.env)
  }

  /** The handler built at start-up, from a given environment. */
  function StartHandler(env: Config.Environment, parseDuration: Config.DurationParser): (h: Handler.HandlerConfig)
    ensures h.minQRSize <= h.maxQRSize
    ensures h.defaultSize > 0
    ensures h == HandlerConfigOf(Config.LoadConfig(env, parseDuration))
  {
    Handler.NewHandler(HandlerConfigOf(Config.LoadConfig(env, parseDuration)))
  }

  /**
   * The logger set up at start-up, from a given environment: its level
   * from `LOG_LEVEL`, its format from `LOG_FORMAT` or, when that is unset
   * or empty, from `ENV`.
   */
  function StartLogger(env: Config.Environment, parseDuration: Config.DurationParser): (st: Logger.Setup)
    ensures st.level == Logger.ParseLevel(Config.GetEnv(env, "LOG_LEVEL", Config.DefaultLogLevel))
    ensures st.env == Config.GetEnv(env, "ENV", Config.DefaultEnv)
    ensures Config.GetEnv(env, "LOG_FORMAT", "") != "" ==>
      st.format == Logger.SelectFormat(env["LOG_FORMAT"])
    ensures Config.GetEnv(env, "LOG_FORMAT", "") == "" ==>
      (st.format == Logger.JsonHandler <==> Config.GetEnv(env, "ENV", Config.DefaultEnv) in Config.ProductionEnvs)
  {
    Logger.DerivedFormatNames();
    Logger.New(LoggerConfigOf(Config.LoadConfig(env, parseDuration)))
  }

  /** A request without a `size` parameter always gets a positive size at start-up defaults. */
  lemma MissingSizeIsPositive(env: Config.Environment, parseDuration: Config.DurationParser)
    ensures Handler.ParseSize(StartHandler(env, parseDuration), "") > 0
  {
  }

  /** With `LOG_FORMAT` unset or empty, the JSON handler is chosen exactly for the production-like `ENV` values. */
  lemma DerivedLogFormat(env: Config.Environment, parseDuration: Config.DurationParser)
    requires "LOG_FORMAT" !in env || env["LOG_FORMAT"] == ""
    ensures StartLogger(env, parseDuration).format == Logger.JsonHandler <==>
      Config.GetEnv(env, "ENV", Config.DefaultEnv) in Config.ProductionEnvs
  {
    var raw := Config.ReadEnvironment(env, parseDuration);
    assert raw.logFormat == "";
    var cfg := Config.Normalise(raw);
    assert cfg.logFormat == "json" <==> raw.env in Config.ProductionEnvs;
    assert cfg.logFormat == "json" || cfg.logFormat == "text";
    Logger.DerivedFormatNames();
  }

  /** A non-empty `LOG_FORMAT` is passed through unchanged and chooses the handler by itself. */
  lemma ExplicitLogFormat(env: Config.Environment, parseDuration: Config.DurationParser)
    requires "LOG_FORMAT" in env && env["LOG_FORMAT"] != ""
    ensures StartLogger(env, parseDuration).format == Logger.SelectFormat(env["LOG_FORMAT"])
  {
  }

  /** With `LOG_LEVEL` unset the level is `Info`. */
  lemma DefaultLogLevel(env: Config.Environment, parseDuration: Config.DurationParser)
    requires "LOG_LEVEL" !in env
    ensures StartLogger(env, parseDuration).level == Logger.Info
  {
    Logger.LevelNameRoundTrip(Logger.Info);
    assert Config.GetEnv(env, "LOG_LEVEL", Config.DefaultLogLevel) == Logger.LevelName(Logger.Info);
  }
}
