/**
 * Logger option parsing: how the `LOG_LEVEL` and `LOG_FORMAT` strings
 * choose a `slog` level and handler.  Building the handler and writing
 * records are outside the model; only the choices are.
 */
module Logger {
  import Text

  /** The four `slog` levels the service can select. */
  datatype Level = Debug | Info | Warn | Error

  /** Which `slog` handler writes the records. */
  datatype Format = JsonHandler | TextHandler

  /** The logger's configuration: level and format options, and the environment name. */
  datatype LoggerConfig = LoggerConfig(level: string, format: string, env: string)

  /** What `New` decides: the level, the handler, and the `env` attribute every record carries. */
  datatype Setup = Setup(level: Level, format: Format, env: string)

  /** The level names `ParseLevel` recognises, in normalised form. */
  const LevelNames: set<string> := {"debug", "warn", "warning", "error"}

  /** `parseLevel`: a total mapping, defaulting to `Info`. */
  function ParseLevel(s: string): (l: Level)
    ensures l == Debug <==> Text.Canonical(s) == "debug"
    ensures l == Warn <==> Text.Canonical(s) == "warn" || Text.Canonical(s) == "warning"
    ensures l == Error <==> Text.Canonical(s) == "error"
    ensures l == Info <==> Text.Canonical(s) !in LevelNames
  {
    LevelOf(Text.Canonical(s))
  }

  /** The `switch` in `parseLevel`, on the already normalised option. */
  function LevelOf(c: string): (l: Level)
    ensures l == Debug <==> c == "debug"
    ensures l == Warn <==> c == "warn" || c == "warning"
    ensures l == Error <==> c == "error"
    ensures l == Info <==> c !in LevelNames
  {
    if c == "debug" then Debug
    else if c == "warn" || c == "warning" then Warn
    else if c == "error" then Error
    else Info
  }

  /** The format switch in `New`: only `json` selects the JSON handler. */
  function SelectFormat(s: string): (f: Format)
    ensures f == JsonHandler <==> Text.Canonical(s) == "json"
  {
    if Text.Canonical(s) == "json" then JsonHandler else TextHandler
  }

  /** `New`, with the handler construction replaced by the choices it makes. */
  function New(cfg: LoggerConfig): (st: Setup)
    ensures st.level == ParseLevel(cfg.level)
    ensures st.format == JsonHandler <==> Text.Canonical(cfg.format) == "json"
    ensures st.env == cfg.env
  {
    Setup(ParseLevel(cfg.level), SelectFormat(cfg.format), cfg.env)
  }

  /** A name `ParseLevel` accepts for each level. */
  function LevelName(l: Level): string {
    match l
    case Debug => "debug"
    case Info => "info"
    case Warn => "warn"
    case Error => "error"
  }

  /** Every level is reachable: `LevelName` is a right inverse of `ParseLevel`. */
  lemma LevelNameRoundTrip(l: Level)
    ensures ParseLevel(LevelName(l)) == l
  {
    var name := LevelName(l);
    assert Text.ToLower(name) == name;
    Text.PlainIsCanonical(name);
  }

  /** Parsing an already normalised string gives the same level. */
  lemma ParseLevelNormalises(s: string)
    ensures ParseLevel(Text.Canonical(s)) == ParseLevel(s)
  {
    Text.CanonicalIdempotent(s);
  }

  /** Surrounding white space and letter case never change the level. */
  lemma ParseLevelIgnoresPaddingAndCase(pre: string, t: string, post: string, s: string)
    requires Text.AllSpace(pre) && Text.AllSpace(post)
    requires Text.ToLower(t) == Text.ToLower(s)
    ensures ParseLevel(pre + t + post) == ParseLevel(s)
  {
    Text.TrimSpaceIgnoresPadding(pre, t, post);
    Text.CanonicalIgnoresCase(t, s);
  }

  /** Surrounding white space and letter case never change the format either. */
  lemma SelectFormatIgnoresPaddingAndCase(pre: string, t: string, post: string, s: string)
    requires Text.AllSpace(pre) && Text.AllSpace(post)
    requires Text.ToLower(t) == Text.ToLower(s)
    ensures SelectFormat(pre + t + post) == SelectFormat(s)
  {
    Text.TrimSpaceIgnoresPadding(pre, t, post);
    Text.CanonicalIgnoresCase(t, s);
  }

  /** The two format names `LoadConfig` derives choose the handler they name. */
  lemma DerivedFormatNames()
    ensures SelectFormat("json") == JsonHandler
    ensures SelectFormat("text") == TextHandler
  {
    var json := "json";
    var text := "text";
    assert Text.ToLower(json) == json;
    assert Text.ToLower(text) == text;
    Text.PlainIsCanonical(json);
    Text.PlainIsCanonical(text);
  }

  /** An upper-case level name selects its level: `DEBUG` is `Debug`. */
  lemma UpperCaseDebug()
    ensures ParseLevel("DEBUG") == Debug
  {
    Text.UpperCaseWord("DEBUG", "debug");
  }

  /** A padded, upper-case ` JSON ` selects the JSON handler. */
  lemma PaddedUpperCaseJson()
    ensures SelectFormat(" JSON ") == JsonHandler
  {
    var json := "JSON";
    Text.UpperCaseWord(json, "json");
    Text.TrimSpaceIgnoresPadding(" ", json, " ");
    assert " " + json + " " == " JSON ";
  }
}
