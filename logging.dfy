/** The level names of the logging configuration (logging/logging.go). */
module Logging {
  import opened Wrappers

  /** slog's four standard levels. */
  datatype Level = LevelDebug | LevelInfo | LevelWarn | LevelError

  /** The configuration token that names each level. */
  function Name(l: Level): string {
    match l
    case LevelDebug => "debug"
    case LevelInfo => "info"
    case LevelWarn => "warn"
    case LevelError => "error"
  }

  /** strToLevel: a level for the four tokens; LevelInfo and an error for anything else. */
  function StrToLevel(s: string): (r: (Level, Option<string>))
    ensures r.1.None? <==> s in {"debug", "info", "warn", "error"}
    ensures r.1.None? ==> Name(r.0) == s
    ensures r.1.Some? ==> r.0 == LevelInfo && r.1.value == "no " + s + " logging level"
  {
    match s
    case "debug" => (LevelDebug, None)
    case "info" => (LevelInfo, None)
    case "warn" => (LevelWarn, None)
    case "error" => (LevelError, None)
    case _ => (LevelInfo, Some("no " + s + " logging level"))
  }

  /** Every level's token reads back as that level, and the tokens are distinct. */
  lemma StrToLevelRoundTrip(l: Level, m: Level)
    ensures StrToLevel(Name(l)) == (l, None)
    ensures Name(l) == Name(m) ==> l == m
  {
  }

  /** A logger as configured at start-up: its minimum level and whether it adds the source position. */
  datatype Logger = Logger(level: Level, addSource: bool)

  /** The package's two loggers. */
  datatype Loggers = Loggers(general: Logger, driver: Logger)

  /** GetGeneralLogger: the logger without source positions, for everything but the drivers. */
  function GetGeneralLogger(ls: Loggers): (r: Logger)
    ensures r == ls.general
  {
    ls.general
  }

  /** GetDriverLogger: the driver logger, whichever driver asks. */
  function GetDriverLogger(ls: Loggers, name: string): (r: Logger)
    ensures r == ls.driver
  {
    ls.driver
  }

  /** GetDriverLogger ignores the name: every driver gets the one shared driver logger. */
  lemma DriverLoggerShared(ls: Loggers, a: string, b: string)
    ensures GetDriverLogger(ls, a) == GetDriverLogger(ls, b) == ls.driver
  {
  }
}
