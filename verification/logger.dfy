/** Logger set-up decisions (pkg/logger/logger.go): the level a configured
    name selects, and where and how log lines are written. Building the zap
    core itself is outside the model. */
module Logger {
  import opened Wrappers

  datatype Level = Debug | Info | Warn | Error

  datatype Encoder = Json | Console

  datatype Sink = LogFile(path: string) | Stdout

  /** The logger `Init` builds: level, destination and line encoding. */
  datatype Setup = Setup(level: Level, sink: Sink, encoder: Encoder)

  /** The configuration name of a level. */
  function LevelName(l: Level): string {
    match l
    case Debug => "debug"
    case Info => "info"
    case Warn => "warn"
    case Error => "error"
  }

  /** The level for a configured name; matching is exact and every other
      name, including "" and upper-case spellings, gives Info. */
  function ParseLevel(s: string): (l: Level)
    ensures l == Debug <==> s == "debug"
    ensures l == Warn <==> s == "warn"
    ensures l == Error <==> s == "error"
    ensures l == Info <==> s !in {"debug", "warn", "error"}
  {
    if s == "debug" then Debug
    else if s == "info" then Info
    else if s == "warn" then Warn
    else if s == "error" then Error
    else Info
  }

  /** Names round-trip through the parser, and a parsed level other than
      Info came from exactly its own name. */
  lemma ParseLevelInvertsName(l: Level, s: string)
    ensures ParseLevel(LevelName(l)) == l
    ensures ParseLevel(s) != Info ==> LevelName(ParseLevel(s)) == s
  {
  }

  /** Configures the logger. File output is used exactly when the output is
      "file" and a path is given, and then uses the JSON encoder; otherwise
      lines go to stdout through the console encoder. Opening the file may
      fail (`openErr`), which `Init` returns. */
  function Init(level: string, output: string, filePath: string, openErr: Option<string>): (r: Outcome<Setup>)
    ensures r.Err? <==> output == "file" && filePath != "" && openErr.Some?
    ensures r.Err? ==> r.error == openErr.value
    ensures r.Ok? ==> r.value.level == ParseLevel(level)
    ensures r.Ok? ==> (r.value.sink.LogFile? <==> output == "file" && filePath != "")
    ensures r.Ok? ==> (r.value.sink.LogFile? ==> r.value.sink.path == filePath)
    ensures r.Ok? ==> (r.value.encoder == Json <==> r.value.sink.LogFile?)
  {
    var l := ParseLevel(level);
    if output == "file" && filePath != "" then
      match openErr
      case Some(e) => Err(e)
      case None => Ok(Setup(l, LogFile(filePath), Json))
    else
      Ok(Setup(l, Stdout, Console))
  }
}
