/**
 * The parts of log4j 1.2 that the logger code talks to, kept opaque: levels
 * with their integer ranks, pattern layouts as records, logger handles,
 * logging events, file appenders, and the calls made on the root logger and
 * the logger repository, recorded as a trace instead of being executed.
 */
module Log4j {
  import opened JavaLang

  /** `org.apache.log4j.Level`, most severe first. */
  datatype Level = Off | Fatal | Error | Warn | Info | Debug | Trace | All

  /** `Level.toInt()`: the rank log4j compares levels by. */
  function ToInt(l: Level): int {
    match l
    case Off => IntMaxValue
    case Fatal => 50000
    case Error => 40000
    case Warn => 30000
    case Info => 20000
    case Debug => 10000
    case Trace => 5000
    case All => IntMinValue
  }

  /** Ranks order the levels strictly: a level listed earlier outranks every later one. */
  lemma ToIntInjective(a: Level, b: Level)
    ensures ToInt(a) == ToInt(b) <==> a == b
  {
  }

  /** `Level.toString()`. */
  function LevelName(l: Level): string {
    match l
    case Off => "OFF"
    case Fatal => "FATAL"
    case Error => "ERROR"
    case Warn => "WARN"
    case Info => "INFO"
    case Debug => "DEBUG"
    case Trace => "TRACE"
    case All => "ALL"
  }

  /**
   * `Level.toLevel(String)` applied to an upper-case name: the level with that
   * name, or DEBUG (log4j's default) when no level has it.
   */
  function LevelNamed(name: string): (r: Level)
    ensures LevelName(r) == name || r == Debug
  {
    if name == "ALL" then All
    else if name == "DEBUG" then Debug
    else if name == "INFO" then Info
    else if name == "WARN" then Warn
    else if name == "ERROR" then Error
    else if name == "FATAL" then Fatal
    else if name == "OFF" then Off
    else if name == "TRACE" then Trace
    else Debug
  }

  /** Parsing a level's own name gives the level back. */
  lemma LevelNamedRoundTrip(l: Level)
    ensures LevelNamed(LevelName(l)) == l
  {
  }

  /** `org.apache.log4j.PatternLayout` built from a conversion pattern; rendering is not modelled. */
  datatype Layout = PatternLayout(conversionPattern: JString)

  /** An exception carried by a logging call. */
  datatype Throwable = Throwable(localizedMessage: JString)

  /** A `org.apache.log4j.Logger` handle, identified but otherwise opaque. */
  datatype LoggerId = LoggerId(handle: nat)

  /** `org.apache.log4j.spi.LoggingEvent`: what an appender is asked to output. */
  datatype LoggingEvent = LoggingEvent(level: Level, loggerName: string, message: JString, throwableInfo: Option<Throwable>)

  /** How a file appender writes: `RollingFileAppender` with its three settings, or a plain `FileAppender`. */
  datatype FileMode =
    | Rolling(maxBackupIndex: int, maximumFileSize: int, immediateFlush: bool)
    | Plain

  /** A log4j file appender object: the settings it was created and configured with. */
  class FileAppender {
    const layout: Option<Layout>
    const file: JString
    const mode: FileMode

    constructor (layout: Option<Layout>, file: JString, mode: FileMode)
      ensures this.layout == layout && this.file == file && this.mode == mode
    {
      this.layout := layout;
      this.file := file;
      this.mode := mode;
    }
  }

  /**
   * One call made into log4j's global state: resetting the logger repository,
   * switching `LogLog` internal debugging, setting the root logger's level, or
   * attaching an appender (of type `A`) to the root logger.
   */
  datatype Log4jCall<A> =
    | ResetConfiguration
    | SetInternalDebugging(on: bool)
    | RootSetLevel(level: Option<Level>)
    | RootAddAppender(appender: A)

  /** The appenders attached by a run of calls, in order. */
  function Attached<A>(calls: seq<Log4jCall<A>>): seq<A>
    decreases |calls|
  {
    if |calls| == 0 then []
    else Attached(calls[..|calls| - 1]) + (if calls[|calls| - 1].RootAddAppender? then [calls[|calls| - 1].appender] else [])
  }

  /** The appenders attached by two runs of calls, one after the other. */
  lemma {:induction false} AttachedAppend<A>(a: seq<Log4jCall<A>>, b: seq<Log4jCall<A>>)
    ensures Attached(a + b) == Attached(a) + Attached(b)
    decreases |b|
  {
    if |b| == 0 {
      assert a + b == a;
    } else {
      assert (a + b)[..|a + b| - 1] == a + b[..|b| - 1];
      AttachedAppend(a, b[..|b| - 1]);
    }
  }

  /** The levels given to the root logger by a run of calls, in order. */
  function LevelsSet<A>(calls: seq<Log4jCall<A>>): seq<Option<Level>>
    decreases |calls|
  {
    if |calls| == 0 then []
    else LevelsSet(calls[..|calls| - 1]) + (if calls[|calls| - 1].RootSetLevel? then [calls[|calls| - 1].level] else [])
  }

  /** The levels set by two runs of calls, one after the other. */
  lemma {:induction false} LevelsSetAppend<A>(a: seq<Log4jCall<A>>, b: seq<Log4jCall<A>>)
    ensures LevelsSet(a + b) == LevelsSet(a) + LevelsSet(b)
    decreases |b|
  {
    if |b| == 0 {
      assert a + b == a;
    } else {
      assert (a + b)[..|a + b| - 1] == a + b[..|b| - 1];
      LevelsSetAppend(a, b[..|b| - 1]);
    }
  }

  /** `Attached` over four consecutive runs. */
  lemma AttachedAppend4<A>(a: seq<Log4jCall<A>>, b: seq<Log4jCall<A>>, c: seq<Log4jCall<A>>, d: seq<Log4jCall<A>>)
    ensures Attached(a + b + c + d) == Attached(a) + Attached(b) + Attached(c) + Attached(d)
  {
    AttachedAppend(a, b);
    AttachedAppend(a + b, c);
    AttachedAppend(a + b + c, d);
  }

  /** Runs that attach nothing around two others leave just those two's attachments. */
  lemma AttachedBetween<A>(a: seq<Log4jCall<A>>, b: seq<Log4jCall<A>>, c: seq<Log4jCall<A>>, d: seq<Log4jCall<A>>)
    requires Attached(a) == [] && Attached(d) == []
    ensures Attached(a + b + c + d) == Attached(b) + Attached(c)
  {
    AttachedAppend4(a, b, c, d);
  }

  /** A run that sets no level, followed by three others, leaves just those three's levels. */
  lemma LevelsSetAfter<A>(a: seq<Log4jCall<A>>, b: seq<Log4jCall<A>>, c: seq<Log4jCall<A>>, d: seq<Log4jCall<A>>)
    requires LevelsSet(a) == []
    ensures LevelsSet(a + b + c + d) == LevelsSet(b) + LevelsSet(c) + LevelsSet(d)
  {
    LevelsSetAppend4(a, b, c, d);
  }

  /** `LevelsSet` over four consecutive runs. */
  lemma LevelsSetAppend4<A>(a: seq<Log4jCall<A>>, b: seq<Log4jCall<A>>, c: seq<Log4jCall<A>>, d: seq<Log4jCall<A>>)
    ensures LevelsSet(a + b + c + d) == LevelsSet(a) + LevelsSet(b) + LevelsSet(c) + LevelsSet(d)
  {
    LevelsSetAppend(a, b);
    LevelsSetAppend(a + b, c);
    LevelsSetAppend(a + b + c, d);
  }

  /** The `Logger` methods a log call ends in. */
  datatype LoggerMethod = LoggerError | LoggerWarn | LoggerInfo | LoggerDebug
}
