/**
 * The static state of `LogHelper` and the operations on it: the current log
 * type, the switch between log4j and the platform log, the shared
 * configurator, the logger cache, the `log4jConfigure` overloads and the
 * level-named logging helpers.
 */
module LogHelperStatics {
  import opened JavaLang
  import opened AndroidLog
  import L = Log4j
  import LT = LogTypes
  import LogHelper
  import Configurator
  import LoggerRegistry
  import Lib = LibAndroidAppender

  /** `LOG_FILE_NAME`. */
  const LogFileName: string := "android.log"
  /** `MAX_BACKUP_FILES`. */
  const MaxBackupFiles: int := 3
  /** `MAX_FILE_SIZE`: 5 MiB. */
  const MaxFileSize: int := 1024 * 1024 * 5
  /** `LOG_PATTERN`. */
  const LogPattern: string := "[%d{yyyy-MM-dd HH:mm:ss.S zzz}] %5p [%c{1}(%L)] - %m%n"

  /** The five level-named helpers `e`, `w`, `i`, `d` and `v`. */
  datatype LogCall = CallE | CallW | CallI | CallD | CallV

  /** The log type each helper checks before writing. */
  function GateType(c: LogCall): (r: LT.LogType)
    ensures LT.ToLevel(Some(r)).Ok?
    ensures r != LT.Suppress
  {
    match c
    case CallE => LT.Error
    case CallW => LT.Warn
    case CallI => LT.Info
    case CallD => LT.Debug
    case CallV => LT.Verbose
  }

  /** The log4j `Logger` method each helper ends in; `v` uses `debug`. */
  function LoggerMethodFor(c: LogCall): L.LoggerMethod {
    match c
    case CallE => L.LoggerError
    case CallW => L.LoggerWarn
    case CallI => L.LoggerInfo
    case CallD | CallV => L.LoggerDebug
  }

  /** The level a log4j `Logger` method logs at. */
  function LoggerMethodLevel(m: L.LoggerMethod): L.Level {
    match m
    case LoggerError => L.Error
    case LoggerWarn => L.Warn
    case LoggerInfo => L.Info
    case LoggerDebug => L.Debug
  }

  /** The platform `Log` method each helper calls when log4j is switched off. */
  function PlatformMethodFor(c: LogCall): LogMethod {
    match c
    case CallE => LogE
    case CallW => LogW
    case CallI => LogI
    case CallD => LogD
    case CallV => LogV
  }

  /**
   * Each helper logs through log4j at the level it checks, except `v`, which
   * checks VERBOSE (TRACE) but logs at DEBUG.
   */
  lemma LoggerLevelMatchesGate(c: LogCall)
    ensures c != CallV ==> LoggerMethodLevel(LoggerMethodFor(c)) == LT.ToLevel(Some(GateType(c))).value
    ensures c == CallV ==> LT.ToLevel(Some(GateType(c))).value == L.Trace && LoggerMethodLevel(LoggerMethodFor(c)) == L.Debug
  {
  }

  /**
   * On the platform route each helper calls the same `Log` method the
   * library's appender would choose for the level the helper checks.
   */
  lemma PlatformMethodMatchesAppender(c: LogCall)
    ensures Lib.NativeMethod(LT.ToLevel(Some(GateType(c))).value) == Some(PlatformMethodFor(c))
  {
  }

  /** Where one helper call ends up. */
  datatype Emission =
    | Dropped
    | ToLogger(logger: L.LoggerId, loggerMethod: L.LoggerMethod, message: JString, throwable: Option<L.Throwable>)
    | ToPlatform(call: PlatformCall)

  /** The platform call of a helper: the tag as given, the message as `toString(Object)` renders it. */
  function PlatformCallFor(m: LogMethod, tag: JString, message: JString, throwable: Option<L.Throwable>): PlatformCall {
    PlatformCall(m, Literal(tag), Some(Literal(Some(LogHelper.ObjectToString(message)))), throwable)
  }

  /**
   * One helper call, given whether its level is enabled, whether log4j output
   * is on, and the logger cache: nothing when the level is disabled; through
   * the cached logger for the tag when log4j is on (a null tag throws from
   * `getLogger`); otherwise to the platform log. The new cache comes second.
   */
  function Dispatch(c: LogCall, enabled: bool, log4jOn: bool, loggers: map<string, L.LoggerId>,
                    tag: JString, message: JString, throwable: Option<L.Throwable>,
                    fromRepository: L.LoggerId): (r: (Result<Emission>, map<string, L.LoggerId>))
    ensures !enabled ==> r == (Ok(Dropped), loggers)
    ensures enabled && log4jOn && tag.None? ==> r == (Throw(IllegalArgumentException), loggers)
    ensures enabled && log4jOn && tag.Some? ==>
      && r.0.Ok? && r.0.value.ToLogger?
      && (r.0.value.logger, r.1) == LoggerRegistry.CacheLookup(loggers, tag.value, fromRepository)
      && r.0.value.loggerMethod == LoggerMethodFor(c)
      && r.0.value.message == message && r.0.value.throwable == throwable
    ensures enabled && !log4jOn ==>
      && r.1 == loggers && r.0.Ok? && r.0.value.ToPlatform?
      && r.0.value.call.logMethod == PlatformMethodFor(c) && r.0.value.call.tag == Literal(tag)
      && r.0.value.call.message == Some(Literal(Some(LogHelper.ObjectToString(message))))
      && r.0.value.call.throwable == throwable
  {
    if !enabled then (Ok(Dropped), loggers)
    else if log4jOn then
      if tag.None? then (Throw(IllegalArgumentException), loggers)
      else
        var (logger, loggers') := LoggerRegistry.CacheLookup(loggers, tag.value, fromRepository);
        (Ok(ToLogger(logger, LoggerMethodFor(c), message, throwable)), loggers')
    else (Ok(ToPlatform(PlatformCallFor(PlatformMethodFor(c), tag, message, throwable))), loggers)
  }

  /**
   * Two log4j-routed calls with the same tag reach the same logger, whatever
   * log4j would hand out the second time, and the second leaves the cache alone.
   */
  lemma DispatchReusesLogger(c1: LogCall, c2: LogCall, loggers: map<string, L.LoggerId>, tag: string,
                             m1: JString, m2: JString, t1: Option<L.Throwable>, t2: Option<L.Throwable>,
                             first: L.LoggerId, later: L.LoggerId)
    ensures var (r1, loggers1) := Dispatch(c1, true, true, loggers, Some(tag), m1, t1, first);
      var (r2, loggers2) := Dispatch(c2, true, true, loggers1, Some(tag), m2, t2, later);
      r1.Ok? && r2.Ok? && r1.value.logger == r2.value.logger && loggers2 == loggers1
  {
    var (logger, cached) := LoggerRegistry.CacheLookup(loggers, tag, first);
    LoggerRegistry.CacheLookupRepeat(loggers, tag, first, later);
  }

  /**
   * Whether a helper's level is enabled follows severity: under any
   * threshold, when a helper is enabled, so is every helper of a more severe level.
   */
  lemma GatesFollowSeverity(threshold: L.Level, a: LogCall, b: LogCall)
    requires LT.Ordinal(GateType(a)) <= LT.Ordinal(GateType(b))
    ensures Configurator.LevelEnabled(threshold, Some(LT.ToLevel(Some(GateType(b))).value))
      ==> Configurator.LevelEnabled(threshold, Some(LT.ToLevel(Some(GateType(a))).value))
  {
    if GateType(a) != GateType(b) {
      LT.DeclaredOrderIsSeverityOrder(GateType(a), GateType(b));
    }
  }

  /** The arguments the six-argument `log4jConfigure` passes on to the configurator. */
  datatype ConfigureRequest = ConfigureRequest(
    logFolderPath: JString, fileName: JString, level: L.Level,
    logPattern: JString, maxBackupFiles: int, maxFileSize: int)

  /**
   * What `log4jConfigure` hands to the configurator: the level is log4j's
   * `Level.toLevel` of the log type's name, so a null log type throws
   * NullPointerException.
   */
  function ConfigureRequestFor(folder: JString, file: JString, level: Option<LT.LogType>, pattern: JString,
                               maxBackupFiles: Int32, maxFileSize: Int64): (r: Result<ConfigureRequest>)
    ensures level.None? <==> r == Throw(NullPointerException)
    ensures r.Ok? ==> r.value.logFolderPath == folder && r.value.fileName == file && r.value.logPattern == pattern
    ensures r.Ok? ==> r.value.maxBackupFiles == maxBackupFiles && r.value.maxFileSize == maxFileSize
  {
    match level
    case None => Throw(NullPointerException)
    case Some(t) => Ok(ConfigureRequest(folder, file, L.LevelNamed(LT.Name(t)), pattern, maxBackupFiles, maxFileSize))
  }

  /**
   * The level passed on agrees with `LogType.toLevel` for ERROR, WARN, INFO
   * and DEBUG; SUPPRESS, ASSERT and VERBOSE are not log4j level names, so
   * they all become DEBUG.
   */
  lemma ConfigureRequestLevel(t: LT.LogType)
    ensures var level := ConfigureRequestFor(None, None, Some(t), None, 0, 0).value.level;
      && (t == LT.Suppress || t == LT.Assert || t == LT.Verbose ==> level == L.Debug)
      && (t == LT.Error || t == LT.Warn || t == LT.Info || t == LT.Debug ==> Ok(level) == LT.ToLevel(Some(t)))
  {
  }

  class LogHelperState {
    /** `sLogType`. */
    var logType: Option<LT.LogType>
    /** `sLog4JLogsEnabled`. */
    var log4JLogsEnabled: bool
    /** `sLog4jConfigurator`. */
    const configurator: Configurator.Log4JConfigurator
    /** `mCachedLoggers`. */
    const cache: LoggerRegistry.LoggerCache

    /** The class initialiser: log type INFO, log4j output on, a new configurator and an empty cache. */
    constructor ()
      ensures logType == Some(LT.Info) && log4JLogsEnabled
      ensures fresh(configurator) && fresh(cache)
      ensures configurator.logLevel == L.Info && !configurator.rootInitialized && configurator.calls == []
      ensures cache.loggers == map[]
    {
      logType := Some(LT.Info);
      log4JLogsEnabled := true;
      configurator := new Configurator.Log4JConfigurator();
      cache := new LoggerRegistry.LoggerCache();
    }

    /** `isLogType(logType)`: whether it is the current log type. */
    predicate IsLogType(t: Option<LT.LogType>)
      reads this
      ensures IsLogType(t) <==> logType == t
    {
      logType == t
    }

    /**
     * `setLogType`: records the log type and nothing else; in particular the
     * configurator's threshold, and with it every `isLogEnabledFor` answer,
     * stays as it was.
     */
    method SetLogType(t: Option<LT.LogType>)
      modifies this`logType
      ensures IsLogType(t)
      ensures configurator.logLevel == old(configurator.logLevel)
      ensures forall u: LT.LogType :: IsLogEnabledFor(Some(u)) == old(IsLogEnabledFor(Some(u)))
    {
      logType := t;
    }

    /** `setLog4JLogsEnabled`. */
    method SetLog4JLogsEnabled(on: bool)
      modifies this`log4JLogsEnabled
      ensures log4JLogsEnabled == on
    {
      log4JLogsEnabled := on;
    }

    /**
     * `isLogEnabledFor(logType)`: the configurator's answer for the log
     * type's level; `LogType.toLevel` throws for null and for ASSERT.
     * SUPPRESS maps to OFF and is therefore always enabled.
     */
    function IsLogEnabledFor(t: Option<LT.LogType>): (r: Result<bool>)
      reads this, configurator
      ensures t.None? ==> r == Throw(NullPointerException)
      ensures t == Some(LT.Assert) ==> r == Throw(RuntimeException)
      ensures t.Some? && t.value != LT.Assert ==>
        r == Ok(Configurator.LevelEnabled(configurator.logLevel, Some(LT.ToLevel(t).value)))
      ensures t == Some(LT.Suppress) ==> r == Ok(true)
    {
      match LT.ToLevel(t)
      case Throw(e) => Throw(e)
      case Ok(l) => Ok(configurator.IsLogEnabledFor(Some(l)))
    }

    /** `isLogEnabledForProduction()`: whether INFO is enabled, i.e. the threshold is INFO or lower. */
    function IsLogEnabledForProduction(): (r: bool)
      reads this, configurator
      ensures r <==> L.ToInt(configurator.logLevel) <= L.ToInt(L.Info)
    {
      configurator.IsLogEnabledFor(Some(L.Info))
    }

    /** Whether helper `c`'s level is enabled now. */
    function Enabled(c: LogCall): bool
      reads this, configurator
    {
      IsLogEnabledFor(Some(GateType(c))).value
    }

    /**
     * `e`, `w`, `i`, `d` and `v` with a message (and, for `e`, a throwable):
     * `Dispatch` under the current settings, `fromRepository` standing for
     * the logger log4j would create for the tag.
     */
    method Log(c: LogCall, tag: JString, message: JString, throwable: Option<L.Throwable>, fromRepository: L.LoggerId)
      returns (r: Result<Emission>)
      requires c == CallE || throwable.None?
      modifies cache`loggers
      ensures (r, cache.loggers) == Dispatch(c, Enabled(c), log4JLogsEnabled, old(cache.loggers), tag, message, throwable, fromRepository)
    {
      var enabled := IsLogEnabledFor(Some(GateType(c)));
      if !enabled.value {
        return Ok(Dropped);
      }
      if log4JLogsEnabled {
        var logger := cache.GetLogger(tag, fromRepository);
        if logger.Throw? {
          return Throw(logger.exception);
        }
        r := Ok(ToLogger(logger.value, LoggerMethodFor(c), message, throwable));
      } else {
        r := Ok(ToPlatform(PlatformCallFor(PlatformMethodFor(c), tag, message, throwable)));
      }
    }

    /** The `Object` overloads: the message is first rendered by `toString(Object)`, so it is never null. */
    method LogObject(c: LogCall, tag: JString, message: JString, fromRepository: L.LoggerId)
      returns (r: Result<Emission>)
      modifies cache`loggers
      ensures (r, cache.loggers) == Dispatch(c, Enabled(c), log4JLogsEnabled, old(cache.loggers), tag,
        Some(LogHelper.ObjectToString(message)), None, fromRepository)
    {
      r := Log(c, tag, Some(LogHelper.ObjectToString(message)), None, fromRepository);
    }

    /**
     * `e(tag, throwable)`: the throwable's localized message is fetched before
     * anything else, so a null throwable throws NullPointerException even
     * when ERROR is disabled.
     */
    method ErrorThrowable(tag: JString, throwable: Option<L.Throwable>, fromRepository: L.LoggerId)
      returns (r: Result<Emission>)
      modifies cache`loggers
      ensures throwable.None? ==> r == Throw(NullPointerException) && cache.loggers == old(cache.loggers)
      ensures throwable.Some? ==> (r, cache.loggers) == Dispatch(CallE, Enabled(CallE), log4JLogsEnabled, old(cache.loggers), tag,
        throwable.value.localizedMessage, throwable, fromRepository)
    {
      if throwable.None? {
        return Throw(NullPointerException);
      }
      r := Log(CallE, tag, throwable.value.localizedMessage, throwable, fromRepository);
    }

    /**
     * `wtf(tag, message, throwable)` and `wtf(tag, message)`: gated on ERROR
     * and always written with `Log.wtf`, never through log4j.
     */
    function WtfMessage(tag: JString, message: JString, throwable: Option<L.Throwable>): (r: Emission)
      reads this, configurator
      ensures !Enabled(CallE) ==> r == Dropped
      ensures Enabled(CallE) ==> r == ToPlatform(PlatformCallFor(LogWtf, tag, message, throwable))
    {
      if Enabled(CallE) then ToPlatform(PlatformCallFor(LogWtf, tag, message, throwable)) else Dropped
    }

    /** `wtf(tag, throwable)`: the same gate, a `Log.wtf` call without a message. */
    function WtfThrowable(tag: JString, throwable: Option<L.Throwable>): (r: Emission)
      reads this, configurator
      ensures !Enabled(CallE) ==> r == Dropped
      ensures Enabled(CallE) ==> r == ToPlatform(PlatformCall(LogWtf, Literal(tag), None, throwable))
    {
      if Enabled(CallE) then ToPlatform(PlatformCall(LogWtf, Literal(tag), None, throwable)) else Dropped
    }

    /**
     * The six-argument `log4jConfigure`: sets the log type first, even when
     * it is null, then builds what it passes to the configurator.
     */
    method Log4jConfigure(folder: JString, file: JString, level: Option<LT.LogType>, pattern: JString,
                          maxBackupFiles: Int32, maxFileSize: Int64) returns (r: Result<ConfigureRequest>)
      modifies this`logType
      ensures IsLogType(level)
      ensures r == ConfigureRequestFor(folder, file, level, pattern, maxBackupFiles, maxFileSize)
    {
      SetLogType(level);
      if level.None? {
        return Throw(NullPointerException);
      }
      r := Ok(ConfigureRequest(folder, file, L.LevelNamed(LT.Name(level.value)), pattern, maxBackupFiles, maxFileSize));
    }

    /** The five-argument overload: 5 MiB files. */
    method Log4jConfigure5(folder: JString, file: JString, level: Option<LT.LogType>, pattern: JString,
                           maxBackupFiles: Int32) returns (r: Result<ConfigureRequest>)
      modifies this`logType
      ensures IsLogType(level)
      ensures r == ConfigureRequestFor(folder, file, level, pattern, maxBackupFiles, MaxFileSize)
    {
      r := Log4jConfigure(folder, file, level, pattern, maxBackupFiles, MaxFileSize);
    }

    /** The four-argument overload: 3 backup files. */
    method Log4jConfigure4(folder: JString, file: JString, level: Option<LT.LogType>, pattern: JString)
      returns (r: Result<ConfigureRequest>)
      modifies this`logType
      ensures IsLogType(level)
      ensures r == ConfigureRequestFor(folder, file, level, pattern, MaxBackupFiles, MaxFileSize)
    {
      r := Log4jConfigure5(folder, file, level, pattern, MaxBackupFiles);
    }

    /** The three-argument overload: the default pattern. */
    method Log4jConfigure3(folder: JString, file: JString, level: Option<LT.LogType>)
      returns (r: Result<ConfigureRequest>)
      modifies this`logType
      ensures IsLogType(level)
      ensures r == ConfigureRequestFor(folder, file, level, Some(LogPattern), MaxBackupFiles, MaxFileSize)
    {
      r := Log4jConfigure4(folder, file, level, Some(LogPattern));
    }

    /** The two-argument overload: the default file name. */
    method Log4jConfigure2(folder: JString, level: Option<LT.LogType>) returns (r: Result<ConfigureRequest>)
      modifies this`logType
      ensures IsLogType(level)
      ensures r == ConfigureRequestFor(folder, Some(LogFileName), level, Some(LogPattern), MaxBackupFiles, MaxFileSize)
    {
      r := Log4jConfigure3(folder, Some(LogFileName), level);
    }

    /** The one-argument overload: log type INFO, so it never throws and passes INFO on. */
    method Log4jConfigure1(folder: JString) returns (r: Result<ConfigureRequest>)
      modifies this`logType
      ensures IsLogType(Some(LT.Info))
      ensures r == Ok(ConfigureRequest(folder, Some(LogFileName), L.Info, Some(LogPattern), MaxBackupFiles, MaxFileSize))
    {
      r := Log4jConfigure2(folder, Some(LT.Info));
    }
  }

  /**
   * The assertions of the unit test, with the configurator at its default
   * INFO level: after `setLogType(t)`, `isLogEnabledFor(t)` holds for INFO,
   * WARN, ERROR and SUPPRESS, but not for DEBUG, because `setLogType` leaves
   * the threshold alone.
   */
  lemma DefaultThresholdAnswers(t: LT.LogType)
    requires t != LT.Assert
    ensures Configurator.LevelEnabled(L.Info, Some(LT.ToLevel(Some(t)).value))
      <==> t == LT.Suppress || t == LT.Error || t == LT.Warn || t == LT.Info
  {
  }
}
