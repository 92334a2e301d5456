/**
 * `Log4JConfigurator`: collects the settings of the library's log4j setup
 * through validating setters and then attaches a console appender and a file
 * appender to the root logger, creating each of them, the root logger and the
 * log file path only once.
 */
module Configurator {
  import opened JavaLang
  import opened Log4j
  import LogHelper
  import opened LibAndroidAppender

  /** An appender this configurator attaches to the root logger. */
  datatype Appender = Console(console: AndroidAppender) | File(file: FileAppender)

  /** A call into log4j made while configuring. */
  type Call = Log4jCall<Appender>

  /**
   * `isLogEnabledFor(level)` against threshold `threshold`: false for null,
   * otherwise whether the level ranks at or above the threshold.
   */
  function LevelEnabled(threshold: Level, l: Option<Level>): (r: bool)
    ensures l.None? ==> !r
    ensures l == Some(threshold) || l == Some(Off) ==> r
    ensures l.Some? && l.value != threshold && l.value != Off ==> (r <==> ToInt(l.value) > ToInt(threshold))
  {
    l.Some? && ToInt(l.value) >= ToInt(threshold)
  }

  /** Levels enabled under a threshold stay enabled under any lower threshold, and any more severe level is enabled too. */
  lemma LevelEnabledMonotone(t1: Level, t2: Level, a: Level, b: Level)
    ensures LevelEnabled(t2, Some(a)) && ToInt(t1) <= ToInt(t2) ==> LevelEnabled(t1, Some(a))
    ensures LevelEnabled(t1, Some(a)) && ToInt(a) <= ToInt(b) ==> LevelEnabled(t1, Some(b))
  {
  }

  /** ALL is enabled only under the ALL threshold; under the OFF threshold only OFF is. */
  lemma LevelEnabledExtremes(t: Level, l: Level)
    ensures LevelEnabled(t, Some(All)) <==> t == All
    ensures LevelEnabled(Off, Some(l)) <==> l == Off
  {
  }

  /**
   * `getLogFilePath()` as a value: the cached path unless it is null or
   * empty, in which case the path joined from folder and file name.
   */
  function CachedLogFilePath(cached: JString, folder: JString, file: JString): (r: JString)
    ensures !LogHelper.IsNullOrEmpty(cached) ==> r == cached
    ensures LogHelper.IsNullOrEmpty(cached) ==> r == LogHelper.PathString(folder, file)
  {
    if LogHelper.IsNullOrEmpty(cached) then LogHelper.PathString(folder, file) else cached
  }

  /**
   * Once a non-empty path has been cached, later calls return it whatever the
   * folder and file name have become; with both set, the first call already
   * caches a non-empty path.
   */
  lemma CachedLogFilePathSticky(cached: JString, folder: JString, file: JString, folder': JString, file': JString)
    ensures var p := CachedLogFilePath(cached, folder, file);
      !LogHelper.IsNullOrEmpty(p) ==> CachedLogFilePath(p, folder', file') == p
    ensures !LogHelper.IsNullOrEmpty(folder) && !LogHelper.IsNullOrEmpty(file) ==>
      !LogHelper.IsNullOrEmpty(CachedLogFilePath(cached, folder, file))
  {
  }

  /** `getRootLogger()`'s calls: none once the root logger is set; the first time an optional reset and the root's level. */
  function RootInitCalls(initialized: bool, reset: bool, level: Level): seq<Call> {
    if initialized then []
    else (if reset then [ResetConfiguration] else []) + [RootSetLevel(Some(level))]
  }

  /** The calls opening `configure()`: an optional reset, then optional internal debugging. */
  function FrontCalls(reset: bool, internal: bool): seq<Call> {
    (if reset then [ResetConfiguration] else []) + (if internal then [SetInternalDebugging(true)] else [])
  }

  /** Attaching an appender, if there is one: root-logger initialisation, then the attachment. */
  function AttachCalls(initialized: bool, reset: bool, level: Level, a: Option<Appender>): seq<Call> {
    if a.Some? then RootInitCalls(initialized, reset, level) + [RootAddAppender(a.value)] else []
  }

  /** The calls `configure()` makes, given which appenders it attaches. */
  function ConfigureCalls(initialized: bool, reset: bool, internal: bool, level: Level,
                          console: Option<Appender>, file: Option<Appender>): seq<Call>
  {
    FrontCalls(reset, internal)
    + AttachCalls(initialized, reset, level, console)
    + AttachCalls(initialized || console.Some?, reset, level, file)
    + LastCalls(initialized || console.Some? || file.Some?, reset, level)
  }

  /** The opening calls neither attach nor set a level. */
  lemma FrontCallsShape(reset: bool, internal: bool)
    ensures Attached(FrontCalls(reset, internal)) == []
    ensures LevelsSet(FrontCalls(reset, internal)) == []
  {
    var r: seq<Call> := if reset then [ResetConfiguration] else [];
    var i: seq<Call> := if internal then [SetInternalDebugging(true)] else [];
    AttachedAppend(r, i);
    LevelsSetAppend(r, i);
  }

  /** Root-logger initialisation attaches nothing and sets the level once, the first time only. */
  lemma RootInitShape(initialized: bool, reset: bool, level: Level)
    ensures Attached(RootInitCalls(initialized, reset, level)) == []
    ensures LevelsSet(RootInitCalls(initialized, reset, level)) == if initialized then [] else [Some(level)]
  {
    if !initialized {
      var r: seq<Call> := if reset then [ResetConfiguration] else [];
      AttachedAppend(r, [RootSetLevel(Some(level))]);
      LevelsSetAppend(r, [RootSetLevel(Some(level))]);
    }
  }

  /** Attaching attaches the one appender, and sets the level only when it initialises the root logger. */
  lemma AttachCallsShape(initialized: bool, reset: bool, level: Level, a: Option<Appender>)
    ensures Attached(AttachCalls(initialized, reset, level, a)) == if a.Some? then [a.value] else []
    ensures LevelsSet(AttachCalls(initialized, reset, level, a)) == if a.Some? && !initialized then [Some(level)] else []
  {
    if a.Some? {
      RootInitShape(initialized, reset, level);
      AttachedAppend(RootInitCalls(initialized, reset, level), [RootAddAppender(a.value)]);
      LevelsSetAppend(RootInitCalls(initialized, reset, level), [RootAddAppender(a.value)]);
    }
  }

  /** Closing `configure()`: root-logger initialisation if still needed, then the configured level. */
  function LastCalls(initialized: bool, reset: bool, level: Level): seq<Call> {
    RootInitCalls(initialized, reset, level) + [RootSetLevel(Some(level))]
  }

  /** The closing calls attach nothing and end with the configured level. */
  lemma LastCallsShape(initialized: bool, reset: bool, level: Level)
    ensures Attached(LastCalls(initialized, reset, level)) == []
    ensures LevelsSet(LastCalls(initialized, reset, level)) == if initialized then [Some(level)] else [Some(level), Some(level)]
  {
    RootInitShape(initialized, reset, level);
    AttachedAppend(RootInitCalls(initialized, reset, level), [RootSetLevel(Some(level))]);
    LevelsSetAppend(RootInitCalls(initialized, reset, level), [RootSetLevel(Some(level))]);
  }

  /**
   * `configure()` attaches the console appender, then the file appender, each
   * exactly when it is enabled, and nothing else.
   */
  lemma ConfigureAttaches(initialized: bool, reset: bool, internal: bool, level: Level,
                          console: Option<Appender>, file: Option<Appender>)
    ensures Attached(ConfigureCalls(initialized, reset, internal, level, console, file))
      == (if console.Some? then [console.value] else []) + (if file.Some? then [file.value] else [])
  {
    var front := FrontCalls(reset, internal);
    var c := AttachCalls(initialized, reset, level, console);
    var f := AttachCalls(initialized || console.Some?, reset, level, file);
    var last := LastCalls(initialized || console.Some? || file.Some?, reset, level);
    FrontCallsShape(reset, internal);
    AttachCallsShape(initialized, reset, level, console);
    AttachCallsShape(initialized || console.Some?, reset, level, file);
    LastCallsShape(initialized || console.Some? || file.Some?, reset, level);
    AttachedBetween(front, c, f, last);
  }

  /** The last call `configure()` makes gives the root logger the configured level. */
  lemma ConfigureEndsWithLevel(initialized: bool, reset: bool, internal: bool, level: Level,
                               console: Option<Appender>, file: Option<Appender>)
    ensures var calls := ConfigureCalls(initialized, reset, internal, level, console, file);
      |calls| > 0 && calls[|calls| - 1] == RootSetLevel(Some(level))
  {
    var init := initialized || console.Some? || file.Some?;
    var head := FrontCalls(reset, internal)
      + AttachCalls(initialized, reset, level, console)
      + AttachCalls(initialized || console.Some?, reset, level, file)
      + RootInitCalls(init, reset, level);
    assert ConfigureCalls(initialized, reset, internal, level, console, file) == head + [RootSetLevel(Some(level))];
  }

  /**
   * The configured level is the only level `configure()` sets: once when the
   * root logger was already set, and also at its creation otherwise.
   */
  lemma ConfigureSetsLevel(initialized: bool, reset: bool, internal: bool, level: Level,
                           console: Option<Appender>, file: Option<Appender>)
    ensures LevelsSet(ConfigureCalls(initialized, reset, internal, level, console, file))
      == if initialized then [Some(level)] else [Some(level), Some(level)]
  {
    var front := FrontCalls(reset, internal);
    var c := AttachCalls(initialized, reset, level, console);
    var f := AttachCalls(initialized || console.Some?, reset, level, file);
    var last := LastCalls(initialized || console.Some? || file.Some?, reset, level);
    FrontCallsShape(reset, internal);
    AttachCallsShape(initialized, reset, level, console);
    AttachCallsShape(initialized || console.Some?, reset, level, file);
    LastCallsShape(initialized || console.Some? || file.Some?, reset, level);
    LevelsCombine(front, c, f, last, initialized, console.Some?, file.Some?, Some(level));
  }

  /** How the levels of the four parts of `configure()` add up, on any runs with those levels. */
  lemma LevelsCombine(front: seq<Call>, c: seq<Call>, f: seq<Call>, last: seq<Call>,
                      init: bool, hasConsole: bool, hasFile: bool, l: Option<Level>)
    requires LevelsSet(front) == []
    requires LevelsSet(c) == if hasConsole && !init then [l] else []
    requires LevelsSet(f) == if hasFile && !(init || hasConsole) then [l] else []
    requires LevelsSet(last) == if init || hasConsole || hasFile then [l] else [l, l]
    ensures LevelsSet(front + c + f + last) == if init then [l] else [l, l]
  {
    LevelsSetAfter(front, c, f, last);
  }

  /** Four consecutive extensions of a trace add their concatenation. */
  lemma TraceSteps(c0: seq<Call>, c1: seq<Call>, c2: seq<Call>, c3: seq<Call>, c4: seq<Call>,
                   a: seq<Call>, b: seq<Call>, c: seq<Call>, d: seq<Call>, e: Call)
    requires c1 == c0 + a && c2 == c1 + b && c3 == c2 + c && c4 == c3 + d + [e]
    ensures c4 == c0 + (a + b + c + (d + [e]))
  {
  }

  class Log4JConfigurator {
    /** Whether `mRootLogger` has been set. */
    var rootInitialized: bool
    var logLevel: Level
    var logPattern: Option<Layout>
    var logsFolder: JString
    var fileName: JString
    /** `mLogFilePath`, computed lazily by `GetLogFilePath`. */
    var logFilePath: JString
    var maxBackupFiles: Int32
    var maxFileSize: Int64
    var immediateFlush: bool
    var internalLogging: bool
    var resetConfiguration: bool
    var useConsoleAppender: bool
    var useFileAppender: bool
    var useRollingFileAppender: bool
    var consoleAppender: AndroidAppender?
    var fileAppender: FileAppender?
    /** The calls made into log4j so far. */
    var calls: seq<Call>

    /**
     * `Log4JConfigurator()`: level INFO, immediate flush, no internal
     * logging, reset on configure, and all three appender kinds enabled;
     * every other field keeps Java's default (null, 0).
     */
    constructor ()
      ensures logLevel == Info && immediateFlush && !internalLogging && resetConfiguration
      ensures useConsoleAppender && useFileAppender && useRollingFileAppender
      ensures logPattern.None? && logsFolder.None? && fileName.None? && logFilePath.None?
      ensures maxBackupFiles == 0 && maxFileSize == 0
      ensures !rootInitialized && consoleAppender == null && fileAppender == null && calls == []
    {
      rootInitialized := false;
      logLevel := Info;
      logPattern, logsFolder, fileName, logFilePath := None, None, None, None;
      maxBackupFiles, maxFileSize := 0, 0;
      immediateFlush := true;
      internalLogging := false;
      resetConfiguration := true;
      useConsoleAppender := true;
      useFileAppender := true;
      useRollingFileAppender := true;
      consoleAppender, fileAppender := null, null;
      calls := [];
    }

    /** `isLogEnabledFor(level)` under the configured level. */
    function IsLogEnabledFor(l: Option<Level>): (r: bool)
      reads this
      ensures l.None? ==> !r
      ensures l.Some? ==> (r <==> l.value == logLevel || ToInt(l.value) > ToInt(logLevel))
    {
      LevelEnabled(logLevel, l)
    }

    /** `setLogLevel`: null throws NullPointerException and keeps the old level. */
    method SetLogLevel(l: Option<Level>) returns (o: Outcome)
      modifies this`logLevel
      ensures l.None? ==> o == Threw(NullPointerException) && logLevel == old(logLevel)
      ensures l.Some? ==> o == Done && logLevel == l.value
    {
      if l.None? {
        return Threw(NullPointerException);
      }
      logLevel := l.value;
      o := Done;
    }

    /** `setLogPattern(PatternLayout)`: null throws IllegalArgumentException and keeps the old layout. */
    method SetLogPatternLayout(p: Option<Layout>) returns (o: Outcome)
      modifies this`logPattern
      ensures p.None? ==> o == Threw(IllegalArgumentException) && logPattern == old(logPattern)
      ensures p.Some? ==> o == Done && logPattern == p
    {
      if p.None? {
        return Threw(IllegalArgumentException);
      }
      logPattern := p;
      o := Done;
    }

    /** `setLogPattern(String)`: null or empty throws IllegalArgumentException; otherwise a pattern layout of it. */
    method SetLogPattern(s: JString) returns (o: Outcome)
      modifies this`logPattern
      ensures LogHelper.IsNullOrEmpty(s) ==> o == Threw(IllegalArgumentException) && logPattern == old(logPattern)
      ensures !LogHelper.IsNullOrEmpty(s) ==> o == Done && logPattern == Some(PatternLayout(s))
    {
      if LogHelper.IsNullOrEmpty(s) {
        return Threw(IllegalArgumentException);
      }
      o := SetLogPatternLayout(Some(PatternLayout(s)));
    }

    /** `setLogsFolder`: null or empty throws IllegalArgumentException and keeps the old folder. */
    method SetLogsFolder(s: JString) returns (o: Outcome)
      modifies this`logsFolder
      ensures LogHelper.IsNullOrEmpty(s) ==> o == Threw(IllegalArgumentException) && logsFolder == old(logsFolder)
      ensures !LogHelper.IsNullOrEmpty(s) ==> o == Done && logsFolder == s
    {
      if LogHelper.IsNullOrEmpty(s) {
        return Threw(IllegalArgumentException);
      }
      logsFolder := s;
      o := Done;
    }

    /** `setFileName`: null or empty throws IllegalArgumentException and keeps the old name. */
    method SetFileName(s: JString) returns (o: Outcome)
      modifies this`fileName
      ensures LogHelper.IsNullOrEmpty(s) ==> o == Threw(IllegalArgumentException) && fileName == old(fileName)
      ensures !LogHelper.IsNullOrEmpty(s) ==> o == Done && fileName == s
    {
      if LogHelper.IsNullOrEmpty(s) {
        return Threw(IllegalArgumentException);
      }
      fileName := s;
      o := Done;
    }

    /** `getLogFilePath()`: joins folder and file name only while no non-empty path is cached. */
    method GetLogFilePath() returns (path: JString)
      modifies this`logFilePath
      ensures logFilePath == CachedLogFilePath(old(logFilePath), logsFolder, fileName)
      ensures path == logFilePath
    {
      if LogHelper.IsNullOrEmpty(logFilePath) {
        logFilePath := LogHelper.PathString(logsFolder, fileName);
      }
      path := logFilePath;
    }

    /** `setMaxBackupFiles`: accepts exactly 0 < n < Integer.MAX_VALUE, otherwise throws and keeps the old value. */
    method SetMaxBackupFiles(n: Int32) returns (o: Outcome)
      modifies this`maxBackupFiles
      ensures 0 < n < IntMaxValue ==> o == Done && maxBackupFiles == n
      ensures !(0 < n < IntMaxValue) ==> o == Threw(IllegalArgumentException) && maxBackupFiles == old(maxBackupFiles)
    {
      if n <= 0 || n >= IntMaxValue {
        return Threw(IllegalArgumentException);
      }
      maxBackupFiles := n;
      o := Done;
    }

    /** `setMaxFileSize`: a `long`, yet held to the same `int` range: exactly 0 < n < Integer.MAX_VALUE. */
    method SetMaxFileSize(n: Int64) returns (o: Outcome)
      modifies this`maxFileSize
      ensures 0 < n < IntMaxValue ==> o == Done && maxFileSize == n
      ensures !(0 < n < IntMaxValue) ==> o == Threw(IllegalArgumentException) && maxFileSize == old(maxFileSize)
    {
      if n <= 0 || n >= IntMaxValue {
        return Threw(IllegalArgumentException);
      }
      maxFileSize := n;
      o := Done;
    }

    /** `setImmediateFlush`. */
    method SetImmediateFlush(b: bool)
      modifies this`immediateFlush
      ensures immediateFlush == b
    {
      immediateFlush := b;
    }

    /** `setInternalLogging`. */
    method SetInternalLogging(b: bool)
      modifies this`internalLogging
      ensures internalLogging == b
    {
      internalLogging := b;
    }

    /** `setResetConfiguration`. */
    method SetResetConfiguration(b: bool)
      modifies this`resetConfiguration
      ensures resetConfiguration == b
    {
      resetConfiguration := b;
    }

    /** `setUseConsoleAppender`. */
    method SetUseConsoleAppender(b: bool)
      modifies this`useConsoleAppender
      ensures useConsoleAppender == b
    {
      useConsoleAppender := b;
    }

    /** `setUseFileAppender`. */
    method SetUseFileAppender(b: bool)
      modifies this`useFileAppender
      ensures useFileAppender == b
    {
      useFileAppender := b;
    }

    /** `setUseRollingFileAppender`. */
    method SetUseRollingFileAppender(b: bool)
      modifies this`useRollingFileAppender
      ensures useRollingFileAppender == b
    {
      useRollingFileAppender := b;
    }

    /**
     * `getRootLogger()`: the first call optionally resets the repository and
     * gives the root logger the configured level; later calls do nothing.
     */
    method GetRootLogger()
      modifies this`rootInitialized, this`calls
      ensures rootInitialized
      ensures calls == old(calls) + RootInitCalls(old(rootInitialized), resetConfiguration, logLevel)
    {
      if !rootInitialized {
        if resetConfiguration {
          calls := calls + [ResetConfiguration];
        }
        rootInitialized := true;
        calls := calls + [RootSetLevel(Some(logLevel))];
      }
    }

    /** The mode of a file appender created under the current settings. */
    function FileModeNow(): FileMode
      reads this
    {
      if useRollingFileAppender then Rolling(maxBackupFiles, maxFileSize, immediateFlush) else Plain
    }

    /**
     * `addFileAppender()`: when file output is enabled, fixes the log file
     * path, creates the file appender unless one exists (rolling with the
     * backup count, size limit and flush setting, or plain) and attaches it
     * to the root logger; otherwise changes nothing.
     */
    method AddFileAppender()
      modifies this`logFilePath, this`fileAppender, this`rootInitialized, this`calls
      ensures !useFileAppender ==>
        logFilePath == old(logFilePath) && fileAppender == old(fileAppender)
        && rootInitialized == old(rootInitialized) && calls == old(calls)
      ensures useFileAppender ==> logFilePath == CachedLogFilePath(old(logFilePath), logsFolder, fileName)
      ensures useFileAppender && old(fileAppender) != null ==> fileAppender == old(fileAppender)
      ensures useFileAppender && old(fileAppender) == null ==>
        fileAppender != null && fresh(fileAppender) && fileAppender.layout == logPattern && fileAppender.file == logFilePath && fileAppender.mode == (if useRollingFileAppender then Rolling(maxBackupFiles, maxFileSize, immediateFlush) else Plain)
      ensures useFileAppender ==> fileAppender != null
      ensures rootInitialized == (old(rootInitialized) || useFileAppender)
      ensures calls == old(calls) + AttachCalls(old(rootInitialized), resetConfiguration, logLevel,
        if useFileAppender then Some(File(fileAppender)) else None)
    {
      if useFileAppender {
        var path := GetLogFilePath();
        if fileAppender == null {
          var mode := FileModeNow();
          path := GetLogFilePath();
          fileAppender := new FileAppender(logPattern, path, mode);
        }
        GetRootLogger();
        calls := calls + [RootAddAppender(File(fileAppender))];
      }
    }

    /**
     * The console step of `configure()`: when console output is enabled,
     * creates the Android appender unless one exists, with the "%c" tag and
     * the configured pattern, and attaches it to the root logger; otherwise
     * changes nothing.
     */
    method AddConsoleAppender()
      modifies this`consoleAppender, this`rootInitialized, this`calls
      ensures old(consoleAppender) != null || !useConsoleAppender ==> consoleAppender == old(consoleAppender)
      ensures old(consoleAppender) == null && useConsoleAppender ==>
        consoleAppender != null && fresh(consoleAppender)
        && consoleAppender.tagLayout == Some(PatternLayout(Some(DefaultTagPattern)))
        && consoleAppender.layout == logPattern
      ensures useConsoleAppender ==> consoleAppender != null
      ensures rootInitialized == (old(rootInitialized) || useConsoleAppender)
      ensures calls == old(calls) + AttachCalls(old(rootInitialized), resetConfiguration, logLevel,
        if useConsoleAppender then Some(Console(consoleAppender)) else None)
    {
      if useConsoleAppender {
        if consoleAppender == null {
          consoleAppender := new AndroidAppender.WithDefaultTag(logPattern);
        }
        GetRootLogger();
        calls := calls + [RootAddAppender(Console(consoleAppender))];
      }
    }

    /**
     * `configure()`: optional reset, optional internal debugging, the console
     * appender (created once, then reused) when enabled, the file appender
     * when enabled, and the configured level on the root logger last.
     */
    method Configure()
      modifies this`logFilePath, this`fileAppender, this`consoleAppender, this`rootInitialized, this`calls
      ensures rootInitialized
      ensures useFileAppender ==> logFilePath == CachedLogFilePath(old(logFilePath), logsFolder, fileName)
      ensures !useFileAppender ==> logFilePath == old(logFilePath)
      ensures old(consoleAppender) != null || !useConsoleAppender ==> consoleAppender == old(consoleAppender)
      ensures old(consoleAppender) == null && useConsoleAppender ==>
        consoleAppender != null && fresh(consoleAppender)
        && consoleAppender.tagLayout == Some(PatternLayout(Some(DefaultTagPattern)))
        && consoleAppender.layout == logPattern
      ensures old(fileAppender) != null || !useFileAppender ==> fileAppender == old(fileAppender)
      ensures old(fileAppender) == null && useFileAppender ==>
        fileAppender != null && fresh(fileAppender) && fileAppender.layout == logPattern && fileAppender.file == logFilePath
        && fileAppender.mode == (if useRollingFileAppender then Rolling(maxBackupFiles, maxFileSize, immediateFlush) else Plain)
      ensures useConsoleAppender ==> consoleAppender != null
      ensures useFileAppender ==> fileAppender != null
      ensures calls == old(calls) + ConfigureCalls(old(rootInitialized), resetConfiguration, internalLogging, logLevel,
        if useConsoleAppender then Some(Console(consoleAppender)) else None,
        if useFileAppender then Some(File(fileAppender)) else None)
    {
      ghost var calls0 := calls;
      ghost var init0 := rootInitialized;
      if resetConfiguration {
        calls := calls + [ResetConfiguration];
      }
      if internalLogging {
        calls := calls + [SetInternalDebugging(true)];
      }
      assert calls == calls0 + FrontCalls(resetConfiguration, internalLogging);
      ghost var calls1 := calls;
      AddConsoleAppender();
      ghost var calls2 := calls;
      AddFileAppender();
      ghost var calls3 := calls;
      GetRootLogger();
      calls := calls + [RootSetLevel(Some(logLevel))];
      TraceSteps(calls0, calls1, calls2, calls3, calls,
        FrontCalls(resetConfiguration, internalLogging),
        AttachCalls(init0, resetConfiguration, logLevel, if useConsoleAppender then Some(Console(consoleAppender)) else None),
        AttachCalls(init0 || useConsoleAppender, resetConfiguration, logLevel, if useFileAppender then Some(File(fileAppender)) else None),
        RootInitCalls(init0 || useConsoleAppender || useFileAppender, resetConfiguration, logLevel),
        RootSetLevel(Some(logLevel)));
    }
  }
}
