/**
 * `AndroidLogger` of the stand-alone `src` tree: a log4j setup held in one
 * shared instance that attaches a rolling file appender and an Android
 * appender to the root logger, plus its own logger cache and path joining.
 */
module SrcAndroidLogger {
  import opened JavaLang
  import opened Log4j
  import LogHelper
  import Src = SrcAndroidAppender
  import LoggerRegistry

  /** `LOG_FILE_NAME`. */
  const LogFileName: string := "dLog4jAndroid.log"
  /** `MAX_BACKUP_FILES`. */
  const MaxBackupFiles: int := 3
  /** `MAX_FILE_SIZE`: 5 MiB. */
  const MaxFileSize: int := 1024 * 1024 * 5
  /** `DEFAULT_TAG_LAYOUT`. */
  const DefaultTagLayout: string := "%c"
  /** `DEFAULT_LOG_PATTERN`. */
  const DefaultLogPattern: string := "%d - [%p::%c::%C] - %m%n"
  /** `ANDROID_LOG_PATTERN`. */
  const AndroidLogPattern: string := "[%d{yyyy-MM-dd HH:mm:ss.S zzz}] %5p [%c{1}(%L)] - %m%n"

  /** An appender `configure` attaches to the root logger. */
  datatype Appender = RollingFile(file: FileAppender) | Android(android: Src.AndroidAppender)

  /** A call into log4j made by `configure`. */
  type Call = Log4jCall<Appender>

  /** The folder `setLogFilePath(parent, file)` uses: the user directory when none is given. */
  function EffectiveParent(parent: JString, userDir: string): (r: string)
    ensures LogHelper.IsNullOrEmpty(parent) ==> r == userDir
    ensures !LogHelper.IsNullOrEmpty(parent) ==> r == parent.value && |r| > 0
  {
    if LogHelper.IsNullOrEmpty(parent) then userDir else parent.value
  }

  /** `s` without one trailing separator, if it has one. */
  function WithoutTrailingSeparator(s: string): (r: string)
    ensures EndsWith(s, LogHelper.Separator) ==> r + LogHelper.Separator == s
    ensures !EndsWith(s, LogHelper.Separator) ==> r == s
  {
    if EndsWith(s, LogHelper.Separator) then s[..|s| - 1] else s
  }

  /** `s` without one leading separator, if it has one. */
  function WithoutLeadingSeparator(s: string): (r: string)
    ensures StartsWith(s, LogHelper.Separator) ==> LogHelper.Separator + r == s
    ensures !StartsWith(s, LogHelper.Separator) ==> r == s
  {
    if StartsWith(s, LogHelper.Separator) then s[1..] else s
  }

  /**
   * The path `setLogFilePath(parent, file)` stores: a null or empty file name
   * throws IllegalArgumentException; otherwise the folder and the file name,
   * each with at most one separator removed at the junction, are joined by
   * exactly one separator.
   */
  function JoinedLogFilePath(parent: JString, file: JString, userDir: string): (r: Result<string>)
    ensures r.Throw? <==> LogHelper.IsNullOrEmpty(file)
    ensures r.Throw? ==> r.exception == IllegalArgumentException
    ensures r.Ok? ==> r.value == WithoutTrailingSeparator(EffectiveParent(parent, userDir))
                                 + LogHelper.Separator + WithoutLeadingSeparator(file.value)
  {
    if LogHelper.IsNullOrEmpty(file) then Throw(IllegalArgumentException)
    else
      var p, f := EffectiveParent(parent, userDir), file.value;
      var pSep, fSep := EndsWith(p, LogHelper.Separator), StartsWith(f, LogHelper.Separator);
      if pSep && fSep then Ok(p + f[1..])
      else if pSep && !fSep then Ok(p + f)
      else if !pSep && fSep then Ok(p + f)
      else Ok(p + LogHelper.Separator + f)
  }

  /**
   * Against `LogHelper.pathString` on a folder and file name that it joins:
   * the same path, except when both sides bring a separator, where
   * `pathString` keeps both and this join keeps one.
   */
  lemma JoinedVersusPathString(p: string, f: string, userDir: string)
    requires LogHelper.Joins(p, f)
    ensures var joined := JoinedLogFilePath(Some(p), Some(f), userDir).value;
      var path := LogHelper.PathString(Some(p), Some(f)).value;
      if EndsWith(p, LogHelper.Separator) && StartsWith(f, LogHelper.Separator)
      then path == p + f && joined == p + f[1..] && |path| == |joined| + 1
      else path == joined
  {
    var pSep, fSep := EndsWith(p, LogHelper.Separator), StartsWith(f, LogHelper.Separator);
    if !pSep && fSep {
      assert LogHelper.Separator + f[1..] == f;
    } else if pSep && !fSep {
      assert p[..|p| - 1] + LogHelper.Separator == p;
    }
  }

  /** The calls `configure()` makes, given the appenders it creates. */
  function ConfigureCalls(reset: bool, internal: bool, level: Option<Level>,
                          rolling: Option<FileAppender>, android: Option<Src.AndroidAppender>): seq<Call>
  {
    (if reset then [ResetConfiguration] else [])
    + [SetInternalDebugging(internal)]
    + (if rolling.Some? then [RootAddAppender(RollingFile(rolling.value))] else [])
    + (if android.Some? then [RootAddAppender(Android(android.value))] else [])
    + [RootSetLevel(level)]
  }

  /**
   * `configure()` attaches the rolling file appender, then the Android
   * appender, each exactly when requested; it sets internal debugging to the
   * flag's value every time, and the root level once, last.
   */
  lemma ConfigureCallsShape(reset: bool, internal: bool, level: Option<Level>,
                            rolling: Option<FileAppender>, android: Option<Src.AndroidAppender>)
    ensures var calls := ConfigureCalls(reset, internal, level, rolling, android);
      && Attached(calls) == (if rolling.Some? then [RollingFile(rolling.value)] else [])
                            + (if android.Some? then [Android(android.value)] else [])
      && LevelsSet(calls) == [level]
      && calls[|calls| - 1] == RootSetLevel(level)
      && SetInternalDebugging(internal) in calls
  {
    var r: seq<Call> := if reset then [ResetConfiguration] else [];
    var d: seq<Call> := [SetInternalDebugging(internal)];
    var f: seq<Call> := if rolling.Some? then [RootAddAppender(RollingFile(rolling.value))] else [];
    var a: seq<Call> := if android.Some? then [RootAddAppender(Android(android.value))] else [];
    var l: seq<Call> := [RootSetLevel(level)];
    AttachedAppend(r, d);
    LevelsSetAppend(r, d);
    AttachedAppend4(r + d, f, a, l);
    LevelsSetAppend4(r + d, f, a, l);
    assert ConfigureCalls(reset, internal, level, rolling, android) == (r + d) + f + a + l;
    assert ((r + d) + f + a + l)[|r|] == SetInternalDebugging(internal);
  }

  /**
   * Nothing is reused between configurations: without a reset, a second run
   * leaves the first run's appenders attached and adds its own after them.
   */
  lemma RepeatedConfigureStacksAppenders(internal: bool, level: Option<Level>,
                                         rolling1: Option<FileAppender>, android1: Option<Src.AndroidAppender>,
                                         rolling2: Option<FileAppender>, android2: Option<Src.AndroidAppender>)
    ensures Attached(ConfigureCalls(false, internal, level, rolling1, android1)
                     + ConfigureCalls(false, internal, level, rolling2, android2))
      == (if rolling1.Some? then [RollingFile(rolling1.value)] else [])
         + (if android1.Some? then [Android(android1.value)] else [])
         + (if rolling2.Some? then [RollingFile(rolling2.value)] else [])
         + (if android2.Some? then [Android(android2.value)] else [])
  {
    ConfigureCallsShape(false, internal, level, rolling1, android1);
    ConfigureCallsShape(false, internal, level, rolling2, android2);
    AttachedAppend(ConfigureCalls(false, internal, level, rolling1, android1),
                   ConfigureCalls(false, internal, level, rolling2, android2));
  }

  /**
   * What a call of `log4jConfigure(String)` does next: call an overload
   * with the same file name, or configure with a file name and level.
   */
  datatype ConfigureStep = SelfCall(fileName: JString) | Configures(fileName: JString, level: Level)

  /** `log4jConfigure(String)` as written: its only statement calls itself with the same argument. */
  function Log4jConfigure1AsWritten(fileName: JString): ConfigureStep {
    SelfCall(fileName)
  }

  /** The step reached after `depth` further nested calls of the as-written overload. */
  function UnfoldAsWritten(fileName: JString, depth: nat): ConfigureStep
    decreases depth
  {
    if depth == 0 then Log4jConfigure1AsWritten(fileName)
    else match UnfoldAsWritten(fileName, depth - 1)
      case SelfCall(f) => Log4jConfigure1AsWritten(f)
      case Configures(f, l) => Configures(f, l)
  }

  /**
   * However deep the nesting, the as-written overload is still calling
   * itself with the same file name and never configures anything: on the
   * JVM the call ends in a stack overflow.
   */
  lemma {:induction false} AsWrittenNeverConfigures(fileName: JString, depth: nat)
    ensures UnfoldAsWritten(fileName, depth) == SelfCall(fileName)
    decreases depth
  {
    if depth > 0 {
      AsWrittenNeverConfigures(fileName, depth - 1);
    }
  }

  class AndroidLogger {
    var logLevel: Option<Level>
    var filePattern: JString
    var logFileName: JString
    /** `mLogFilePath`. */
    var logFilePath: JString
    var maxBackupSize: Int32
    var maxFileSize: Int64
    var immediateFlush: bool
    var useFileAppender: bool
    var useAndroidAppender: bool
    var resetConfiguration: bool
    var internalDebugging: bool
    /** The calls this logger has made into log4j. */
    var calls: seq<Call>

    /** Whether the field initialisers' defaults still hold. */
    predicate HasDefaultFlags()
      reads this
    {
      immediateFlush && useFileAppender && useAndroidAppender && resetConfiguration && !internalDebugging
    }

    /** `AndroidLogger(logFileName, logLevel, filePattern, maxBackupSize, maxFileSize)`. */
    constructor (logFileName: JString, logLevel: Option<Level>, filePattern: JString, maxBackupSize: Int32, maxFileSize: Int64)
      ensures this.logLevel == logLevel && this.logFileName == logFileName && this.filePattern == filePattern
      ensures this.maxBackupSize == maxBackupSize && this.maxFileSize == maxFileSize
      ensures logFilePath.None? && HasDefaultFlags() && calls == []
    {
      this.logLevel := logLevel;
      this.logFileName := logFileName;
      this.filePattern := filePattern;
      this.maxBackupSize := maxBackupSize;
      this.maxFileSize := maxFileSize;
      logFilePath := None;
      immediateFlush := true;
      useFileAppender := true;
      useAndroidAppender := true;
      resetConfiguration := true;
      internalDebugging := false;
      calls := [];
    }

    /** `AndroidLogger(logFileName, logLevel, filePattern)`: 3 backups of 5 MiB. */
    constructor WithPattern(logFileName: JString, logLevel: Option<Level>, filePattern: JString)
      ensures this.logLevel == logLevel && this.logFileName == logFileName && this.filePattern == filePattern
      ensures maxBackupSize == MaxBackupFiles && maxFileSize == MaxFileSize
      ensures logFilePath.None? && HasDefaultFlags() && calls == []
    {
      this.logLevel := logLevel;
      this.logFileName := logFileName;
      this.filePattern := filePattern;
      maxBackupSize := MaxBackupFiles;
      maxFileSize := MaxFileSize;
      logFilePath := None;
      immediateFlush := true;
      useFileAppender := true;
      useAndroidAppender := true;
      resetConfiguration := true;
      internalDebugging := false;
      calls := [];
    }

    /** `AndroidLogger(logFileName, logLevel)`: the default pattern. */
    constructor WithLevel(logFileName: JString, logLevel: Option<Level>)
      ensures this.logLevel == logLevel && this.logFileName == logFileName && filePattern == Some(DefaultLogPattern)
      ensures maxBackupSize == MaxBackupFiles && maxFileSize == MaxFileSize
      ensures logFilePath.None? && HasDefaultFlags() && calls == []
    {
      this.logLevel := logLevel;
      this.logFileName := logFileName;
      filePattern := Some(DefaultLogPattern);
      maxBackupSize := MaxBackupFiles;
      maxFileSize := MaxFileSize;
      logFilePath := None;
      immediateFlush := true;
      useFileAppender := true;
      useAndroidAppender := true;
      resetConfiguration := true;
      internalDebugging := false;
      calls := [];
    }

    /** `AndroidLogger(logFileName)`: level WARN. */
    constructor WithFileName(logFileName: JString)
      ensures logLevel == Some(Warn) && this.logFileName == logFileName && filePattern == Some(DefaultLogPattern)
      ensures maxBackupSize == MaxBackupFiles && maxFileSize == MaxFileSize
      ensures logFilePath.None? && HasDefaultFlags() && calls == []
    {
      logLevel := Some(Warn);
      this.logFileName := logFileName;
      filePattern := Some(DefaultLogPattern);
      maxBackupSize := MaxBackupFiles;
      maxFileSize := MaxFileSize;
      logFilePath := None;
      immediateFlush := true;
      useFileAppender := true;
      useAndroidAppender := true;
      resetConfiguration := true;
      internalDebugging := false;
      calls := [];
    }

    /**
     * `setLogFilePath(parentFolder, logFileName)`, with `userDir` standing for
     * the `user.dir` property: stores the joined path, or throws and keeps
     * the old one.
     */
    method SetLogFilePath(parent: JString, file: JString, userDir: string) returns (o: Outcome)
      modifies this`logFilePath
      ensures LogHelper.IsNullOrEmpty(file) ==> o == Threw(IllegalArgumentException) && logFilePath == old(logFilePath)
      ensures !LogHelper.IsNullOrEmpty(file) ==> o == Done && logFilePath == Some(JoinedLogFilePath(parent, file, userDir).value)
    {
      var p := parent;
      if LogHelper.IsNullOrEmpty(p) {
        p := Some(userDir);
      }
      if LogHelper.IsNullOrEmpty(file) {
        return Threw(IllegalArgumentException);
      }
      var pv, f := p.value, file.value;
      if EndsWith(pv, LogHelper.Separator) && StartsWith(f, LogHelper.Separator) {
        logFilePath := Some(pv + f[1..]);
      } else if EndsWith(pv, LogHelper.Separator) && !StartsWith(f, LogHelper.Separator) {
        logFilePath := Some(pv + f);
      } else if !EndsWith(pv, LogHelper.Separator) && StartsWith(f, LogHelper.Separator) {
        logFilePath := Some(pv + f);
      } else {
        logFilePath := Some(pv + LogHelper.Separator + f);
      }
      o := Done;
    }

    /**
     * `configure()`: an optional reset, internal debugging set to the flag,
     * a new rolling file appender on `logFileName` (not on the stored log
     * file path) when file output is on, a new Android appender with the "%c"
     * tag when Android output is on, and the root level last. The appenders
     * created are returned.
     */
    method Configure() returns (rolling: FileAppender?, android: Src.AndroidAppender?)
      modifies this`calls
      ensures rolling != null <==> useFileAppender
      ensures rolling != null ==>
        && fresh(rolling)
        && rolling.layout == Some(PatternLayout(filePattern)) && rolling.file == logFileName
        && rolling.mode == Rolling(maxBackupSize, maxFileSize, immediateFlush)
      ensures android != null <==> useAndroidAppender
      ensures android != null ==>
        && fresh(android)
        && android.tagLayout == Some(PatternLayout(Some(DefaultTagLayout)))
        && android.layout == Some(PatternLayout(filePattern))
      ensures calls == old(calls) + ConfigureCalls(resetConfiguration, internalDebugging, logLevel,
        if rolling != null then Some(rolling) else None, if android != null then Some(android) else None)
    {
      ghost var calls0 := calls;
      if resetConfiguration {
        calls := calls + [ResetConfiguration];
      }
      calls := calls + [SetInternalDebugging(internalDebugging)];
      rolling, android := null, null;
      if useFileAppender {
        rolling := new FileAppender(Some(PatternLayout(filePattern)), logFileName, Rolling(maxBackupSize, maxFileSize, immediateFlush));
        calls := calls + [RootAddAppender(RollingFile(rolling))];
      }
      if useAndroidAppender {
        android := new Src.AndroidAppender(Some(PatternLayout(Some(DefaultTagLayout))), Some(PatternLayout(filePattern)));
        calls := calls + [RootAddAppender(Android(android))];
      }
      calls := calls + [RootSetLevel(logLevel)];
    }
  }

  /** The static state of `AndroidLogger`: the shared instance and the logger cache. */
  class AndroidLoggerStatics {
    /** `androidLogger`. */
    var instance: AndroidLogger?
    /** `cachedLoggers`. */
    const cache: LoggerRegistry.LoggerCache

    /** The class initialiser: no instance yet, an empty cache. */
    constructor ()
      ensures instance == null && fresh(cache) && cache.loggers == map[]
    {
      instance := null;
      cache := new LoggerRegistry.LoggerCache();
    }

    /**
     * The five-argument `log4jConfigure`: creates the shared instance on the
     * first call, with a null level read as WARN; later calls ignore their
     * arguments and leave the instance's settings as they were. Either way
     * the shared instance is configured again.
     */
    method Log4jConfigure(fileName: JString, level: Option<Level>, pattern: JString, maxBackupFiles: Int32, maxFileSize: Int64)
      returns (rolling: FileAppender?, android: Src.AndroidAppender?)
      modifies this`instance, ({instance} - {null})`calls
      ensures instance != null
      ensures old(instance) != null ==>
        && instance == old(instance)
        && instance.logLevel == old(instance.logLevel) && instance.logFileName == old(instance.logFileName)
        && instance.filePattern == old(instance.filePattern)
        && instance.maxBackupSize == old(instance.maxBackupSize) && instance.maxFileSize == old(instance.maxFileSize)
      ensures old(instance) == null ==>
        && fresh(instance)
        && instance.logLevel == Some(if level.None? then Warn else level.value)
        && instance.logFileName == fileName && instance.filePattern == pattern
        && instance.maxBackupSize == maxBackupFiles && instance.maxFileSize == maxFileSize
        && instance.logFilePath.None? && instance.HasDefaultFlags()
      ensures instance.calls == (if old(instance) == null then [] else old(instance.calls))
        + ConfigureCalls(instance.resetConfiguration, instance.internalDebugging, instance.logLevel,
            if rolling != null then Some(rolling) else None, if android != null then Some(android) else None)
      ensures rolling != null <==> instance.useFileAppender
      ensures rolling != null ==>
        && fresh(rolling)
        && rolling.layout == Some(PatternLayout(instance.filePattern)) && rolling.file == instance.logFileName
        && rolling.mode == Rolling(instance.maxBackupSize, instance.maxFileSize, instance.immediateFlush)
      ensures android != null <==> instance.useAndroidAppender
      ensures android != null ==>
        && fresh(android)
        && android.tagLayout == Some(PatternLayout(Some(DefaultTagLayout)))
        && android.layout == Some(PatternLayout(instance.filePattern))
    {
      var l := level;
      if l.None? {
        l := Some(Warn);
      }
      if instance == null {
        instance := new AndroidLogger(fileName, l, pattern, maxBackupFiles, maxFileSize);
      }
      rolling, android := instance.Configure();
    }

    /** The four-argument overload: 5 MiB files. */
    method Log4jConfigure4(fileName: JString, level: Option<Level>, pattern: JString, maxBackupFiles: Int32)
      returns (rolling: FileAppender?, android: Src.AndroidAppender?)
      modifies this`instance, ({instance} - {null})`calls
      ensures instance != null
      ensures old(instance) != null ==>
        && instance == old(instance)
        && instance.logLevel == old(instance.logLevel) && instance.logFileName == old(instance.logFileName)
        && instance.filePattern == old(instance.filePattern)
        && instance.maxBackupSize == old(instance.maxBackupSize) && instance.maxFileSize == old(instance.maxFileSize)
      ensures old(instance) == null ==>
        && fresh(instance)
        && instance.logLevel == Some(if level.None? then Warn else level.value)
        && instance.logFileName == fileName && instance.filePattern == pattern
        && instance.maxBackupSize == maxBackupFiles && instance.maxFileSize == MaxFileSize
        && instance.logFilePath.None? && instance.HasDefaultFlags()
      ensures instance.calls == (if old(instance) == null then [] else old(instance.calls))
        + ConfigureCalls(instance.resetConfiguration, instance.internalDebugging, instance.logLevel,
            if rolling != null then Some(rolling) else None, if android != null then Some(android) else None)
      ensures rolling != null <==> instance.useFileAppender
      ensures rolling != null ==>
        && fresh(rolling)
        && rolling.layout == Some(PatternLayout(instance.filePattern)) && rolling.file == instance.logFileName
        && rolling.mode == Rolling(instance.maxBackupSize, instance.maxFileSize, instance.immediateFlush)
      ensures android != null <==> instance.useAndroidAppender
      ensures android != null ==>
        && fresh(android)
        && android.tagLayout == Some(PatternLayout(Some(DefaultTagLayout)))
        && android.layout == Some(PatternLayout(instance.filePattern))
    {
      rolling, android := Log4jConfigure(fileName, level, pattern, maxBackupFiles, MaxFileSize);
    }

    /** The three-argument overload: 3 backups of 5 MiB. */
    method Log4jConfigure3(fileName: JString, level: Option<Level>, pattern: JString)
      returns (rolling: FileAppender?, android: Src.AndroidAppender?)
      modifies this`instance, ({instance} - {null})`calls
      ensures instance != null
      ensures old(instance) != null ==>
        && instance == old(instance)
        && instance.logLevel == old(instance.logLevel) && instance.logFileName == old(instance.logFileName)
        && instance.filePattern == old(instance.filePattern)
        && instance.maxBackupSize == old(instance.maxBackupSize) && instance.maxFileSize == old(instance.maxFileSize)
      ensures old(instance) == null ==>
        && fresh(instance)
        && instance.logLevel == Some(if level.None? then Warn else level.value)
        && instance.logFileName == fileName && instance.filePattern == pattern
        && instance.maxBackupSize == MaxBackupFiles && instance.maxFileSize == MaxFileSize
        && instance.logFilePath.None? && instance.HasDefaultFlags()
      ensures instance.calls == (if old(instance) == null then [] else old(instance.calls))
        + ConfigureCalls(instance.resetConfiguration, instance.internalDebugging, instance.logLevel,
            if rolling != null then Some(rolling) else None, if android != null then Some(android) else None)
      ensures rolling != null <==> instance.useFileAppender
      ensures rolling != null ==>
        && fresh(rolling)
        && rolling.layout == Some(PatternLayout(instance.filePattern)) && rolling.file == instance.logFileName
        && rolling.mode == Rolling(instance.maxBackupSize, instance.maxFileSize, instance.immediateFlush)
      ensures android != null <==> instance.useAndroidAppender
      ensures android != null ==>
        && fresh(android)
        && android.tagLayout == Some(PatternLayout(Some(DefaultTagLayout)))
        && android.layout == Some(PatternLayout(instance.filePattern))
    {
      rolling, android := Log4jConfigure4(fileName, level, pattern, MaxBackupFiles);
    }

    /** The two-argument overload: the Android pattern, 3 backups of 5 MiB. */
    method Log4jConfigure2(fileName: JString, level: Option<Level>)
      returns (rolling: FileAppender?, android: Src.AndroidAppender?)
      modifies this`instance, ({instance} - {null})`calls
      ensures instance != null
      ensures old(instance) != null ==>
        && instance == old(instance)
        && instance.logLevel == old(instance.logLevel) && instance.logFileName == old(instance.logFileName)
        && instance.filePattern == old(instance.filePattern)
        && instance.maxBackupSize == old(instance.maxBackupSize) && instance.maxFileSize == old(instance.maxFileSize)
      ensures old(instance) == null ==>
        && fresh(instance)
        && instance.logLevel == Some(if level.None? then Warn else level.value)
        && instance.logFileName == fileName && instance.filePattern == Some(AndroidLogPattern)
        && instance.maxBackupSize == MaxBackupFiles && instance.maxFileSize == MaxFileSize
        && instance.logFilePath.None? && instance.HasDefaultFlags()
      ensures instance.calls == (if old(instance) == null then [] else old(instance.calls))
        + ConfigureCalls(instance.resetConfiguration, instance.internalDebugging, instance.logLevel,
            if rolling != null then Some(rolling) else None, if android != null then Some(android) else None)
      ensures rolling != null <==> instance.useFileAppender
      ensures rolling != null ==>
        && fresh(rolling)
        && rolling.layout == Some(PatternLayout(instance.filePattern)) && rolling.file == instance.logFileName
        && rolling.mode == Rolling(instance.maxBackupSize, instance.maxFileSize, instance.immediateFlush)
      ensures android != null <==> instance.useAndroidAppender
      ensures android != null ==>
        && fresh(android)
        && android.tagLayout == Some(PatternLayout(Some(DefaultTagLayout)))
        && android.layout == Some(PatternLayout(instance.filePattern))
    {
      rolling, android := Log4jConfigure(fileName, level, Some(AndroidLogPattern), MaxBackupFiles, MaxFileSize);
    }

    /**
     * The one-argument overload, corrected: it delegates to the
     * two-argument overload at level WARN, the level the one-argument
     * constructor uses (see AsWrittenNeverConfigures for the code as written).
     */
    method Log4jConfigure1(fileName: JString)
      returns (rolling: FileAppender?, android: Src.AndroidAppender?)
      modifies this`instance, ({instance} - {null})`calls
      ensures instance != null
      ensures old(instance) != null ==>
        && instance == old(instance)
        && instance.logLevel == old(instance.logLevel) && instance.logFileName == old(instance.logFileName)
        && instance.filePattern == old(instance.filePattern)
        && instance.maxBackupSize == old(instance.maxBackupSize) && instance.maxFileSize == old(instance.maxFileSize)
      ensures old(instance) == null ==>
        && fresh(instance)
        && instance.logLevel == Some(Warn)
        && instance.logFileName == fileName && instance.filePattern == Some(AndroidLogPattern)
        && instance.maxBackupSize == MaxBackupFiles && instance.maxFileSize == MaxFileSize
        && instance.logFilePath.None? && instance.HasDefaultFlags()
      ensures instance.calls == (if old(instance) == null then [] else old(instance.calls))
        + ConfigureCalls(instance.resetConfiguration, instance.internalDebugging, instance.logLevel,
            if rolling != null then Some(rolling) else None, if android != null then Some(android) else None)
      ensures rolling != null <==> instance.useFileAppender
      ensures rolling != null ==>
        && fresh(rolling)
        && rolling.layout == Some(PatternLayout(instance.filePattern)) && rolling.file == instance.logFileName
        && rolling.mode == Rolling(instance.maxBackupSize, instance.maxFileSize, instance.immediateFlush)
      ensures android != null <==> instance.useAndroidAppender
      ensures android != null ==>
        && fresh(android)
        && android.tagLayout == Some(PatternLayout(Some(DefaultTagLayout)))
        && android.layout == Some(PatternLayout(instance.filePattern))
    {
      rolling, android := Log4jConfigure2(fileName, Some(Warn));
    }

    /** The no-argument overload: the corrected one-argument overload on the default file name. */
    method Log4jConfigure0()
      returns (rolling: FileAppender?, android: Src.AndroidAppender?)
      modifies this`instance, ({instance} - {null})`calls
      ensures instance != null
      ensures old(instance) != null ==>
        && instance == old(instance)
        && instance.logLevel == old(instance.logLevel) && instance.logFileName == old(instance.logFileName)
        && instance.filePattern == old(instance.filePattern)
        && instance.maxBackupSize == old(instance.maxBackupSize) && instance.maxFileSize == old(instance.maxFileSize)
      ensures old(instance) == null ==>
        && fresh(instance)
        && instance.logLevel == Some(Warn)
        && instance.logFileName == Some(LogFileName) && instance.filePattern == Some(AndroidLogPattern)
        && instance.maxBackupSize == MaxBackupFiles && instance.maxFileSize == MaxFileSize
        && instance.logFilePath.None? && instance.HasDefaultFlags()
      ensures instance.calls == (if old(instance) == null then [] else old(instance.calls))
        + ConfigureCalls(instance.resetConfiguration, instance.internalDebugging, instance.logLevel,
            if rolling != null then Some(rolling) else None, if android != null then Some(android) else None)
      ensures rolling != null <==> instance.useFileAppender
      ensures rolling != null ==>
        && fresh(rolling)
        && rolling.layout == Some(PatternLayout(instance.filePattern)) && rolling.file == instance.logFileName
        && rolling.mode == Rolling(instance.maxBackupSize, instance.maxFileSize, instance.immediateFlush)
      ensures android != null <==> instance.useAndroidAppender
      ensures android != null ==>
        && fresh(android)
        && android.tagLayout == Some(PatternLayout(Some(DefaultTagLayout)))
        && android.layout == Some(PatternLayout(instance.filePattern))
    {
      rolling, android := Log4jConfigure1(Some(LogFileName));
    }

    /** `getLogger(Class)`: the class name's cached logger; a null class throws IllegalArgumentException. */
    method GetLogger(className: JString, fromRepository: LoggerId) returns (r: Result<LoggerId>)
      modifies cache`loggers
      ensures className.None? ==> r == Throw(IllegalArgumentException) && cache.loggers == old(cache.loggers)
      ensures className.Some? ==> r.Ok? && (r.value, cache.loggers) == LoggerRegistry.CacheLookup(old(cache.loggers), className.value, fromRepository)
    {
      r := cache.GetLogger(className, fromRepository);
    }

    /** `getLogger(String)`: log4j's logger for the name, without consulting or filling the cache. */
    method GetLoggerByName(name: JString, fromRepository: LoggerId) returns (r: LoggerId)
      ensures r == fromRepository
      ensures unchanged(cache)
    {
      r := fromRepository;
    }
  }
}
