# AndroidLogger in Dafny

AndroidLogger is a small Java library that sits between Android code and log4j. This project models its core in Dafny and proves properties of that model. The core has two generations.

- **The library** (`androidLogger/`):
  - `LogHelper` is a static facade. It keeps:
    - the current `LogType`;
    - a switch between log4j output and the platform `android.util.Log`;
    - a shared `Log4JConfigurator`;
    - a per-name logger cache.

    It offers the level-named helpers `e`, `w`, `i`, `d`, `v` and `wtf`, the `log4jConfigure` overloads, and string helpers.
  - `LogType` is the library's own level enum. It has conversions to and from log4j levels and lookup by name.
  - `Log4JConfigurator` is a mutable settings object. Its `configure()` attaches a console appender and/or a file appender to the log4j root logger and sets the root level.
  - `AndroidAppender` is a log4j appender that forwards every event to the matching `Log` method.
- **The stand-alone tree** (`src/`):
  - an older `AndroidLogger` that is configured through a singleton and attaches a rolling file appender and an Android appender;
  - an older `AndroidAppender` with a different level-to-method mapping.

## How the model is built

- Java `null` is modelled as `Option`. A thrown exception is an explicit result:
  - `Result<T>` (`Ok`/`Throw`) for methods that return a value;
  - `Outcome` (`Done`/`Threw`) for `void` methods.
- log4j and the Android platform are outside the model. What the core asks of them is recorded as data:
  - a platform log call is a `PlatformCall` value;
  - a logging call through log4j is an `Emission`;
  - the global log4j calls made by `configure()` are a trace, a sequence of `Log4jCall` values:
    - resetting the repository;
    - switching internal debugging;
    - setting the root level;
    - attaching an appender.
- Classes whose fields the source updates in place are Dafny classes with field-granular `modifies` frames:
  - `Log4JConfigurator`;
  - both appenders;
  - `AndroidLogger`;
  - the logger caches;
  - `LogHelper`'s static state, as `LogHelperState`.
- Values Java obtains from the environment are parameters:
  - the logger log4j would hand out for a name (`fromRepository`);
  - the `user.dir` system property (`userDir`).

  `File.separator` is fixed to `"/"`.
- Where the documentation and the code disagree, the model follows the code:
  - `LogType.SUPPRESS` maps to log4j `OFF`, whose rank is the highest. `isLogEnabledFor(SUPPRESS)` is therefore always true, although the documentation presents SUPPRESS as "no logging".
  - The unit test in `ExampleUnitTest.java` expects `isLogEnabledFor(DEBUG)` after `setLogType(DEBUG)`. `setLogType` does not change the configurator's threshold, which stays at INFO, so the model answers false (`LogHelperStatics.DefaultThresholdAnswers`).
  - `log4jConfigure` passes `Level.toLevel(logType.toString())` to the configurator. log4j maps an unknown name to DEBUG, so SUPPRESS, ASSERT and VERBOSE all configure DEBUG (`LogHelperStatics.ConfigureRequestLevel`).
  - `v` checks VERBOSE (TRACE) but logs through `Logger.debug` (`LogHelperStatics.LoggerLevelMatchesGate`).

## Model

| member | source | states |
|---|---|---|
| JavaLang.ToLowerCase | androidLogger/src/main/java/com/rslakra/android/logger/LogType.java:59-60 | `String.toLowerCase` keeps the length and lowers each ASCII capital, leaving every other character alone |
| JavaLang.ToLowerCaseIdempotent | androidLogger/src/main/java/com/rslakra/android/logger/LogType.java:59-60 | lower-casing twice equals lower-casing once, which the case-insensitive comparison relies on |
| Log4j.ToIntInjective | androidLogger/src/main/java/com/rslakra/android/logger/Log4JConfigurator.java:435-437 | the integer ranks compared by `isLogEnabledFor` are distinct for distinct levels |
| Log4j.LevelNamed | androidLogger/src/main/java/com/rslakra/android/logger/LogHelper.java:513-516 | `Level.toLevel(name)` yields the level with that name, or DEBUG when there is none |
| Log4j.LevelNamedRoundTrip | androidLogger/src/main/java/com/rslakra/android/logger/LogHelper.java:513-516 | every log4j level is recovered from its own name |
| Log4j.FileAppender.constructor | androidLogger/src/main/java/com/rslakra/android/logger/Log4JConfigurator.java:462-470 | the file appender keeps the layout, file path and rolling settings it is built with |
| Log4j.AttachedAppend | androidLogger/src/main/java/com/rslakra/android/logger/Log4JConfigurator.java:488-512 | the appenders attached by two consecutive call traces are those of the first followed by those of the second |
| Log4j.LevelsSetAppend | androidLogger/src/main/java/com/rslakra/android/logger/Log4JConfigurator.java:488-512 | the root levels set by two consecutive traces are those of the first followed by those of the second |
| LogTypes.Name | androidLogger/src/main/java/com/rslakra/android/logger/LogType.java:42-44 | `toString()` of a log type is its declared name: non-empty and made of upper-case letters only |
| LogTypes.Ordinal | androidLogger/src/main/java/com/rslakra/android/logger/LogType.java:42-44 | each log type sits at its declaration position in `values()` |
| LogTypes.IsEqual | androidLogger/src/main/java/com/rslakra/android/logger/LogType.java:56-64 | false for a null type or a null or empty string; case-sensitive equality of names exactly when `ignoreCase` is off; equal lengths on a case-insensitive match |
| LogTypes.IsEqualIgnoringCase | androidLogger/src/main/java/com/rslakra/android/logger/LogType.java:74-76 | the two-argument `isEqual` holds exactly when both are present and their lower-cased names agree |
| LogTypes.ExactMatchImpliesIgnoringCase | androidLogger/src/main/java/com/rslakra/android/logger/LogType.java:56-64 | a case-sensitive match is also a case-insensitive one |
| LogTypes.FirstMatchFrom | androidLogger/src/main/java/com/rslakra/android/logger/LogType.java:84-93 | the loop's search from position `i` finds the first matching type at or after `i`, or none when none matches |
| LogTypes.LookupName | androidLogger/src/main/java/com/rslakra/android/logger/LogType.java:84-93 | `toLogType(String)` returns the first type in declaration order whose name matches ignoring case, and throws RuntimeException exactly when no type matches |
| LogTypes.ToLogType | androidLogger/src/main/java/com/rslakra/android/logger/LogType.java:84-93 | the loop over `values()` computes `LookupName` |
| LogTypes.LookupNameRoundTrip | androidLogger/src/main/java/com/rslakra/android/logger/LogType.java:84-93 | looking up a type's own name returns that type |
| LogTypes.DistinctNamesIgnoringCase | androidLogger/src/main/java/com/rslakra/android/logger/LogType.java:42-44 | no two log types share a name once lower-cased, so a lookup has at most one candidate |
| LogTypes.LookupNameIgnoresCase | androidLogger/src/main/java/com/rslakra/android/logger/LogType.java:84-93 | a lookup gives the same answer for a string and its lower-case form |
| LogTypes.FirstMatchAgrees | androidLogger/src/main/java/com/rslakra/android/logger/LogType.java:84-93 | two strings that match the same types are looked up to the same answer |
| LogTypes.ToLevel | androidLogger/src/main/java/com/rslakra/android/logger/LogType.java:102-119 | `toLevel` throws NullPointerException on null and RuntimeException exactly for ASSERT, and returns a level otherwise |
| LogTypes.FromLevel | androidLogger/src/main/java/com/rslakra/android/logger/LogType.java:127-143 | `toLogType(Level)` succeeds exactly on OFF, ERROR, WARN, INFO, DEBUG and TRACE, throws RuntimeException otherwise, and never yields ASSERT |
| LogTypes.ToLevelRoundTrip | androidLogger/src/main/java/com/rslakra/android/logger/LogType.java:102-143 | converting a non-ASSERT log type to a level and back returns the type |
| LogTypes.FromLevelRoundTrip | androidLogger/src/main/java/com/rslakra/android/logger/LogType.java:102-143 | converting a mapped level to a log type and back returns the level; FATAL and ALL are the only unmapped levels |
| LogTypes.DeclaredOrderIsSeverityOrder | androidLogger/src/main/java/com/rslakra/android/logger/LogType.java:42-44 | the declaration order of the log types is decreasing severity of their log4j levels |
| LogHelper.IsNullOrEmpty | androidLogger/src/main/java/com/rslakra/android/logger/LogHelper.java:169-171 | true exactly for null and the empty string |
| LogHelper.PathString | androidLogger/src/main/java/com/rslakra/android/logger/LogHelper.java:180-194 | a missing parent gives the file and a missing file gives the parent; otherwise the result starts with the parent and ends with the file, with at most one separator added |
| LogHelper.PathStringOverlap | androidLogger/src/main/java/com/rslakra/android/logger/LogHelper.java:180-194 | a parent that already ends with the file name is returned unchanged, and a file that already starts with the parent is returned unchanged |
| LogHelper.PathStringJunction | androidLogger/src/main/java/com/rslakra/android/logger/LogHelper.java:180-194 | otherwise the two parts are concatenated and a separator is inserted only when neither has one; two separators are kept side by side when both have one |
| LogHelper.PathStringIdempotent | androidLogger/src/main/java/com/rslakra/android/logger/LogHelper.java:180-194 | joining the parent onto an already joined path changes nothing |
| LogHelper.ObjectToString | androidLogger/src/main/java/com/rslakra/android/logger/LogHelper.java:241-243 | `toString(Object)` is the string itself when present and the empty string for null |
| LogHelper.ToStringArray | androidLogger/src/main/java/com/rslakra/android/logger/LogHelper.java:204-222 | the `StringBuilder` loop produces a leading newline in newline mode, then each element, with "null" for a null element, followed by a newline or a space; a null array gives "" |
| LogHelper.ToStringArraySpaced | androidLogger/src/main/java/com/rslakra/android/logger/LogHelper.java:230-232 | the one-argument overload is the space-separated form |
| LogHelper.TerminatedAppend | androidLogger/src/main/java/com/rslakra/android/logger/LogHelper.java:204-222 | the rendering of concatenated arrays is the concatenation of their renderings |
| LogHelper.TerminatedLength | androidLogger/src/main/java/com/rslakra/android/logger/LogHelper.java:204-222 | with a one-character terminator, the output length is the total element length plus one per element |
| LogHelper.JoinedStringsLength | androidLogger/src/main/java/com/rslakra/android/logger/LogHelper.java:204-222 | the output length of `toString(String[], boolean)` includes the leading newline in newline mode |
| LogHelper.JoinedStringsElementAt | androidLogger/src/main/java/com/rslakra/android/logger/LogHelper.java:204-222 | element `k` appears verbatim at its computed offset and is followed by the terminator |
| LibAndroidAppender.NativeMethod | androidLogger/src/main/java/com/rslakra/android/logger/AndroidAppender.java:78-122 | the library appender writes every level except OFF and ALL; TRACE goes to `Log.v` |
| LibAndroidAppender.NativeMethodKeepsSeverityOrder | androidLogger/src/main/java/com/rslakra/android/logger/AndroidAppender.java:78-122 | a more severe level reaches a strictly higher platform priority, so no two levels share a method |
| LibAndroidAppender.AndroidAppender.constructor | androidLogger/src/main/java/com/rslakra/android/logger/AndroidAppender.java:59-62 | the appender keeps the given tag layout and message layout |
| LibAndroidAppender.AndroidAppender.WithDefaultTag | androidLogger/src/main/java/com/rslakra/android/logger/AndroidAppender.java:67-69 | the one-argument constructor uses the `%c` tag pattern |
| LibAndroidAppender.AndroidAppender.SetTagLayout | androidLogger/src/main/java/com/rslakra/android/logger/AndroidAppender.java:154-156 | replaces the tag layout and leaves the message layout alone |
| LibAndroidAppender.AndroidAppender.RequiresLayout | androidLogger/src/main/java/com/rslakra/android/logger/AndroidAppender.java:136-138 | always true |
| LibAndroidAppender.AndroidAppender.Close | androidLogger/src/main/java/com/rslakra/android/logger/AndroidAppender.java:129-131 | changes nothing |
| LibAndroidAppender.AndroidAppender.Append | androidLogger/src/main/java/com/rslakra/android/logger/AndroidAppender.java:78-122 | an unmapped level writes nothing; a missing layout throws NullPointerException; otherwise one platform call with the mapped method, the rendered tag and message, and the event's throwable exactly when it has one |
| SrcAndroidAppender.NativeMethod | src/com/rslakra/androidlogger/AndroidAppender.java:59-110 | the stand-alone appender writes every level except OFF and TRACE; ALL goes to `Log.v` |
| SrcAndroidAppender.NativeMethodKeepsSeverityOrder | src/com/rslakra/androidlogger/AndroidAppender.java:59-110 | a more severe level reaches a strictly higher platform priority |
| SrcAndroidAppender.NativeMethodsDifferOnlyOnTraceAndAll | src/com/rslakra/androidlogger/AndroidAppender.java:59-110 | the two appenders agree on every level except TRACE and ALL, where each writes what the other drops |
| SrcAndroidAppender.AndroidAppender.constructor | src/com/rslakra/androidlogger/AndroidAppender.java:30-33 | keeps the given tag layout and message layout |
| SrcAndroidAppender.AndroidAppender.SetTagLayout | src/com/rslakra/androidlogger/AndroidAppender.java:49-51 | replaces the tag layout only |
| SrcAndroidAppender.AndroidAppender.RequiresLayout | src/com/rslakra/androidlogger/AndroidAppender.java:126-128 | always true |
| SrcAndroidAppender.AndroidAppender.Close | src/com/rslakra/androidlogger/AndroidAppender.java:117-119 | changes nothing |
| SrcAndroidAppender.AndroidAppender.Append | src/com/rslakra/androidlogger/AndroidAppender.java:59-110 | like the library appender, with this appender's level mapping |
| LoggerRegistry.CacheLookup | androidLogger/src/main/java/com/rslakra/android/logger/LogHelper.java:612-631 | a cached name returns its logger and leaves the cache unchanged; a new name returns log4j's logger and adds only that entry |
| LoggerRegistry.CacheLookupRepeat | androidLogger/src/main/java/com/rslakra/android/logger/LogHelper.java:612-631 | a second lookup of a name returns the logger of the first and leaves the cache unchanged, whatever log4j would offer |
| LoggerRegistry.LoggerCache.constructor | androidLogger/src/main/java/com/rslakra/android/logger/LogHelper.java:103 | the cache starts empty |
| LoggerRegistry.LoggerCache.GetLogger | androidLogger/src/main/java/com/rslakra/android/logger/LogHelper.java:584-604 | a null name throws IllegalArgumentException and leaves the cache alone; otherwise the result and the new cache are `CacheLookup` |
| Configurator.LevelEnabled | androidLogger/src/main/java/com/rslakra/android/logger/Log4JConfigurator.java:435-437 | false for null; otherwise true exactly when the level's rank is at least the threshold's |
| Configurator.LevelEnabledMonotone | androidLogger/src/main/java/com/rslakra/android/logger/Log4JConfigurator.java:435-437 | lowering the threshold or raising the level keeps a level enabled |
| Configurator.LevelEnabledExtremes | androidLogger/src/main/java/com/rslakra/android/logger/Log4JConfigurator.java:435-437 | ALL is enabled only under an ALL threshold, and an OFF threshold enables only OFF |
| Configurator.CachedLogFilePath | androidLogger/src/main/java/com/rslakra/android/logger/Log4JConfigurator.java:270-276 | a computed path is kept; otherwise the path is `pathString(logsFolder, fileName)` |
| Configurator.CachedLogFilePathSticky | androidLogger/src/main/java/com/rslakra/android/logger/Log4JConfigurator.java:270-276 | once a non-empty path is computed, later changes of folder or file name no longer affect it; a non-empty folder and file always give a non-empty path |
| Configurator.FrontCallsShape | androidLogger/src/main/java/com/rslakra/android/logger/Log4JConfigurator.java:489-497 | the opening reset and internal-debugging calls attach nothing and set no level |
| Configurator.RootInitShape | androidLogger/src/main/java/com/rslakra/android/logger/Log4JConfigurator.java:142-156 | the first `getRootLogger` sets the root level once; later calls do nothing |
| Configurator.AttachCallsShape | androidLogger/src/main/java/com/rslakra/android/logger/Log4JConfigurator.java:443-483 | attaching an appender adds exactly that appender, after the root logger's one-time initialisation |
| Configurator.LastCallsShape | androidLogger/src/main/java/com/rslakra/android/logger/Log4JConfigurator.java:510-511 | the closing calls attach nothing and set the configured level, twice when the root logger was not yet initialised |
| Configurator.ConfigureAttaches | androidLogger/src/main/java/com/rslakra/android/logger/Log4JConfigurator.java:488-512 | `configure()` attaches exactly the console appender, if enabled, then the file appender, if enabled |
| Configurator.ConfigureEndsWithLevel | androidLogger/src/main/java/com/rslakra/android/logger/Log4JConfigurator.java:510-511 | the last call of `configure()` sets the root logger to the configured level |
| Configurator.ConfigureSetsLevel | androidLogger/src/main/java/com/rslakra/android/logger/Log4JConfigurator.java:488-512 | the configured level is the only level `configure()` sets: once when the root logger already existed, twice when `configure()` creates it |
| Configurator.Log4JConfigurator.constructor | androidLogger/src/main/java/com/rslakra/android/logger/Log4JConfigurator.java:118-126 | level INFO; flush, reset and all three appender switches on; internal logging off; nothing else set and no log4j calls made |
| Configurator.Log4JConfigurator.SetLogLevel | androidLogger/src/main/java/com/rslakra/android/logger/Log4JConfigurator.java:172-180 | null throws NullPointerException and keeps the level; otherwise sets it |
| Configurator.Log4JConfigurator.SetLogPatternLayout | androidLogger/src/main/java/com/rslakra/android/logger/Log4JConfigurator.java:196-205 | null throws IllegalArgumentException and keeps the pattern; otherwise sets it |
| Configurator.Log4JConfigurator.SetLogPattern | androidLogger/src/main/java/com/rslakra/android/logger/Log4JConfigurator.java:212-219 | null or empty throws IllegalArgumentException; otherwise the pattern becomes a `PatternLayout` of the string |
| Configurator.Log4JConfigurator.SetLogsFolder | androidLogger/src/main/java/com/rslakra/android/logger/Log4JConfigurator.java:235-241 | null or empty throws IllegalArgumentException and keeps the folder; otherwise sets it |
| Configurator.Log4JConfigurator.SetFileName | androidLogger/src/main/java/com/rslakra/android/logger/Log4JConfigurator.java:257-263 | null or empty throws IllegalArgumentException and keeps the name; otherwise sets it |
| Configurator.Log4JConfigurator.GetLogFilePath | androidLogger/src/main/java/com/rslakra/android/logger/Log4JConfigurator.java:270-276 | the returned and stored path is `CachedLogFilePath` of the previous one |
| Configurator.Log4JConfigurator.SetMaxBackupFiles | androidLogger/src/main/java/com/rslakra/android/logger/Log4JConfigurator.java:292-297 | accepts exactly 0 < n < `Integer.MAX_VALUE`; otherwise throws IllegalArgumentException and keeps the value |
| Configurator.Log4JConfigurator.SetMaxFileSize | androidLogger/src/main/java/com/rslakra/android/logger/Log4JConfigurator.java:313-318 | accepts exactly 0 < n < `Integer.MAX_VALUE`, even for a `long`; otherwise throws IllegalArgumentException and keeps the value |
| Configurator.Log4JConfigurator.SetImmediateFlush | androidLogger/src/main/java/com/rslakra/android/logger/Log4JConfigurator.java:334-336 | sets the flag |
| Configurator.Log4JConfigurator.SetInternalLogging | androidLogger/src/main/java/com/rslakra/android/logger/Log4JConfigurator.java:352-354 | sets the flag |
| Configurator.Log4JConfigurator.SetResetConfiguration | androidLogger/src/main/java/com/rslakra/android/logger/Log4JConfigurator.java:371-373 | sets the flag |
| Configurator.Log4JConfigurator.SetUseConsoleAppender | androidLogger/src/main/java/com/rslakra/android/logger/Log4JConfigurator.java:389-391 | sets the flag |
| Configurator.Log4JConfigurator.SetUseFileAppender | androidLogger/src/main/java/com/rslakra/android/logger/Log4JConfigurator.java:407-409 | sets the flag |
| Configurator.Log4JConfigurator.SetUseRollingFileAppender | androidLogger/src/main/java/com/rslakra/android/logger/Log4JConfigurator.java:425-427 | sets the flag |
| Configurator.Log4JConfigurator.GetRootLogger | androidLogger/src/main/java/com/rslakra/android/logger/Log4JConfigurator.java:142-156 | the first call optionally resets the repository and sets the root level; every call leaves the root marked initialised |
| Configurator.Log4JConfigurator.IsLogEnabledFor | androidLogger/src/main/java/com/rslakra/android/logger/Log4JConfigurator.java:435-437 | false for a null level; otherwise true exactly when the level is the threshold or above it |
| Configurator.Log4JConfigurator.AddFileAppender | androidLogger/src/main/java/com/rslakra/android/logger/Log4JConfigurator.java:443-483 | when file output is off, nothing changes; otherwise the path is fixed, a file appender is created only if none exists (rolling with the backup, size and flush settings, or plain), and it is attached |
| Configurator.Log4JConfigurator.AddConsoleAppender | androidLogger/src/main/java/com/rslakra/android/logger/Log4JConfigurator.java:499-505 | when console output is on, an Android appender with the `%c` tag is created only if none exists, and it is attached |
| Configurator.Log4JConfigurator.Configure | androidLogger/src/main/java/com/rslakra/android/logger/Log4JConfigurator.java:488-512 | the appenders and log4j calls of `configure()` are exactly `ConfigureCalls`, whose attachments and levels are proved above; existing appenders are reused |
| LogHelperStatics.GateType | androidLogger/src/main/java/com/rslakra/android/logger/LogHelper.java:651-740 | each helper checks a log type that `toLevel` accepts and that is not SUPPRESS |
| LogHelperStatics.LoggerLevelMatchesGate | androidLogger/src/main/java/com/rslakra/android/logger/LogHelper.java:651-740 | each helper logs through log4j at the level it checks, except `v`, which checks TRACE and logs at DEBUG |
| LogHelperStatics.PlatformMethodMatchesAppender | androidLogger/src/main/java/com/rslakra/android/logger/LogHelper.java:651-740 | on the platform route each helper calls the `Log` method the library appender would choose for its level |
| LogHelperStatics.Dispatch | androidLogger/src/main/java/com/rslakra/android/logger/LogHelper.java:651-740 | a disabled level does nothing; with log4j on, a null tag throws and otherwise the cached logger receives the message; with log4j off, the platform method receives the tag and the rendered message |
| LogHelperStatics.DispatchReusesLogger | androidLogger/src/main/java/com/rslakra/android/logger/LogHelper.java:612-631 | two log4j-routed calls with the same tag reach the same logger, and the second leaves the cache alone |
| LogHelperStatics.GatesFollowSeverity | androidLogger/src/main/java/com/rslakra/android/logger/LogHelper.java:495-497 | under any threshold, if a helper is enabled then so is every helper of a more severe level |
| LogHelperStatics.ConfigureRequestFor | androidLogger/src/main/java/com/rslakra/android/logger/LogHelper.java:513-516 | a null log type throws NullPointerException; otherwise the folder, file, pattern and limits are passed on unchanged |
| LogHelperStatics.ConfigureRequestLevel | androidLogger/src/main/java/com/rslakra/android/logger/LogHelper.java:513-516 | the level passed on agrees with `toLevel` for ERROR, WARN, INFO and DEBUG, and is DEBUG for SUPPRESS, ASSERT and VERBOSE |
| LogHelperStatics.LogHelperState.constructor | androidLogger/src/main/java/com/rslakra/android/logger/LogHelper.java:93-103 | log type INFO, log4j output on, a fresh default configurator and an empty cache |
| LogHelperStatics.LogHelperState.SetLogType | androidLogger/src/main/java/com/rslakra/android/logger/LogHelper.java:441-443 | records the log type, so `isLogType` then holds for it, and leaves every `isLogEnabledFor` answer unchanged |
| LogHelperStatics.LogHelperState.SetLog4JLogsEnabled | androidLogger/src/main/java/com/rslakra/android/logger/LogHelper.java:470-472 | sets the switch |
| LogHelperStatics.LogHelperState.IsLogEnabledFor | androidLogger/src/main/java/com/rslakra/android/logger/LogHelper.java:495-497 | null throws NullPointerException and ASSERT throws RuntimeException; otherwise the configurator's answer for the type's level; SUPPRESS is always enabled |
| LogHelperStatics.LogHelperState.IsLogType | androidLogger/src/main/java/com/rslakra/android/logger/LogHelper.java:452-454 | true exactly when the stored log type is the given one, null included |
| LogHelperStatics.LogHelperState.IsLogEnabledForProduction | androidLogger/src/main/java/com/rslakra/android/logger/LogHelper.java:637-639 | true exactly when the threshold is INFO or lower |
| LogHelperStatics.LogHelperState.Log | androidLogger/src/main/java/com/rslakra/android/logger/LogHelper.java:651-740 | the result and the new cache of `e`, `w`, `i`, `d` and `v` are `Dispatch` under the current settings; only `e` is called with a throwable |
| LogHelperStatics.LogHelperState.LogObject | androidLogger/src/main/java/com/rslakra/android/logger/LogHelper.java:752-754 | the `Object` overloads dispatch the message as `toString(Object)` renders it, so never null |
| LogHelperStatics.LogHelperState.ErrorThrowable | androidLogger/src/main/java/com/rslakra/android/logger/LogHelper.java:773-775 | a null throwable throws NullPointerException even when ERROR is disabled; otherwise its localized message is dispatched as an error together with the throwable |
| LogHelperStatics.LogHelperState.WtfMessage | androidLogger/src/main/java/com/rslakra/android/logger/LogHelper.java:886-896 | dropped when ERROR is disabled; otherwise exactly the `Log.wtf` platform call with the tag, the rendered message and the throwable, never through log4j |
| LogHelperStatics.LogHelperState.WtfThrowable | androidLogger/src/main/java/com/rslakra/android/logger/LogHelper.java:916-920 | dropped when ERROR is disabled; otherwise exactly the `Log.wtf` platform call with the literal tag, no message and the throwable |
| LogHelperStatics.LogHelperState.Log4jConfigure | androidLogger/src/main/java/com/rslakra/android/logger/LogHelper.java:513-516 | records the log type, even a null one, and then produces `ConfigureRequestFor` of the arguments |
| LogHelperStatics.LogHelperState.Log4jConfigure5 | androidLogger/src/main/java/com/rslakra/android/logger/LogHelper.java:527-529 | as the six-argument form, with 5 MiB files |
| LogHelperStatics.LogHelperState.Log4jConfigure4 | androidLogger/src/main/java/com/rslakra/android/logger/LogHelper.java:539-541 | as the five-argument form, with 3 backups |
| LogHelperStatics.LogHelperState.Log4jConfigure3 | androidLogger/src/main/java/com/rslakra/android/logger/LogHelper.java:550-552 | as the four-argument form, with the default pattern |
| LogHelperStatics.LogHelperState.Log4jConfigure2 | androidLogger/src/main/java/com/rslakra/android/logger/LogHelper.java:560-562 | as the three-argument form, with `android.log` |
| LogHelperStatics.LogHelperState.Log4jConfigure1 | androidLogger/src/main/java/com/rslakra/android/logger/LogHelper.java:569-571 | log type INFO, so it never throws and passes INFO on with all the defaults |
| LogHelperStatics.DefaultThresholdAnswers | androidLogger/src/test/java/com/rslakra/android/logger/ExampleUnitTest.java:26-66 | under the default INFO threshold, exactly SUPPRESS, ERROR, WARN and INFO are enabled |
| SrcAndroidLogger.WithoutTrailingSeparator | src/com/rslakra/androidlogger/AndroidLogger.java:475-482 | drops one trailing separator, if there is one |
| SrcAndroidLogger.WithoutLeadingSeparator | src/com/rslakra/androidlogger/AndroidLogger.java:475-482 | drops one leading separator, if there is one |
| SrcAndroidLogger.JoinedLogFilePath | src/com/rslakra/androidlogger/AndroidLogger.java:464-484 | a null or empty file name throws IllegalArgumentException; an empty parent becomes `user.dir`; otherwise the folder and the file name meet at exactly one separator |
| SrcAndroidLogger.JoinedVersusPathString | src/com/rslakra/androidlogger/AndroidLogger.java:464-484 | compares the joined path with `LogHelper.pathString` on the same non-overlapping parts: they agree except when both sides carry a separator, where `pathString` keeps two and this join keeps one |
| SrcAndroidLogger.ConfigureCallsShape | src/com/rslakra/androidlogger/AndroidLogger.java:498-527 | `configure()` always switches internal debugging, attaches the rolling appender and then the Android appender when enabled, and ends by setting the level |
| SrcAndroidLogger.RepeatedConfigureStacksAppenders | src/com/rslakra/androidlogger/AndroidLogger.java:498-527 | without a reset, a second `configure()` attaches new appenders next to those of the first |
| SrcAndroidLogger.AndroidLogger.constructor | src/com/rslakra/androidlogger/AndroidLogger.java:214-227 | stores the level, file name, pattern and limits, with the default flags |
| SrcAndroidLogger.AndroidLogger.WithPattern | src/com/rslakra/androidlogger/AndroidLogger.java:234-236 | as the five-argument constructor, with 3 backups and 5 MiB |
| SrcAndroidLogger.AndroidLogger.WithLevel | src/com/rslakra/androidlogger/AndroidLogger.java:243-245 | as above, with the default log pattern |
| SrcAndroidLogger.AndroidLogger.WithFileName | src/com/rslakra/androidlogger/AndroidLogger.java:250-252 | as above, with level WARN |
| SrcAndroidLogger.EffectiveParent | src/com/rslakra/androidlogger/AndroidLogger.java:465-469 | a null or empty parent folder is replaced by the `user.dir` property; any other is kept, and the result is non-empty whenever the parent was given |
| SrcAndroidLogger.AndroidLogger.SetLogFilePath | src/com/rslakra/androidlogger/AndroidLogger.java:464-484 | an invalid file name throws and keeps the path; otherwise the path becomes `JoinedLogFilePath` |
| SrcAndroidLogger.AndroidLogger.Configure | src/com/rslakra/androidlogger/AndroidLogger.java:498-527 | creates a rolling appender exactly when file output is on and an Android appender exactly when Android output is on, with the stored settings, and records `ConfigureCalls` |
| SrcAndroidLogger.AndroidLoggerStatics.constructor | src/com/rslakra/androidlogger/AndroidLogger.java:47-52 | no instance yet and an empty cache |
| SrcAndroidLogger.AndroidLoggerStatics.Log4jConfigure | src/com/rslakra/androidlogger/AndroidLogger.java:98-115 | the first call creates the singleton with the arguments, WARN for a null level and the default flags; a later call keeps the existing instance and its settings and ignores its arguments; every call appends `ConfigureCalls` of the instance to its trace, with a fresh rolling appender exactly when file output is on and a fresh Android appender exactly when Android output is on, both carrying the instance's pattern, file and limits |
| SrcAndroidLogger.AndroidLoggerStatics.Log4jConfigure4 | src/com/rslakra/androidlogger/AndroidLogger.java:125-127 | as the five-argument form with 5 MiB files: the first call creates the singleton with these settings; a later call keeps the existing instance and its settings and ignores its arguments; every call appends `ConfigureCalls` of the instance to its trace, with a fresh rolling appender exactly when file output is on and a fresh Android appender exactly when Android output is on, both carrying the instance's pattern, file and limits |
| SrcAndroidLogger.AndroidLoggerStatics.Log4jConfigure3 | src/com/rslakra/androidlogger/AndroidLogger.java:137-139 | as the five-argument form with 3 backups and 5 MiB: the first call creates the singleton with these settings; a later call keeps the existing instance and its settings and ignores its arguments; every call appends `ConfigureCalls` of the instance to its trace, with a fresh rolling appender exactly when file output is on and a fresh Android appender exactly when Android output is on, both carrying the instance's pattern, file and limits |
| SrcAndroidLogger.AndroidLoggerStatics.Log4jConfigure2 | src/com/rslakra/androidlogger/AndroidLogger.java:147-149 | as the five-argument form with the Android pattern, 3 backups and 5 MiB: the first call creates the singleton with these settings; a later call keeps the existing instance and its settings and ignores its arguments; every call appends `ConfigureCalls` of the instance to its trace, with a fresh rolling appender exactly when file output is on and a fresh Android appender exactly when Android output is on, both carrying the instance's pattern, file and limits |
| SrcAndroidLogger.AsWrittenNeverConfigures | src/com/rslakra/androidlogger/AndroidLogger.java:156-158 | as written, the one-argument overload at any nesting depth is still calling itself with the same file name, so it never configures (see Findings) |
| SrcAndroidLogger.AndroidLoggerStatics.Log4jConfigure1 | src/com/rslakra/androidlogger/AndroidLogger.java:156-158 | corrected one-argument overload (see Findings): the two-argument form at level WARN, so the first call creates the singleton with the Android pattern and the default limits; a later call keeps the existing instance and its settings and ignores its arguments; every call appends `ConfigureCalls` of the instance to its trace, with a fresh rolling appender exactly when file output is on and a fresh Android appender exactly when Android output is on, both carrying the instance's pattern, file and limits |
| SrcAndroidLogger.AndroidLoggerStatics.Log4jConfigure0 | src/com/rslakra/androidlogger/AndroidLogger.java:165-167 | the one-argument form on `dLog4jAndroid.log`: the first call creates the singleton with that file name at WARN; a later call keeps the existing instance and its settings; every call appends `ConfigureCalls` of the instance to its trace, with a fresh rolling appender exactly when file output is on and a fresh Android appender exactly when Android output is on, both carrying the instance's pattern, file and limits |
| SrcAndroidLogger.AndroidLoggerStatics.GetLogger | src/com/rslakra/androidlogger/AndroidLogger.java:176-194 | null throws IllegalArgumentException; otherwise the cache lookup |
| SrcAndroidLogger.AndroidLoggerStatics.GetLoggerByName | src/com/rslakra/androidlogger/AndroidLogger.java:202-204 | returns log4j's logger directly, bypassing the cache |

## Left out

- File-system effects. Creating folders and files, and `IOException` while opening a file appender, rethrown as `RuntimeException`, are not modelled. The same goes for the `NullPointerException` from `new File(null)` and for the diagnostic `Log.i`/`Log.w` calls inside `addFileAppender`.
- log4j internals are opaque: layout rendering, file rotation and what a repository reset does. The model records the calls made and the objects passed.
- Concurrency. The double-checked locking in `getLogger` and in the singleton creation is modelled as plain sequential code.
- `String.format` overloads of the helpers are left out, because they need Java's formatter. So are `toString(Throwable)` and the Android-only helpers: files, assets, toasts, orientation, `println`, `logUri` and `logWebRequest`.
- JavaLang.ToLowerCase: assumes a default locale in which ASCII capitals lower to their ASCII small letters, and leaves every other character alone. Java's `toLowerCase()` depends on the default locale: under a Turkish or Azerbaijani locale `"INFO".toLowerCase()` is `"ınfo"` with a dotless ı, so `toLogType("info")` throws there, which `LogTypes.LookupNameRoundTrip` and `LogTypes.LookupNameIgnoresCase` do not capture. Case folding of non-ASCII characters is not modelled either.
- The six-argument `Log4JConfigurator.configure(...)` that `LogHelper.log4jConfigure` calls does not exist in `Log4JConfigurator.java`, which has only `configure()`. `LogHelperStatics.LogHelperState.Log4jConfigure` therefore returns the arguments it would pass, as a `ConfigureRequest`, instead of applying them.
- Trivial getters are not modelled separately: `getLogType`, `isLog4JLogsEnabled`, the configurator's getters and `AndroidLogger`'s getters and setters. Neither are the `isNull` checks on the final configurator, which cannot be null.
- `AndroidLogger.setLevel(loggerName, level)` needs log4j's repository of named loggers.
- `AndroidLogger.log4jConfigure(String)` as written never returns (see Findings); the model states this of its one-level unfolding and keeps no non-terminating member.
- Errors from the `RollingFileAppender` constructor in the stand-alone `configure()` are not modelled: they come from file I/O.
- SrcAndroidLogger.AndroidLoggerStatics.GetLoggerByName: `fromRepository` stands for log4j's logger, so the model cannot express log4j's own caching of named loggers.
- The 32-bit `int` and 64-bit `long` parameters are subset types. Arithmetic on them is never performed, so wrap-around does not arise.

## Findings

| source | as written | input that shows it | evidently intended | confidence | as-written member | corrected member |
|---|---|---|---|---|---|---|
| src/com/rslakra/androidlogger/AndroidLogger.java:156-158 | `log4jConfigure(String)` calls itself with the same argument, and `log4jConfigure()` at 165-167 calls it | any call, e.g. `log4jConfigure()`: each nested call is again `SelfCall(fileName)`, so configuration is never reached and the stack overflows | delegate to `log4jConfigure(logFileName, Level.WARN)`, the level of the one-argument constructor | medium, not executed | SrcAndroidLogger.AsWrittenNeverConfigures | SrcAndroidLogger.AndroidLoggerStatics.Log4jConfigure1 |
