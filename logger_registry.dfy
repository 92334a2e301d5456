/**
 * The per-name logger caches kept by `LogHelper` and by `AndroidLogger`: a
 * map from a logger (or class) name to the log4j logger handed out for it.
 */
module LoggerRegistry {
  import opened JavaLang
  import opened Log4j

  /**
   * One `getLogger(name)` on cache `m`, given the logger log4j would hand out
   * for the name: the cached logger when there is one, otherwise the new one,
   * which is then cached. Other entries are left alone.
   */
  function CacheLookup(m: map<string, LoggerId>, name: string, fromRepository: LoggerId): (r: (LoggerId, map<string, LoggerId>))
    ensures name in r.1 && r.1[name] == r.0
    ensures name in m ==> r.0 == m[name] && r.1 == m
    ensures name !in m ==> r.0 == fromRepository
    ensures r.1.Keys == m.Keys + {name}
    ensures forall k :: k in m && k != name ==> r.1[k] == m[k]
  {
    if name in m then (m[name], m) else (fromRepository, m[name := fromRepository])
  }

  /** A repeated lookup returns the logger of the first one and leaves the cache as it was, whatever log4j offers. */
  lemma CacheLookupRepeat(m: map<string, LoggerId>, name: string, first: LoggerId, later: LoggerId)
    ensures var (logger, cached) := CacheLookup(m, name, first);
      CacheLookup(cached, name, later) == (logger, cached)
  {
  }

  /** A cache of loggers keyed by name. */
  class LoggerCache {
    var loggers: map<string, LoggerId>

    /** The empty cache the class initialiser creates. */
    constructor ()
      ensures loggers == map[]
    {
      loggers := map[];
    }

    /**
     * `getLogger(logClass)` / `getLogger(logClassName)`: throws
     * IllegalArgumentException for null; otherwise the cache lookup, with
     * `fromRepository` standing for log4j's `Logger.getLogger(name)`.
     */
    method GetLogger(name: JString, fromRepository: LoggerId) returns (r: Result<LoggerId>)
      modifies this`loggers
      ensures name.None? ==> r == Throw(IllegalArgumentException) && loggers == old(loggers)
      ensures name.Some? ==> r.Ok? && (r.value, loggers) == CacheLookup(old(loggers), name.value, fromRepository)
    {
      if name.None? {
        return Throw(IllegalArgumentException);
      }
      var key := name.value;
      if key in loggers {
        r := Ok(loggers[key]);
      } else {
        loggers := loggers[key := fromRepository];
        r := Ok(fromRepository);
      }
    }
  }
}
