/** `android.util.Log`: the platform log a call can end in. */
module AndroidLog {
  import opened JavaLang
  import opened Log4j

  /** `Log.v`, `Log.d`, `Log.i`, `Log.w`, `Log.e` and `Log.wtf`. */
  datatype LogMethod = LogV | LogD | LogI | LogW | LogE | LogWtf

  /** The native priority each method writes with (`Log.VERBOSE` = 2 ... `Log.ASSERT` = 7). */
  function Priority(m: LogMethod): int {
    match m
    case LogV => 2
    case LogD => 3
    case LogI => 4
    case LogW => 5
    case LogE => 6
    case LogWtf => 7
  }

  /** An argument of a platform call: a string the caller passed, or a layout applied to an event. */
  datatype Text = Literal(s: JString) | Formatted(layout: Layout, event: LoggingEvent)

  /**
   * One call of a platform log method; `message` is absent for
   * `Log.wtf(tag, throwable)`, `throwable` for the overloads without one.
   */
  datatype PlatformCall = PlatformCall(logMethod: LogMethod, tag: Text, message: Option<Text>, throwable: Option<Throwable>)
}
