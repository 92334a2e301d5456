/**
 * The Android appender of the stand-alone `src` tree: the same idea as the
 * library's appender, with a different choice for the verbose method.
 */
module SrcAndroidAppender {
  import opened JavaLang
  import opened Log4j
  import opened AndroidLog
  import Lib = LibAndroidAppender

  /**
   * The platform method `append` calls for a level: ALL to `Log.v`, DEBUG,
   * INFO, WARN and ERROR to their namesakes, FATAL to `Log.wtf`; the switch
   * has no default, so OFF and TRACE produce nothing.
   */
  function NativeMethod(l: Level): (r: Option<LogMethod>)
    ensures r.None? <==> l == Off || l == Trace
  {
    match l
    case All => Some(LogV)
    case Debug => Some(LogD)
    case Info => Some(LogI)
    case Warn => Some(LogW)
    case Error => Some(LogE)
    case Fatal => Some(LogWtf)
    case Off => None
    case Trace => None
  }

  /** A more severe level reaches a strictly higher native priority, so no two levels share a method. */
  lemma NativeMethodKeepsSeverityOrder(a: Level, b: Level)
    requires NativeMethod(a).Some? && NativeMethod(b).Some?
    ensures ToInt(a) < ToInt(b) <==> Priority(NativeMethod(a).value) < Priority(NativeMethod(b).value)
    ensures a != b ==> NativeMethod(a) != NativeMethod(b)
  {
  }

  /**
   * The two appenders agree on every level except TRACE and ALL: the library
   * sends TRACE to `Log.v` and drops ALL, this one does the opposite.
   */
  lemma NativeMethodsDifferOnlyOnTraceAndAll(l: Level)
    ensures NativeMethod(l) == Lib.NativeMethod(l) <==> l != Trace && l != All
    ensures NativeMethod(All) == Lib.NativeMethod(Trace) == Some(LogV)
    ensures NativeMethod(Trace) == Lib.NativeMethod(All) == None
  {
  }

  class AndroidAppender {
    /** `tagLayout`: renders the tag. */
    var tagLayout: Option<Layout>
    /** The layout inherited from `AppenderSkeleton`: renders the message. */
    var layout: Option<Layout>

    /** `AndroidAppender(tagLayout, layoutMessage)`. */
    constructor (tagLayout: Option<Layout>, layoutMessage: Option<Layout>)
      ensures this.tagLayout == tagLayout && layout == layoutMessage
    {
      this.tagLayout := tagLayout;
      layout := layoutMessage;
    }

    /** `setTagLayout`: replaces the tag layout and nothing else. */
    method SetTagLayout(tagLayout: Option<Layout>)
      modifies this`tagLayout
      ensures this.tagLayout == tagLayout && layout == old(layout)
    {
      this.tagLayout := tagLayout;
    }

    /** `requiresLayout`: always true. */
    function RequiresLayout(): (r: bool)
      ensures r
    {
      true
    }

    /** `close`: does nothing. */
    method Close()
      ensures unchanged(this)
    {
    }

    /**
     * `append(event)`: the platform call made for the event, if any, with the
     * tag from the tag layout, the message from the main layout and the
     * event's throwable exactly when it has one. A missing layout throws.
     */
    function Append(e: LoggingEvent): (r: Result<Option<PlatformCall>>)
      reads this
      ensures NativeMethod(e.level).None? ==> r == Ok(None)
      ensures NativeMethod(e.level).Some? && (tagLayout.None? || layout.None?) ==> r == Throw(NullPointerException)
      ensures NativeMethod(e.level).Some? && tagLayout.Some? && layout.Some? ==> r.Ok? && r.value.Some?
      ensures r.Ok? && r.value.Some? ==>
        && r.value.value.logMethod == NativeMethod(e.level).value
        && r.value.value.tag == Formatted(tagLayout.value, e)
        && r.value.value.message == Some(Formatted(layout.value, e))
        && r.value.value.throwable == e.throwableInfo
    {
      match NativeMethod(e.level)
      case None => Ok(None)
      case Some(m) =>
        if tagLayout.None? || layout.None? then Throw(NullPointerException)
        else Ok(Some(PlatformCall(m, Formatted(tagLayout.value, e), Some(Formatted(layout.value, e)), e.throwableInfo)))
    }
  }
}
