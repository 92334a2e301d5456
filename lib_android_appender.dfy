/**
 * The log4j appender of the `androidLogger` library that writes events to
 * the Android platform log, choosing the `Log` method from the event's level.
 */
module LibAndroidAppender {
  import opened JavaLang
  import opened Log4j
  import opened AndroidLog

  /** The tag pattern of the one-argument constructor: the logger's name. */
  const DefaultTagPattern: string := "%c"

  /**
   * The platform method `append` calls for a level: TRACE to `Log.v`, DEBUG,
   * INFO, WARN and ERROR to their namesakes, FATAL to `Log.wtf`; the switch
   * has no default, so OFF and ALL produce nothing.
   */
  function NativeMethod(l: Level): (r: Option<LogMethod>)
    ensures r.None? <==> l == Off || l == All
  {
    match l
    case Trace => Some(LogV)
    case Debug => Some(LogD)
    case Info => Some(LogI)
    case Warn => Some(LogW)
    case Error => Some(LogE)
    case Fatal => Some(LogWtf)
    case Off => None
    case All => None
  }

  /** A more severe level reaches a strictly higher native priority, so no two levels share a method. */
  lemma NativeMethodKeepsSeverityOrder(a: Level, b: Level)
    requires NativeMethod(a).Some? && NativeMethod(b).Some?
    ensures ToInt(a) < ToInt(b) <==> Priority(NativeMethod(a).value) < Priority(NativeMethod(b).value)
    ensures a != b ==> NativeMethod(a) != NativeMethod(b)
  {
  }

  class AndroidAppender {
    /** `mTagLayout`: renders the tag. */
    var tagLayout: Option<Layout>
    /** The layout inherited from `AppenderSkeleton`: renders the message. */
    var layout: Option<Layout>

    /** `AndroidAppender(tagLayout, logPattern)`. */
    constructor (tagLayout: Option<Layout>, logPattern: Option<Layout>)
      ensures this.tagLayout == tagLayout && layout == logPattern
    {
      this.tagLayout := tagLayout;
      layout := logPattern;
    }

    /** `AndroidAppender(logPattern)`: the tag is rendered with the "%c" pattern. */
    constructor WithDefaultTag(logPattern: Option<Layout>)
      ensures tagLayout == Some(PatternLayout(Some(DefaultTagPattern))) && layout == logPattern
    {
      tagLayout := Some(PatternLayout(Some(DefaultTagPattern)));
      layout := logPattern;
    }

    /** `setTagLayout`: replaces the tag layout and nothing else. */
    method SetTagLayout(tagLayout: Option<Layout>)
      modifies this`tagLayout
      ensures this.tagLayout == tagLayout && layout == old(layout)
    {
      this.tagLayout := tagLayout;
    }

    /** `requiresLayout`: always true. */
    function RequiresLayout(): (r: bool)
      ensures r
    {
      true
    }

    /** `close`: does nothing. */
    method Close()
      ensures unchanged(this)
    {
    }

    /**
     * `append(event)`: the platform call made for the event, if any. Its tag
     * is the tag layout applied to the event, its message the main layout
     * applied to it, and it carries the event's throwable exactly when the
     * event has one. A missing layout is dereferenced, so it throws.
     */
    function Append(e: LoggingEvent): (r: Result<Option<PlatformCall>>)
      reads this
      ensures NativeMethod(e.level).None? ==> r == Ok(None)
      ensures NativeMethod(e.level).Some? && (tagLayout.None? || layout.None?) ==> r == Throw(NullPointerException)
      ensures NativeMethod(e.level).Some? && tagLayout.Some? && layout.Some? ==> r.Ok? && r.value.Some?
      ensures r.Ok? && r.value.Some? ==>
        && r.value.value.logMethod == NativeMethod(e.level).value
        && r.value.value.tag == Formatted(tagLayout.value, e)
        && r.value.value.message == Some(Formatted(layout.value, e))
        && r.value.value.throwable == e.throwableInfo
    {
      match NativeMethod(e.level)
      case None => Ok(None)
      case Some(m) =>
        if tagLayout.None? || layout.None? then Throw(NullPointerException)
        else Ok(Some(PlatformCall(m, Formatted(tagLayout.value, e), Some(Formatted(layout.value, e)), e.throwableInfo)))
    }
  }
}
