/** `Log4js.LoggingEvent`: the record one accepted log call produces. */
module Events {
  import opened Levels
  import opened DateFormat

  /** The throwable argument of a log call: `trace` always passes `null`; the other
      level methods pass what the caller gave, `undefined` when it gave nothing. */
  datatype Throwable = NullThrowable | UndefinedThrowable | Thrown(text: string)

  /** The throwable as string concatenation renders it. */
  function ThrowableText(t: Throwable): string
  {
    match t
    case NullThrowable => "null"
    case UndefinedThrowable => "undefined"
    case Thrown(text) => text
  }

  /** What the layouts read of the event's `Date`: its local fields, for
      `formatDate`, and the text of `toLocaleString()`, which depends on the
      browser and is taken as given. */
  datatype Instant = Instant(fields: DateFields, localeText: string)

  /** A logging event: category, level, message, throwable and start time. The
      message is the caller's object as string concatenation renders it. */
  datatype LoggingEvent = LoggingEvent(
    categoryName: string,
    level: Level,
    message: string,
    exception: Throwable,
    startTime: Instant)
}
