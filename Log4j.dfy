/**
 * The values of the host logging framework that the appender reads. Only
 * what SlackAppender.kt looks at is kept: a level's integer weight, the
 * logger name, the message and the configuration elements it passes on.
 */
module Log4j {
  import opened Wrappers
  import opened Kotlin

  /** A severity level: the built-in ones, or one a configuration declares by name and weight. */
  datatype Level = Off | Fatal | Error | Warn | Info | Debug | Trace | All | Custom(name: string, weight: Int32)

  /** `Level.intLevel()`: the level's integer weight (smaller is more severe). */
  function IntLevel(level: Level): Int32
  {
    match level
    case Off => 0
    case Fatal => 100
    case Error => 200
    case Warn => 300
    case Info => 400
    case Debug => 500
    case Trace => 600
    case All => 0x7FFF_FFFF
    case Custom(_, w) => w
  }

  /** Each built-in level has its own weight, so on built-in levels a weight identifies the level. */
  lemma BuiltInWeights(a: Level, b: Level)
    requires !a.Custom? && !b.Custom?
    ensures IntLevel(a) == IntLevel(b) <==> a == b
  {
  }

  /** The six severities the appender styles weigh 100 (FATAL) to 600 (TRACE). */
  lemma SeverityWeights()
    ensures IntLevel(Fatal) == 100 && IntLevel(Error) == 200 && IntLevel(Warn) == 300
    ensures IntLevel(Info) == 400 && IntLevel(Debug) == 500 && IntLevel(Trace) == 600
  {
  }

  /** The message an event carries; only its formatted text is read. */
  datatype Message = Message(formattedMessage: string)

  /** An event handed to an appender; `loggerName` and `message` may be null. */
  datatype LogEvent = LogEvent(level: Level, loggerName: Option<string>, message: Option<Message>)

  /** A layout element: a pattern layout with its conversion pattern, or any other layout plugin. */
  datatype Layout = PatternLayout(conversionPattern: string) | OtherLayout(pluginName: string)

  /** `PatternLayout.createDefaultLayout()`: the pattern "%m%n", the message and a line break. */
  const DefaultLayout: Layout := PatternLayout("%m%n")

  /** A filter element, passed on to the framework untouched. */
  datatype Filter = Filter(pluginName: string)

  /** A configuration property of an appender. */
  datatype Property = Property(name: string, value: string)
}
