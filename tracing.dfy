/** The part of the `tracing` instrumentation API that the conversion reads:
    levels, event metadata and the recorded fields of an event. */
module Tracing {

  /** `tracing::Level`. */
  datatype Level = TRACE | DEBUG | INFO | WARN | ERROR

  /** The order `tracing` puts on levels: more verbose is greater, so ERROR is
      the least and TRACE the greatest. */
  function Verbosity(level: Level): nat
  {
    match level
    case ERROR => 0
    case WARN => 1
    case INFO => 2
    case DEBUG => 3
    case TRACE => 4
  }

  /** The metadata of an event: its level and its target (by default the
      module path of the call site). */
  datatype Metadata = Metadata(level: Level, target: string)

  /** A recorded field, as `Visit` sees it. A `&str` value arrives through
      `record_str`; every other kind (integers, booleans, errors and any
      `Debug` value) arrives through `record_debug` by the trait's default
      methods. `debugText` is the text `record_debug` formats for the value:
      its `{:?}` rendering, which for an error is the error's `Display` text.
      The model takes that text as given. */
  datatype Field =
    | Str(name: string, value: string)
    | Other(name: string, debugText: string)

  /** An event: its metadata and the fields that carry a value, in the order
      `Event::record` visits them. */
  datatype Event = Event(metadata: Metadata, fields: seq<Field>)
}
