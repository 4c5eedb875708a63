/** The Sentry protocol records and client options the conversion produces or
    changes. Fields the conversion leaves at their defaults are not modelled. */
module Sentry {
  import opened Wrappers

  /** `sentry_core::Level`. */
  datatype Level = Debug | Info | Warning | Error | Fatal

  /** The order Sentry puts on levels: Debug is the least severe. */
  function Severity(level: Level): nat
  {
    match level
    case Debug => 0
    case Info => 1
    case Warning => 2
    case Error => 3
    case Fatal => 4
  }

  /** A captured stack trace: its frames' function names. The capture itself
      happens outside the model. */
  datatype Stacktrace = Stacktrace(frames: seq<string>)

  datatype Breadcrumb = Breadcrumb(
    ty: string,
    level: Level,
    category: Option<string>,
    message: Option<string>)

  datatype Exception = Exception(
    ty: string,
    value: Option<string>,
    stacktrace: Option<Stacktrace>)

  datatype Event = Event(
    logger: Option<string>,
    level: Level,
    exception: seq<Exception>)

  /** The client configuration an integration may adjust during setup. Besides
      the two lists setup appends to, two representative other options are
      kept so that "nothing else changes" can be stated. */
  class ClientOptions {
    var inAppInclude: seq<string>
    var inAppExclude: seq<string>
    var extraBorderFrames: seq<string>
    var attachStacktrace: bool

    /** `ClientOptions::default()`, restricted to the four modelled fields. */
    constructor ()
      ensures inAppInclude == [] && inAppExclude == [] && extraBorderFrames == []
      ensures !attachStacktrace
    {
      inAppInclude := [];
      inAppExclude := [];
      extraBorderFrames := [];
      attachStacktrace := false;
    }
  }
}
