/** The Sentry integration for `tracing`: its options, the policy deciding
    which events become issues, and its setup of the client configuration
    (src/integration.rs). */
module Integration {
  import opened Wrappers
  import opened Tracing
  import Sentry
  import Converters

  /** An `EnvFilter`, kept as the directive text it was built from; parsing and
      evaluating directives happen outside the model. */
  datatype EnvFilter = EnvFilter(directives: string)

  /** `TracingIntegrationOptions`. `stripAnsiEscapes` and `eventTypeField` are
      carried but not read by any operation. */
  datatype TracingIntegrationOptions = TracingIntegrationOptions(
    filter: EnvFilter,
    emitBreadcrumbs: bool,
    emitErrorEvents: bool,
    emitWarningEvents: bool,
    attachStacktraces: bool,
    stripAnsiEscapes: bool,
    eventTypeField: Option<string>)

  /** `TracingIntegrationOptions::default()`. */
  function DefaultOptions(): (o: TracingIntegrationOptions)
    ensures o.filter == EnvFilter("info")
    ensures o.emitBreadcrumbs && o.emitErrorEvents && !o.emitWarningEvents
    ensures o.attachStacktraces && !o.stripAnsiEscapes && o.eventTypeField == None
  {
    TracingIntegrationOptions(
      filter := EnvFilter("info"),
      emitBreadcrumbs := true,
      emitErrorEvents := true,
      emitWarningEvents := false,
      attachStacktraces := true,
      stripAnsiEscapes := false,
      eventTypeField := None)
  }

  datatype TracingIntegration = TracingIntegration(options: TracingIntegrationOptions)

  /** `TracingIntegration::new`. */
  function New(options: TracingIntegrationOptions): (integration: TracingIntegration)
    ensures integration.options == options
  {
    TracingIntegration(options)
  }

  /** `TracingIntegration::default()`: a new integration with default options. */
  function DefaultIntegration(): TracingIntegration
  {
    New(DefaultOptions())
  }

  /** `create_issue_for_event`: warnings and errors become issues when their
      option says so; nothing else ever does. */
  function CreateIssueForEvent(integration: TracingIntegration, event: Tracing.Event): bool
  {
    match event.metadata.level
    case WARN => integration.options.emitWarningEvents
    case ERROR => integration.options.emitErrorEvents
    case _ => false
  }

  /** The decision table read per level: WARN follows only the warning option,
      ERROR only the error option, and INFO, DEBUG and TRACE never create an
      issue whatever the options. */
  lemma CreateIssueDecisionTable(integration: TracingIntegration, event: Tracing.Event)
    ensures event.metadata.level == WARN ==>
              CreateIssueForEvent(integration, event) == integration.options.emitWarningEvents
    ensures event.metadata.level == ERROR ==>
              CreateIssueForEvent(integration, event) == integration.options.emitErrorEvents
    ensures Verbosity(event.metadata.level) >= Verbosity(INFO) ==>
              !CreateIssueForEvent(integration, event)
  {
  }

  /** An event that becomes an issue is reported at Sentry level Warning or
      Error, and the option that admitted it is the one for that level. */
  lemma IssuesAreWarningsOrErrors(integration: TracingIntegration, event: Tracing.Event)
    requires CreateIssueForEvent(integration, event)
    ensures var level := Converters.ConvertTracingLevel(event.metadata.level);
      (level == Sentry.Warning && integration.options.emitWarningEvents)
      || (level == Sentry.Error && integration.options.emitErrorEvents)
  {
  }

  /** With the default integration an ERROR event creates an issue and no other
      level does. */
  lemma DefaultIssuePolicy(event: Tracing.Event)
    ensures CreateIssueForEvent(DefaultIntegration(), event) <==> event.metadata.level == ERROR
  {
  }

  /** `TracingIntegration::default()` keeps exactly the default options. */
  lemma DefaultIntegrationOptions()
    ensures DefaultIntegration().options == DefaultOptions()
    ensures DefaultIntegration() == New(DefaultOptions())
  {
  }

  /** `Integration::name`. */
  function Name(integration: TracingIntegration): (name: string)
    ensures name == "tracing"
  {
    "tracing"
  }

  /** The module prefixes `setup` marks as not part of the application. */
  const InAppExcludes: seq<string> := ["tracing_core::", "tracing_log::", "log::"]

  /** The frames `setup` marks as the boundary between library and caller. */
  const BorderFrames: seq<string> := ["tracing_core::event::Event::dispatch", "log::__private_api_log"]

  /** `Integration::setup`: appends the three excluded prefixes and the two
      border frames, in that order, after what the configuration already
      holds; no other option changes. */
  method Setup(integration: TracingIntegration, cfg: Sentry.ClientOptions)
    modifies cfg
    ensures cfg.inAppExclude == old(cfg.inAppExclude) + InAppExcludes
    ensures cfg.extraBorderFrames == old(cfg.extraBorderFrames) + BorderFrames
    ensures cfg.inAppInclude == old(cfg.inAppInclude)
    ensures cfg.attachStacktrace == old(cfg.attachStacktrace)
  {
    cfg.inAppExclude := cfg.inAppExclude + ["tracing_core::"];
    cfg.inAppExclude := cfg.inAppExclude + ["tracing_log::"];
    cfg.inAppExclude := cfg.inAppExclude + ["log::"];
    cfg.extraBorderFrames := cfg.extraBorderFrames + ["tracing_core::event::Event::dispatch"];
    cfg.extraBorderFrames := cfg.extraBorderFrames + ["log::__private_api_log"];
  }
}
