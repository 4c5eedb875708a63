# sentry-tracing conversion core in Dafny

This project models the conversion core of `sentry-tracing`, the bridge from
the `tracing` instrumentation API to Sentry. The core has two parts.

- **Event conversion** (`src/converters.rs`). A `FieldVisitor` walks an
  event's fields in order. Each field that is not a string adds one
  `"name=value"` message. A string field named `log.target` sets the log
  target. The messages, joined by newlines, become the text of a breadcrumb and
  of an issue event's single exception. The exception's type is the log target,
  or the event's target if there is none. The `tracing` levels map onto Sentry
  levels by a fixed table.
- **Integration** (`src/integration.rs`). This part holds the integration's
  options and their defaults, the rule for which events become issues, its
  name, and the setup step. Setup appends fixed entries to two lists in the
  client configuration.

Files:

- `wrappers.dfy`: `Option`.
- `strings.dfy`: `Join`, which is `[String]::join`, and `SplitOn`, its inverse on a
  non-empty list of parts free of the separator.
- `tracing.dfy`: levels, metadata, fields and events as the visitor sees them.
- `sentry.dfy`: Sentry levels, breadcrumbs, exceptions, events and the
  `ClientOptions` class.
- `converters.dfy`: the level mapping, the visitor and the builders.
- `integration.dfy`: the options, the issue policy and setup.

Modelling choices:

- Fields are `Str(name, value)` for `&str` values and `Other(name, debugText)`
  for every other kind. `Other` covers integers, booleans, errors and other
  `Debug` values, which the `Visit` trait's default methods route to
  `record_debug`. `debugText` is the text `record_debug` formats for the
  value, taken as given. For an error, that text is its `Display` text.
- The visitor is a class (`Converters.FieldVisitor`) whose methods update its
  fields in place. `VisitEvent` loops over the fields. It is proved equal to
  the pure fold `VisitFields`, and the lemmas are stated about that fold.
- The subscriber context is a type parameter `C` that no body reads.
- `current_stacktrace()` is a parameter `captured` of `ConvertTracingEvent`.
- `EnvFilter` is kept as its directive text, `EnvFilter("info")` by default.

Facts about the code that shape the model:

- The breadcrumb's category is always the event's target. Only the exception
  type reads `log.target`.
- A string value never reaches the messages. The visitor keeps only the
  messages and the log target.

## Model

| member | source | states |
|---|---|---|
| `Converters.ConvertTracingLevelProperties` | src/converters.rs:5-12 | The level mapping never yields Fatal. Only DEBUG and TRACE map to Debug, and two different levels share an image exactly when both are DEBUG or TRACE. The mapping turns `tracing`'s verbosity order into Sentry's severity order. |
| `Converters.OtherFields` | src/converters.rs:35-37 | These are the fields that reach `record_debug`, in visiting order. It is a reference definition: each one is a non-string field of the event. |
| `Converters.NoOtherFields` | src/converters.rs:29-37 | No field reaches `record_debug` exactly when every field is a string field. |
| `Converters.VisitMessages` | src/converters.rs:29-37 | The visitor's messages are exactly one `"name=value"` per non-string field, in visiting order. So their count is the number of non-string fields, and string fields add none. |
| `Converters.MessagesDependOnlyOnOtherFields` | src/converters.rs:29-37 | Two field lists with the same non-string fields give the same messages. |
| `Converters.VisitLogTarget` | src/converters.rs:29-33 | The log target is None exactly when no string field is named `log.target`. Otherwise it is the value of the last such field, so the last one wins. |
| `Converters.FieldVisitor.constructor` | src/converters.rs:14-18 | A default visitor has no messages and no log target. |
| `Converters.FieldVisitor.RecordStr` | src/converters.rs:29-33 | `record_str` leaves the messages alone. It sets the log target to the value only for a field named `log.target`. |
| `Converters.FieldVisitor.RecordDebug` | src/converters.rs:35-37 | `record_debug` appends `"name=value"` and leaves the log target alone. |
| `Converters.FieldVisitor.RecordField` | src/converters.rs:28-38 | Dispatching a field by its kind performs one step of the fold `Record`. |
| `Converters.FieldVisitor.VisitEvent` | src/converters.rs:21-25 | A fresh default visitor that has recorded all fields, in order, holds exactly `VisitFields(event.fields)`. |
| `Converters.FormatEventEmpty` | src/converters.rs:40-43 | The formatted event is empty exactly when every field is a string field. |
| `Converters.FormatEventIgnoresContext` | src/converters.rs:40-43 | The formatted event does not depend on the context argument. |
| `Converters.FormatEventLines` | src/converters.rs:40-43 | Assume at least one non-string field and no entry containing a newline. Then splitting the formatted event at newlines gives one `"name=value"` per non-string field, in order. |
| `Converters.BreadcrumbFromEvent` | src/converters.rs:46-56 | The breadcrumb has type `"log"` and the mapped level. Its category is the event's target, and its message is the formatted event. |
| `Converters.BreadcrumbIgnoresStringFields` | src/converters.rs:46-56 | Events with the same metadata and the same non-string fields give the same breadcrumb. Its category is the event's target even when a `log.target` field exists. |
| `Converters.ConvertTracingEvent` | src/converters.rs:62-86 | The converted event comes from the `sentry-tracing` logger at the mapped level. It has exactly one exception, whose value is the formatted event. That exception carries the captured stack trace only when stack traces are requested, and none otherwise. |
| `Converters.ExceptionTypeFromFields` | src/converters.rs:63-68 | The exception type is the event's target when no `log.target` string field exists. Otherwise it is the value of the last such field. |
| `Converters.BreadcrumbAgreesWithEvent` | src/converters.rs:46-83 | The breadcrumb and the issue event for one event have the same level. The breadcrumb's message is the exception's value. Its category equals the exception type exactly when the last `log.target` field, if any, names the event's own target. |
| `Strings.JoinEmpty` | src/converters.rs:42 | Joining non-empty messages gives the empty string exactly when there are no messages. |
| `Strings.SplitPrefix` | src/converters.rs:42 | When a prefix contains no separator, splitting attaches it to the first piece of what follows. |
| `Strings.SplitJoin` | src/converters.rs:42 | Splitting a join of at least one separator-free part at the separator returns the parts. So splitting is the inverse of the join. |
| `Integration.DefaultOptions` | src/integration.rs:28-40 | By default the filter is `info`, breadcrumbs, error events and stack traces are on, and warning events and ANSI stripping are off. No event-type field is set. |
| `Integration.New` | src/integration.rs:50-52 | `new` stores the options unchanged. |
| `Integration.DefaultIntegrationOptions` | src/integration.rs:64-68 | The default integration is `new` applied to the default options. |
| `Integration.CreateIssueDecisionTable` | src/integration.rs:55-61 | WARN follows the warning option and ERROR follows the error option. INFO, DEBUG and TRACE never create an issue, whatever the options. |
| `Integration.IssuesAreWarningsOrErrors` | src/integration.rs:55-61 | An event that creates an issue is reported at Sentry level Warning or Error. The option for that level is set. |
| `Integration.DefaultIssuePolicy` | src/integration.rs:28-61 | With the default integration, an event creates an issue exactly when it is an ERROR. |
| `Integration.Name` | src/integration.rs:71-73 | The name is always `"tracing"`. |
| `Integration.Setup` | src/integration.rs:75-82 | Setup appends `tracing_core::`, `tracing_log::` and `log::` to the in-app exclusions, in that order, after the existing entries. It appends the two border frames the same way. No other option changes. |

## Left out

- `src/layer.rs`: hub lookup, event capture and the printed diagnostics are
  I/O on process-global state. Its call to `convert_tracing_event` passes the
  integration where a `bool` is expected, so it is not a well-typed operation
  to model. The rest of that file is commented out.
- `src/lib.rs` holds only module declarations and re-exports.
- Stack-trace capture (`current_stacktrace`) is a foreign call. It is the
  parameter `captured`.
- `EnvFilter` parsing and matching come from a foreign library. The filter is
  kept as its directive text.
- Rust's formatting of field values is taken as given text.
- Span handling: `on_enter` in `src/layer.rs` is empty, and no other span
  callback is implemented, so there is no span state to model.
- `strip_ansi_escapes` and `event_type_field` are carried in the options but
  never read, so no operation models them.
- Sentry protocol fields left at `Default::default()` are not modelled. These
  include breadcrumb timestamp and data, event id and timestamp, and
  exception module and mechanism. Of `ClientOptions`, only four fields are
  modelled.
- `convert_tracing_event` visits the fields twice, once directly and once
  inside `format_event`. Visiting is deterministic, so the model computes the
  fold once per use and the results agree.
- Fields declared on a call site without a recorded value are not visited by
  `Event::record`. The model's `fields` lists only fields with values.
