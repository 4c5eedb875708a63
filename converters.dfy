/** Conversion of a `tracing` event into a Sentry breadcrumb and a Sentry
    issue event (src/converters.rs). */
module Converters {
  import opened Wrappers
  import opened Strings
  import opened Tracing
  import opened Sentry

  // ---------------------------------------------------------------------------
  // Levels

  /** The fixed mapping of `tracing` levels onto Sentry levels. */
  function ConvertTracingLevel(level: Tracing.Level): Sentry.Level
  {
    match level
    case ERROR => Error
    case WARN => Warning
    case INFO => Info
    case DEBUG => Debug
    case TRACE => Debug
  }

  /** Every level maps to one of the four Sentry levels below Fatal; only DEBUG
      and TRACE share an image, and the mapping reverses `tracing`'s verbosity
      order into Sentry's severity order. */
  lemma ConvertTracingLevelProperties(a: Tracing.Level, b: Tracing.Level)
    ensures ConvertTracingLevel(a) != Fatal
    ensures ConvertTracingLevel(a) == Debug <==> a == DEBUG || a == TRACE
    ensures ConvertTracingLevel(a) == ConvertTracingLevel(b) <==>
              a == b || (Verbosity(a) >= Verbosity(DEBUG) && Verbosity(b) >= Verbosity(DEBUG))
    ensures Verbosity(a) <= Verbosity(b) ==>
              Severity(ConvertTracingLevel(b)) <= Severity(ConvertTracingLevel(a))
  {
  }

  // ---------------------------------------------------------------------------
  // Field visitor

  /** The name of the string field by which `tracing-log` reports the target
      of a forwarded `log` record. */
  const LogTargetField := "log.target"

  predicate IsLogTarget(f: Field)
  {
    f.Str? && f.name == LogTargetField
  }

  /** Field `i` is a `log.target` field and no later field is one. */
  predicate IsLastLogTarget(fields: seq<Field>, i: int)
    requires 0 <= i < |fields|
  {
    IsLogTarget(fields[i]) && forall j :: i < j < |fields| ==> !IsLogTarget(fields[j])
  }

  /** The entry `record_debug` writes for a field: `"{name}={value:?}"`, with
      the formatted value given as the field's `debugText`. */
  function Message(f: Field): string
    requires f.Other?
  {
    f.name + "=" + f.debugText
  }

  /** The value of a `FieldVisitor`: what it has accumulated so far. */
  datatype VisitorState = VisitorState(messages: seq<string>, logTarget: Option<string>)

  /** `FieldVisitor::default()`. */
  const EmptyVisitor := VisitorState([], None)

  /** One visit: a string field only ever sets the log target, and only when
      it is named `log.target`; every other field appends its message. */
  function Record(st: VisitorState, f: Field): VisitorState
  {
    match f
    case Str(name, value) =>
      if name == LogTargetField then st.(logTarget := Some(value)) else st
    case Other(_, _) =>
      st.(messages := st.messages + [Message(f)])
  }

  /** `FieldVisitor::visit_event` as a fold of `Record` over the fields in
      visiting order, starting from the default visitor. */
  function VisitFields(fields: seq<Field>): VisitorState
  {
    if fields == [] then EmptyVisitor
    else Record(VisitFields(fields[..|fields| - 1]), fields[|fields| - 1])
  }

  /** The fields that reach `record_debug`, in visiting order: an independent
      reference definition for the messages. */
  function OtherFields(fields: seq<Field>): (r: seq<Field>)
    ensures |r| <= |fields|
    ensures forall k :: 0 <= k < |r| ==> r[k].Other? && r[k] in fields
  {
    if fields == [] then []
    else (if fields[0].Other? then [fields[0]] else []) + OtherFields(fields[1..])
  }

  lemma {:induction false} OtherFieldsAppend(a: seq<Field>, b: seq<Field>)
    ensures OtherFields(a + b) == OtherFields(a) + OtherFields(b)
  {
    if a == [] {
      assert a + b == b;
    } else {
      assert (a + b)[1..] == a[1..] + b;
      OtherFieldsAppend(a[1..], b);
    }
  }

  /** No field reaches `record_debug` exactly when every field is a string field. */
  lemma {:induction false} NoOtherFields(fields: seq<Field>)
    ensures OtherFields(fields) == [] <==> forall i :: 0 <= i < |fields| ==> fields[i].Str?
  {
    if fields != [] {
      NoOtherFields(fields[1..]);
      assert forall i :: 1 <= i < |fields| ==> fields[i] == fields[1..][i - 1];
    }
  }

  /** The messages are exactly one `"name=value"` entry per field that is not
      a string, in visiting order; so their number is the number of such
      fields, and string fields never add one. */
  lemma {:induction false} VisitMessages(fields: seq<Field>)
    ensures |VisitFields(fields).messages| == |OtherFields(fields)|
    ensures forall k :: 0 <= k < |OtherFields(fields)| ==>
              VisitFields(fields).messages[k] == Message(OtherFields(fields)[k])
  {
    if fields != [] {
      var init, last := fields[..|fields| - 1], fields[|fields| - 1];
      assert fields == init + [last];
      VisitMessages(init);
      OtherFieldsAppend(init, [last]);
      assert OtherFields([last]) == (if last.Other? then [last] else []) + OtherFields([]);
    }
  }

  /** Only the non-string fields decide the messages. */
  lemma MessagesDependOnlyOnOtherFields(a: seq<Field>, b: seq<Field>)
    requires OtherFields(a) == OtherFields(b)
    ensures VisitFields(a).messages == VisitFields(b).messages
  {
    VisitMessages(a);
    VisitMessages(b);
  }

  /** The log target is absent exactly when no string field is named
      `log.target`; otherwise it is the value of the last such field. */
  lemma {:induction false} VisitLogTarget(fields: seq<Field>)
    ensures VisitFields(fields).logTarget.None? <==>
              forall i :: 0 <= i < |fields| ==> !IsLogTarget(fields[i])
    ensures VisitFields(fields).logTarget.Some? ==>
              exists i :: 0 <= i < |fields| && IsLastLogTarget(fields, i)
                && fields[i].value == VisitFields(fields).logTarget.value
  {
    if fields != [] {
      var n := |fields| - 1;
      var init := fields[..n];
      VisitLogTarget(init);
      assert forall i :: 0 <= i < n ==> init[i] == fields[i];
      if IsLogTarget(fields[n]) {
        assert VisitFields(fields).logTarget == Some(fields[n].value);
      } else {
        assert VisitFields(fields).logTarget == VisitFields(init).logTarget;
        if VisitFields(init).logTarget.Some? {
          var i :| 0 <= i < n && IsLastLogTarget(init, i)
            && init[i].value == VisitFields(init).logTarget.value;
          assert IsLastLogTarget(fields, i);
        }
      }
    }
  }

  /** `FieldVisitor`: the state `visit_event` builds up while the event's
      fields are recorded into it. */
  class FieldVisitor {
    var messages: seq<string>
    var logTarget: Option<string>

    function State(): VisitorState
      reads this
    {
      VisitorState(messages, logTarget)
    }

    /** `FieldVisitor::default()`. */
    constructor ()
      ensures State() == EmptyVisitor
    {
      messages := [];
      logTarget := None;
    }

    /** `record_str`: only a field named `log.target` has an effect. */
    method RecordStr(name: string, value: string)
      modifies this
      ensures messages == old(messages)
      ensures logTarget == if name == LogTargetField then Some(value) else old(logTarget)
    {
      if name == LogTargetField {
        logTarget := Some(value);
      }
    }

    /** `record_debug`: pushes `"{name}={value:?}"` onto the messages. */
    method RecordDebug(name: string, debugText: string)
      modifies this
      ensures messages == old(messages) + [Message(Other(name, debugText))]
      ensures logTarget == old(logTarget)
    {
      messages := messages + [Message(Other(name, debugText))];
    }

    /** The dispatch of the `Visit` trait: string values go to `record_str`,
        every other kind through the default methods to `record_debug`. */
    method RecordField(f: Field)
      modifies this
      ensures State() == Record(old(State()), f)
    {
      match f
      case Str(name, value) => RecordStr(name, value);
      case Other(name, debugText) => RecordDebug(name, debugText);
    }

    /** `FieldVisitor::visit_event`: a default visitor records every field of
        the event in order. */
    static method VisitEvent(event: Tracing.Event) returns (v: FieldVisitor)
      ensures fresh(v)
      ensures v.State() == VisitFields(event.fields)
    {
      v := new FieldVisitor();
      var i := 0;
      while i < |event.fields|
        invariant 0 <= i <= |event.fields|
        invariant v.State() == VisitFields(event.fields[..i])
      {
        assert event.fields[..i + 1][..i] == event.fields[..i];
        v.RecordField(event.fields[i]);
        i := i + 1;
      }
      assert event.fields[..i] == event.fields;
    }
  }

  // ---------------------------------------------------------------------------
  // Formatting and conversion

  /** `format_event`: the visitor's messages joined by newlines. The subscriber
      context is a type parameter the result cannot depend on. */
  function FormatEvent<C>(event: Tracing.Event, context: C): string
  {
    Join(VisitFields(event.fields).messages, "\n")
  }

  /** The formatted event is empty exactly when every field is a string field. */
  lemma FormatEventEmpty<C>(event: Tracing.Event, context: C)
    ensures FormatEvent(event, context) == "" <==>
              forall i :: 0 <= i < |event.fields| ==> event.fields[i].Str?
  {
    var fields := event.fields;
    var messages := VisitFields(fields).messages;
    VisitMessages(fields);
    forall k | 0 <= k < |messages| ensures messages[k] != "" {
      assert |Message(OtherFields(fields)[k])| > 0;
    }
    JoinEmpty(messages, "\n");
    NoOtherFields(fields);
  }

  /** The formatted event does not depend on the subscriber context. */
  lemma FormatEventIgnoresContext<C>(event: Tracing.Event, c1: C, c2: C)
    ensures FormatEvent(event, c1) == FormatEvent(event, c2)
  {
  }

  /** Reading the formatted event back line by line recovers one line
      `"name=value"` per non-string field, in visiting order, when there is at
      least one such field and no field's entry contains a newline. */
  lemma FormatEventLines<C>(event: Tracing.Event, context: C)
    requires |OtherFields(event.fields)| > 0
    requires forall k :: 0 <= k < |OtherFields(event.fields)| ==>
               '\n' !in Message(OtherFields(event.fields)[k])
    ensures |SplitOn(FormatEvent(event, context), '\n')| == |OtherFields(event.fields)|
    ensures forall k :: 0 <= k < |OtherFields(event.fields)| ==>
              SplitOn(FormatEvent(event, context), '\n')[k] == Message(OtherFields(event.fields)[k])
  {
    VisitMessages(event.fields);
    SplitJoin(VisitFields(event.fields).messages, '\n');
  }

  /** `breadcrumb_from_event`: a "log" breadcrumb at the mapped level whose
      category is the event's target and whose message is the formatted event. */
  function BreadcrumbFromEvent<C>(event: Tracing.Event, context: C): (b: Breadcrumb)
    ensures b.ty == "log"
    ensures b.level == ConvertTracingLevel(event.metadata.level)
    ensures b.category == Some(event.metadata.target)
    ensures b.message == Some(FormatEvent(event, context))
  {
    Breadcrumb(
      "log",
      ConvertTracingLevel(event.metadata.level),
      Some(event.metadata.target),
      Some(FormatEvent(event, context)))
  }

  /** The breadcrumb never looks at string fields: two events with the same
      metadata and the same non-string fields give the same breadcrumb, so in
      particular a `log.target` field does not change its category. */
  lemma BreadcrumbIgnoresStringFields<C>(e1: Tracing.Event, e2: Tracing.Event, context: C)
    requires e1.metadata == e2.metadata
    requires OtherFields(e1.fields) == OtherFields(e2.fields)
    ensures BreadcrumbFromEvent(e1, context) == BreadcrumbFromEvent(e2, context)
    ensures BreadcrumbFromEvent(e1, context).category == Some(e1.metadata.target)
  {
    MessagesDependOnlyOnOtherFields(e1.fields, e2.fields);
  }

  /** `convert_tracing_event`: an issue event from the "sentry-tracing" logger
      at the mapped level, with a single exception whose type is the log
      target (or the event's target when there is none), whose value is the
      formatted event, and whose stack trace is the `captured` one only when
      `withStacktrace` is set. `captured` stands for `current_stacktrace()`. */
  function ConvertTracingEvent<C>(
    event: Tracing.Event, context: C, withStacktrace: bool, captured: Option<Stacktrace>)
    : (r: Sentry.Event)
    ensures r.logger == Some("sentry-tracing")
    ensures r.level == ConvertTracingLevel(event.metadata.level)
    ensures |r.exception| == 1
    ensures r.exception[0].value == Some(FormatEvent(event, context))
    ensures r.exception[0].stacktrace == if withStacktrace then captured else None
  {
    var visitor := VisitFields(event.fields);
    var exceptionType :=
      match visitor.logTarget
      case Some(t) => t
      case None => event.metadata.target;
    Sentry.Event(
      Some("sentry-tracing"),
      ConvertTracingLevel(event.metadata.level),
      [Exception(
        exceptionType,
        Some(FormatEvent(event, context)),
        if withStacktrace then captured else None)])
  }

  /** The exception type, read off the fields: the value of the last string
      field named `log.target`, or the event's target if there is none. */
  lemma ExceptionTypeFromFields<C>(
    event: Tracing.Event, context: C, withStacktrace: bool, captured: Option<Stacktrace>)
    ensures var ty := ConvertTracingEvent(event, context, withStacktrace, captured).exception[0].ty;
      && ((forall i :: 0 <= i < |event.fields| ==> !IsLogTarget(event.fields[i])) ==>
            ty == event.metadata.target)
      && ((exists i :: 0 <= i < |event.fields| && IsLogTarget(event.fields[i])) ==>
            exists i :: 0 <= i < |event.fields| && IsLastLogTarget(event.fields, i)
              && ty == event.fields[i].value)
  {
    VisitLogTarget(event.fields);
  }

  /** The breadcrumb and the issue event made from one event agree: same level,
      the breadcrumb's message is the exception's value, and the breadcrumb's
      category is the exception's type exactly when there is no `log.target`
      field or the last one names the event's own target. */
  lemma BreadcrumbAgreesWithEvent<C>(
    event: Tracing.Event, context: C, withStacktrace: bool, captured: Option<Stacktrace>)
    ensures var b := BreadcrumbFromEvent(event, context);
      var e := ConvertTracingEvent(event, context, withStacktrace, captured);
      && b.level == e.level
      && b.message == e.exception[0].value
      && (b.category == Some(e.exception[0].ty) <==>
            forall i :: 0 <= i < |event.fields| && IsLastLogTarget(event.fields, i) ==>
              event.fields[i].value == event.metadata.target)
  {
    ExceptionTypeFromFields(event, context, withStacktrace, captured);
  }
}
