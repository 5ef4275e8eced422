/** The activity log's entries and the classifier that turns one frame of the
    event stream into an entry. */
module Activity {
  import opened Wrappers
  import opened Text

  datatype Kind = Thinking | Processing | Completion | Error | Info

  /** One entry of the activity log. Ids (`evt_<time>_<random>`) are left out;
      the time of day is passed in. */
  datatype ActivityEvent = ActivityEvent(kind: Kind, text: string, time: string, agentName: string)

  /** A text-carrying key of a stream event: missing or `null`, a string, or a
      value of another type together with its truthiness and the text it is
      shown as. */
  datatype TextField = Missing | Str(s: string) | NonString(truthy: bool, rendered: string)

  /** A decoded stream event. `serialized` is `JSON.stringify` of the event,
      used when neither `message` nor `text` is truthy. `eventType` is the `type` key when
      it is a truthy string. */
  datatype RawEvent = RawEvent(
    eventType: Option<string>,
    message: TextField,
    text: TextField,
    agentSnake: Option<string>,
    agentCamel: Option<string>,
    serialized: string)

  /** A frame of the stream: JSON that failed to parse, or a decoded event. */
  datatype Frame = Unparseable | Parsed(event: RawEvent)

  predicate FieldTruthy(f: TextField) {
    match f
    case Missing => false
    case Str(s) => s != ""
    case NonString(t, _) => t
  }

  /** The value `msgText` ends up holding: a string, or a value of another
      type (which has no `toLowerCase`). */
  datatype Chosen = ChosenString(s: string) | ChosenOther(rendered: string)

  function ChosenOf(f: TextField): Chosen
    requires !f.Missing?
  {
    if f.Str? then ChosenString(f.s) else ChosenOther(f.rendered)
  }

  /** `message || text || JSON.stringify(data)`. */
  function EventText(ev: RawEvent): Chosen {
    if FieldTruthy(ev.message) then ChosenOf(ev.message)
    else if FieldTruthy(ev.text) then ChosenOf(ev.text)
    else ChosenString(ev.serialized)
  }

  /** `data?.type || 'info'`. */
  function TypeLabel(ev: RawEvent): string {
    Or(ev.eventType, "info")
  }

  /** The kind, checked in fixed priority: the type or a case-insensitive
      substring for the first three kinds, the type alone for `error`. */
  function KindOf(eventType: string, text: string): Kind {
    var t := Lower(text);
    if eventType == "thinking" || Contains(t, "thinking") then Thinking
    else if eventType == "processing" || Contains(t, "processing") then Processing
    else if eventType == "completion" || Contains(t, "complet") then Completion
    else if eventType == "error" then Error
    else Info
  }

  /** The `ws.onmessage` handler: the entry it appends, or `None` when it drops
      the frame. A chosen value that is not a string survives only when the
      label is `thinking`: that test comes first and short-circuits before
      `toLowerCase` is called, which would throw on it. */
  function ClassifyFrame(frame: Frame, time: string): (r: Option<ActivityEvent>)
    ensures frame.Unparseable? ==> r.None?
  {
    match frame
    case Unparseable => None
    case Parsed(ev) =>
      var msgType := TypeLabel(ev);
      var agent := Or(ev.agentSnake, Or(ev.agentCamel, ""));
      match EventText(ev)
      case ChosenString(text) => Some(ActivityEvent(KindOf(msgType, text), text, time, agent))
      case ChosenOther(rendered) =>
        if msgType == "thinking" then Some(ActivityEvent(Thinking, rendered, time, agent)) else None
  }

  /** An entry is an error only when its type says so: no text makes it one. */
  lemma ErrorOnlyByType(eventType: string, text: string)
    ensures KindOf(eventType, text) == Error ==> eventType == "error"
  {
  }

  /** A text mentioning "thinking" is a thinking entry whatever its type, even
      "error". */
  lemma ThinkingTextWins(eventType: string, text: string)
    requires Contains(Lower(text), "thinking")
    ensures KindOf(eventType, text) == Thinking
  {
  }

  /** An entry is informational exactly when no type and no substring matched. */
  lemma InfoIff(eventType: string, text: string)
    ensures KindOf(eventType, text) == Info <==>
      && eventType !in {"thinking", "processing", "completion", "error"}
      && !Contains(Lower(text), "thinking")
      && !Contains(Lower(text), "processing")
      && !Contains(Lower(text), "complet")
  {
  }

  /** The substring tests ignore ASCII case. */
  lemma KindIgnoresCase(eventType: string, text: string)
    ensures KindOf(eventType, Upper(text)) == KindOf(eventType, text)
    ensures KindOf(eventType, Lower(text)) == KindOf(eventType, text)
  {
    LowerOfUpper(text);
    LowerIdempotent(text);
  }

  /** A parsed frame is kept exactly when its chosen text is a string or its
      type is `thinking`. The entry carries the chosen text and the time; an
      event without a truthy `type` is labelled `info`; a non-string text can
      only make a thinking entry. */
  lemma ClassifyFrameSpec(ev: RawEvent, time: string)
    ensures var msgType := if Truthy(ev.eventType) then ev.eventType.value else "info";
      ClassifyFrame(Parsed(ev), time).Some? <==> EventText(ev).ChosenString? || msgType == "thinking"
    ensures var msgType := if Truthy(ev.eventType) then ev.eventType.value else "info";
      ClassifyFrame(Parsed(ev), time).Some? ==>
      var e := ClassifyFrame(Parsed(ev), time).value;
      && e.time == time
      && (EventText(ev).ChosenString? ==> e.text == EventText(ev).s && e.kind == KindOf(msgType, e.text))
      && (EventText(ev).ChosenOther? ==> e.text == EventText(ev).rendered && e.kind == Thinking)
    ensures FieldTruthy(ev.message) && ev.message.Str? ==> EventText(ev) == ChosenString(ev.message.s)
    ensures !FieldTruthy(ev.message) && FieldTruthy(ev.text) && ev.text.Str? ==> EventText(ev) == ChosenString(ev.text.s)
    ensures !FieldTruthy(ev.message) && !FieldTruthy(ev.text) ==> EventText(ev) == ChosenString(ev.serialized)
  {
  }

  /** The agent name is `agent_name`, else `agentName`, else empty. */
  lemma AgentNamePrecedence(ev: RawEvent, time: string)
    requires ClassifyFrame(Parsed(ev), time).Some?
    ensures var e := ClassifyFrame(Parsed(ev), time).value;
      && (Truthy(ev.agentSnake) ==> e.agentName == ev.agentSnake.value)
      && (!Truthy(ev.agentSnake) && Truthy(ev.agentCamel) ==> e.agentName == ev.agentCamel.value)
      && (!Truthy(ev.agentSnake) && !Truthy(ev.agentCamel) ==> e.agentName == "")
  {
  }
}
