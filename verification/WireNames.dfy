/** The names of event kinds on the wire, and what decoding a frame makes of them. */
module WireNames {
  import opened Text
  import opened Protocol
  import opened Handler

  function WireName(kind: EventKind): string {
    match kind
    case ErrorKind => "error"
    case FailedKind => "response.failed"
    case CreatedKind => "response.created"
    case ItemAdded => "response.output_item.added"
    case ItemDone => "response.output_item.done"
    case TextDeltaKind => "response.output_text.delta"
    case TextDoneKind => "response.output_text.done"
    case ArgumentsDelta => "response.function_call_arguments.delta"
    case ArgumentsDone => "response.function_call_arguments.done"
    case CustomInputDelta => "response.custom_tool_call_input.delta"
    case CustomInputDone => "response.custom_tool_call_input.done"
    case SummaryDelta => "response.reasoning_summary_text.delta"
    case ReasoningTextDelta => "response.reasoning_text.delta"
    case SummaryDone => "response.reasoning_summary_text.done"
    case ReasoningTextDone => "response.reasoning_text.done"
    case CompletedKind => "response.completed"
    case DoneKind => "response.done"
    case IncompleteKind => "response.incomplete"
    case OtherKind(name) => name
  }

  /** The length of a known name and its eighteenth letter, if it has one: enough to tell it. */
  function Mark(kind: EventKind): (int, char) {
    match kind
    case ErrorKind => (5, ' ')
    case FailedKind => (15, ' ')
    case CreatedKind => (16, ' ')
    case ItemAdded => (26, 't')
    case ItemDone => (25, 't')
    case TextDeltaKind => (26, 'e')
    case TextDoneKind => (25, 'e')
    case ArgumentsDelta => (38, '_')
    case ArgumentsDone => (37, '_')
    case CustomInputDelta => (37, 'o')
    case CustomInputDone => (36, 'o')
    case SummaryDelta => (37, 'g')
    case ReasoningTextDelta => (29, 'g')
    case SummaryDone => (36, 'g')
    case ReasoningTextDone => (28, 'g')
    case CompletedKind => (18, 'd')
    case DoneKind => (13, ' ')
    case IncompleteKind => (19, 't')
    case OtherKind(_) => (0, ' ')
  }

  function MarkOf(name: string): (int, char) {
    (|name|, if |name| > 17 then name[17] else ' ')
  }

  lemma NameMarked(kind: EventKind)
    requires !kind.OtherKind?
    ensures MarkOf(WireName(kind)) == Mark(kind)
  {
  }

  lemma MarksTell(k: EventKind, l: EventKind)
    requires !k.OtherKind? && !l.OtherKind? && Mark(k) == Mark(l)
    ensures k == l
  {
  }

  lemma EndingHasName(name: string)
    ensures WireName(EndingNamed(name)) == name
  {
  }

  lemma ItemHasName(name: string)
    ensures WireName(ItemNamed(name)) == name
  {
  }

  lemma FragmentHasName(name: string)
    ensures WireName(FragmentNamed(name)) == name
  {
  }

  lemma KindHasName(name: string)
    ensures WireName(KindNamed(name)) == name
  {
    hide WireName, EndingNamed, ItemNamed, FragmentNamed;
    EndingHasName(name);
    ItemHasName(name);
    FragmentHasName(name);
  }

  lemma NameHasKind(kind: EventKind)
    requires !kind.OtherKind?
    ensures !KindNamed(WireName(kind)).OtherKind?
  {
  }

  /** Names and kinds correspond: every name is that of its kind, every kind with a name of
      its own is found by it, and a name that no such kind has stands for itself. */
  lemma NamesAndKinds(name: string, kind: EventKind)
    ensures WireName(KindNamed(name)) == name
    ensures !kind.OtherKind? ==> KindNamed(WireName(kind)) == kind
    ensures KindNamed(name).OtherKind? ==> kind.OtherKind? || WireName(kind) != name
  {
    KindHasName(name);
    if !kind.OtherKind? {
      KindHasName(WireName(kind));
      NameHasKind(kind);
      NameMarked(kind);
      NameMarked(KindNamed(WireName(kind)));
      MarksTell(kind, KindNamed(WireName(kind)));
    }
  }

  /** What a frame decodes to: the end, the event its payload says, or the payload under the
      name of the frame when it has no type of its own. */
  lemma FrameDecoded(wire: Wire, event: string, data: string)
    ensures var payload, d := wire.unmarshal(data), DecodeResponsesEvent(wire, event, data);
            && (d.DoneSentinel? <==> TrimSpace(data) == "[DONE]")
            && (d.Event? <==> TrimSpace(data) != "[DONE]" && payload.Some?
                              && (payload.value.kind != OtherKind("") || (event != "" && event != "message")))
            && (d.Event? ==> d.event == payload.value.(kind := d.event.kind)
                             && WireName(d.event.kind) == NonEmpty(WireName(payload.value.kind), event))
  {
    KindHasName(event);
    NameMarkedOrOther(wire.unmarshal(data));
  }

  lemma NameMarkedOrOther(payload: Option<StreamEvent>)
    ensures payload.Some? && WireName(payload.value.kind) == "" ==> payload.value.kind == OtherKind("")
  {
    if payload.Some? && !payload.value.kind.OtherKind? {
      NameMarked(payload.value.kind);
    }
  }
}
