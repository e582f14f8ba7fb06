/** What one event adds to the item the accumulator keeps at its output index, field by
    field, whatever has been collected before. */
module Collected {
  import opened Text
  import opened Protocol
  import opened Accumulator

  /** The item kept at an index, empty when there is none yet. */
  function Kept(a: Acc, index: int): OutputItem {
    if index in a.items then a.items[index] else OutputItem(Untyped, "", "", "", [], "", [], "", "", "", "")
  }

  /** Nothing changes but the item at the index, which is there. */
  ghost predicate OnlyItem(a: Acc, index: int, after: Acc) {
    && after == a.(items := after.items) && index in after.items
    && forall k | k != index :: (k in after.items <==> k in a.items) && (k in a.items ==> after.items[k] == a.items[k])
  }

  /** A text that is given replaces the one kept. */
  predicate Replaces(given: string, kept: string, after: string) {
    if given == "" then after == kept else after == given
  }

  function KindAfter(kept: ItemKind, kind: ItemKind): ItemKind {
    if kept.Untyped? then kind else kept
  }

  // ---- Items as a whole ----------------------------------------------------------------------

  lemma AddedCollected(a: Acc, e: StreamEvent)
    requires !a.terminal && e.kind.ItemAdded?
    ensures var after := Step(a, e).state;
            if e.item.None? then after == a
            else OnlyItem(a, e.outputIndex, after) && after.items[e.outputIndex] == e.item.value
  {
  }

  /** A done item replaces field by field what it carries, and keeps the rest. */
  lemma DoneCollected(a: Acc, e: StreamEvent)
    requires !a.terminal && e.kind.ItemDone? && e.item.Some?
    ensures var kept, done, after := Kept(a, e.outputIndex), e.item.value, Step(a, e).state;
            && OnlyItem(a, e.outputIndex, after)
            && var r := after.items[e.outputIndex];
               && r.kind == (if done.kind.Untyped? then kept.kind else done.kind)
               && Replaces(done.id, kept.id, r.id) && Replaces(done.role, kept.role, r.role)
               && Replaces(done.status, kept.status, r.status)
               && Replaces(done.encryptedContent, kept.encryptedContent, r.encryptedContent)
               && Replaces(done.callId, kept.callId, r.callId) && Replaces(done.name, kept.name, r.name)
               && Replaces(done.arguments, kept.arguments, r.arguments)
               && Replaces(done.input, kept.input, r.input)
               && r.content == (if done.content == [] then kept.content else done.content)
               && r.summary == (if done.summary == [] then kept.summary else done.summary)
  {
  }

  // ---- Calls ---------------------------------------------------------------------------------

  /** A piece of arguments or input is added, a whole replaces them, and a call's identifier
      and name are taken from the event if it has them. */
  ghost predicate CallGrows(kept: OutputItem, e: StreamEvent, r: OutputItem) {
    && Replaces(e.callId, kept.callId, r.callId) && Replaces(e.name, kept.name, r.name)
    && (match e.kind
        case ArgumentsDelta => r.arguments == kept.arguments + e.delta
        case ArgumentsDone => Replaces(e.arguments, kept.arguments, r.arguments)
        case _ => r.arguments == kept.arguments)
    && (match e.kind
        case CustomInputDelta => r.input == kept.input + e.delta
        case CustomInputDone => Replaces(e.input, kept.input, r.input)
        case _ => r.input == kept.input)
    && r.kind == KindAfter(kept.kind, if e.kind.ArgumentsDelta? || e.kind.ArgumentsDone?
                                      then FunctionCall else CustomToolCall)
    && r == kept.(kind := r.kind, callId := r.callId, name := r.name, arguments := r.arguments, input := r.input)
  }

  lemma CallCollected(a: Acc, e: StreamEvent)
    requires !a.terminal
    requires e.kind.ArgumentsDelta? || e.kind.ArgumentsDone? || e.kind.CustomInputDelta? || e.kind.CustomInputDone?
    ensures var after := Step(a, e).state;
            OnlyItem(a, e.outputIndex, after) && CallGrows(Kept(a, e.outputIndex), e, after.items[e.outputIndex])
  {
  }

  // ---- Texts and thoughts ----------------------------------------------------------------------

  /** The part written to is typed if it was not, empty parts fill the places before it, and
      every other part stays. */
  ghost predicate ContentGrows(kept: seq<ContentPart>, at: nat, text: string, whole: bool, r: seq<ContentPart>) {
    && |r| == Max(|kept|, at + 1)
    && (forall j | 0 <= j < |r| && j != at ::
          r[j] == if j < |kept| then kept[j] else ContentPart(PartKind.OutputText, ""))
    && var was := if at < |kept| then kept[at] else ContentPart(PartKind.OutputText, "");
       && r[at].kind == (if was.kind.NoPartKind? then PartKind.OutputText else was.kind)
       && (if whole then Replaces(text, was.text, r[at].text) else r[at].text == was.text + text)
  }

  ghost predicate SummaryGrows(kept: seq<SummaryPart>, at: nat, text: string, whole: bool, r: seq<SummaryPart>) {
    && |r| == Max(|kept|, at + 1)
    && (forall j | 0 <= j < |r| && j != at ::
          r[j] == if j < |kept| then kept[j] else SummaryPart(SummaryKind.SummaryText, ""))
    && var was := if at < |kept| then kept[at] else SummaryPart(SummaryKind.SummaryText, "");
       && r[at].kind == (if was.kind.NoSummaryKind? then SummaryKind.SummaryText else was.kind)
       && (if whole then Replaces(text, was.text, r[at].text) else r[at].text == was.text + text)
  }

  lemma {:induction false} PaddedContent(content: seq<ContentPart>, index: nat)
    ensures var r := PadContent(content, index);
            && |r| == Max(|content|, index + 1)
            && forall j | 0 <= j < |r| ::
                 r[j] == if j < |content| then content[j] else ContentPart(PartKind.OutputText, "")
    decreases index - |content|
  {
    if |content| <= index {
      PaddedContent(content + [ContentPart(PartKind.OutputText, "")], index);
    }
  }

  lemma {:induction false} PaddedSummary(summary: seq<SummaryPart>, index: nat)
    ensures var r := PadSummary(summary, index);
            && |r| == Max(|summary|, index + 1)
            && forall j | 0 <= j < |r| ::
                 r[j] == if j < |summary| then summary[j] else SummaryPart(SummaryKind.SummaryText, "")
    decreases index - |summary|
  {
    if |summary| <= index {
      PaddedSummary(summary + [SummaryPart(SummaryKind.SummaryText, "")], index);
    }
  }

  lemma TextGrows(item: OutputItem, at: nat, text: string, whole: bool)
    ensures var r := TextItem(item, at, text, whole);
            r == item.(content := r.content) && ContentGrows(item.content, at, text, whole, r.content)
  {
    PaddedContent(item.content, at);
  }

  lemma ThoughtGrows(item: OutputItem, at: nat, text: string, whole: bool)
    ensures var r := SummaryItem(item, at, text, whole);
            r == item.(summary := r.summary) && SummaryGrows(item.summary, at, text, whole, r.summary)
  {
    PaddedSummary(item.summary, at);
  }

  /** A text delta is added to its part of its item, a done text replaces it. */
  lemma TextCollected(a: Acc, e: StreamEvent)
    requires !a.terminal && (e.kind.TextDeltaKind? || e.kind.TextDoneKind?) && e.contentIndex >= 0
    ensures var kept, after := Kept(a, e.outputIndex), Step(a, e).state;
            && OnlyItem(a, e.outputIndex, after)
            && var r := after.items[e.outputIndex];
               && r == kept.(kind := KindAfter(kept.kind, Message), content := r.content)
               && ContentGrows(kept.content, e.contentIndex, if e.kind.TextDeltaKind? then e.delta else e.text,
                               e.kind.TextDoneKind?, r.content)
  {
    var kept := Typed(Find(a.items, e.outputIndex), Message);
    TextGrows(kept, e.contentIndex, e.delta, false);
    TextGrows(kept, e.contentIndex, e.text, true);
  }

  /** The same for the two kinds of reasoning texts. */
  lemma ThoughtCollected(a: Acc, e: StreamEvent)
    requires !a.terminal && e.summaryIndex >= 0
    requires e.kind.SummaryDelta? || e.kind.ReasoningTextDelta? || e.kind.SummaryDone? || e.kind.ReasoningTextDone?
    ensures var kept, after := Kept(a, e.outputIndex), Step(a, e).state;
            var whole := e.kind.SummaryDone? || e.kind.ReasoningTextDone?;
            && OnlyItem(a, e.outputIndex, after)
            && var r := after.items[e.outputIndex];
               && r == kept.(kind := KindAfter(kept.kind, Reasoning), summary := r.summary)
               && SummaryGrows(kept.summary, e.summaryIndex, if whole then e.text else e.delta, whole, r.summary)
  {
    var kept := Typed(Find(a.items, e.outputIndex), Reasoning);
    ThoughtGrows(kept, e.summaryIndex, e.delta, false);
    ThoughtGrows(kept, e.summaryIndex, e.text, true);
  }
}
