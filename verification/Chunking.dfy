/** How upstream cuts text into deltas does not matter. */
module Chunking {
  import opened Text
  import opened Protocol
  import opened Client
  import opened Accumulation
  import C = Converter
  import A = Accumulator

  predicate IsDelta(kind: EventKind) {
    kind.TextDeltaKind? || kind.ArgumentsDelta? || kind.CustomInputDelta? || IsReasoningDelta(kind)
  }

  // ---- The converter and its client ----------------------------------------

  /** Two runs look the same to a client and leave the same converter. */
  ghost predicate SameEffect(c: Client, r: C.Emit, r': C.Emit) {
    r.state == r'.state && ConsumeAll(c, r.events) == ConsumeAll(c, r'.events)
  }

  function Two(codec: Codec, s: C.Conv, e: StreamEvent, f: StreamEvent): C.Emit {
    var first := C.Step(codec, s, e);
    var second := C.Step(codec, first.state, f);
    C.Emit(second.state, first.events + second.events)
  }

  function One(codec: Codec, s: C.Conv, e: StreamEvent): C.Emit {
    C.Emit(C.Step(codec, s, e).state, C.Step(codec, s, e).events)
  }

  /** Two deltas of one kind add up to one. */
  function Add(d: Delta, d': Delta): Option<Delta> {
    match (d, d')
    case (TextDelta(a), TextDelta(b)) => Some(TextDelta(a + b))
    case (ThinkingDelta(a), ThinkingDelta(b)) => Some(ThinkingDelta(a + b))
    case (InputJsonDelta(a), InputJsonDelta(b)) => Some(InputJsonDelta(a + b))
    case _ => None
  }

  lemma DeltasAdd(c: Client, index: int, d: Delta, d': Delta)
    requires Add(d, d').Some?
    ensures Consume(Consume(c, BlockDelta(index, d)), BlockDelta(index, d')) ==
            Consume(c, BlockDelta(index, Add(d, d').value))
  {
    if c.Streaming? && c.open.Some? {
      match (c.open.value, d, d') {
        case (PartialText(x), TextDelta(a), TextDelta(b)) => assert x + a + b == x + (a + b);
        case (PartialThinking(x, None), ThinkingDelta(a), ThinkingDelta(b)) => assert x + a + b == x + (a + b);
        case (PartialTool(_, _, x), InputJsonDelta(a), InputJsonDelta(b)) => assert x + a + b == x + (a + b);
        case _ =>
      }
    }
  }

  lemma EventsAdd(c: Client, front: seq<ClientEvent>, index: int, d: Delta, d': Delta)
    requires Add(d, d').Some?
    ensures ConsumeAll(c, front + [BlockDelta(index, d)] + [BlockDelta(index, d')]) ==
            ConsumeAll(c, front + [BlockDelta(index, Add(d, d').value)])
  {
    ConsumeAppend(c, front, BlockDelta(index, d));
    ConsumeAppend(c, front + [BlockDelta(index, d)], BlockDelta(index, d'));
    ConsumeAppend(c, front, BlockDelta(index, Add(d, d').value));
    DeltasAdd(ConsumeAll(c, front), index, d, d');
  }

  lemma FragmentsAdd(c: Client, s: C.Conv, kind: C.BlockKind, outputIndex: int, start: ContentBlock, d: Delta,
                     d': Delta)
    requires Add(d, d').Some?
    ensures var first := C.FragmentStep(s, kind, outputIndex, start, d);
            var second := C.FragmentStep(first.state, kind, outputIndex, start, d');
            var whole := C.FragmentStep(s, kind, outputIndex, start, Add(d, d').value);
            SameEffect(c, C.Emit(second.state, first.events + second.events), C.Emit(whole.state, whole.events))
  {
    var at := if C.Continues(s, kind, outputIndex) then C.EnsureStart(s) else C.Open(s, C.NewBlock(outputIndex,
        kind), start);
    var first := C.FragmentStep(s, kind, outputIndex, start, d);
    FragmentLeaves(s, kind, outputIndex, start, d, at);
    FragmentLeaves(s, kind, outputIndex, start, Add(d, d').value, at);
    FragmentAgain(first.state, kind, outputIndex, start, d');
    EventsAdd(c, at.events, at.state.active.value.index, d, d');
  }

  /** A fragment leaves its block open and used. */
  lemma FragmentLeaves(s: C.Conv, kind: C.BlockKind, outputIndex: int, start: ContentBlock, d: Delta, at: C.Emit)
    requires at == if C.Continues(s, kind, outputIndex) then C.EnsureStart(s)
                   else C.Open(s, C.NewBlock(outputIndex, kind), start)
    ensures at.state.active.Some?
    ensures var o := C.FragmentStep(s, kind, outputIndex, start, d);
            && o.events == at.events + [BlockDelta(at.state.active.value.index, d)]
            && o.state == at.state.(active := Some(at.state.active.value.(hadDelta := true)), sawContent := true)
            && InUse(o.state, kind, outputIndex)
  {
  }

  predicate InUse(s: C.Conv, kind: C.BlockKind, outputIndex: int) {
    C.Continues(s, kind, outputIndex) && s.messageStarted && s.sawContent && s.active.value.hadDelta
  }

  lemma FragmentAgain(s: C.Conv, kind: C.BlockKind, outputIndex: int, start: ContentBlock, d: Delta)
    requires InUse(s, kind, outputIndex)
    ensures C.FragmentStep(s, kind, outputIndex, start, d) == C.Outcome(s, [BlockDelta(s.active.value.index, d)], None)
  {
    assert [] + [BlockDelta(s.active.value.index, d)] == [BlockDelta(s.active.value.index, d)];
  }

  lemma ToolDeltasAdd(c: Client, s: C.Conv, e: StreamEvent, f: StreamEvent, whole: StreamEvent, custom: bool)
    requires !s.terminal && e.outputIndex == f.outputIndex == whole.outputIndex
    requires e.delta != "" && f.delta != "" && whole.delta == e.delta + f.delta
    ensures var first := C.ToolDeltaStep(s, e, custom);
            var second := if first.state.terminal then C.Quiet(first.state) else C.ToolDeltaStep(first.state, f,
                custom);
            var both := C.ToolDeltaStep(s, whole, custom);
            SameEffect(c, C.Emit(second.state, first.events + second.events), C.Emit(both.state, both.events))
  {
    if C.MatchesTool(s, e.outputIndex, custom) {
      var b := s.active.value;
      assert b.buffer + e.delta + f.delta == b.buffer + (e.delta + f.delta);
      if !custom {
        EventsAdd(c, [], b.index, InputJsonDelta(e.delta), InputJsonDelta(f.delta));
        assert [] + [BlockDelta(b.index, InputJsonDelta(e.delta))] == [BlockDelta(b.index, InputJsonDelta(e.delta))];
        assert [] + [BlockDelta(b.index, InputJsonDelta(whole.delta))] ==
            [BlockDelta(b.index, InputJsonDelta(whole.delta))];
      }
    }
  }

  /** One delta cut in two: the events of both halves. */
  predicate Cut(e: StreamEvent, f: StreamEvent, whole: StreamEvent) {
    && IsDelta(whole.kind)
    && whole.delta == e.delta + f.delta
    && e == whole.(delta := e.delta) && f == whole.(delta := f.delta)
  }

  lemma CaptureTwice(s: C.Conv, response: Option<Response>)
    ensures C.CaptureMetadata(C.CaptureMetadata(s, response), response) == C.CaptureMetadata(s, response)
  {
  }

  lemma EmptyDelta(codec: Codec, s: C.Conv, e: StreamEvent)
    requires IsDelta(e.kind) && e.delta == ""
    ensures C.Step(codec, s, e) == C.Quiet(if s.terminal then s else C.CaptureMetadata(s, e.response))
  {
  }

  lemma CutStep(codec: Codec, c: Client, s: C.Conv, e: StreamEvent, f: StreamEvent, whole: StreamEvent)
    requires Cut(e, f, whole)
    ensures SameEffect(c, Two(codec, s, e, f), One(codec, s, whole))
  {
    var first, both := C.Step(codec, s, e), C.Step(codec, s, whole);
    if s.terminal {
    } else if e.delta == "" {
      assert "" + f.delta == f.delta;
      EmptyDelta(codec, s, e);
      CaptureTwice(s, whole.response);
      assert [] + both.events == both.events;
    } else if f.delta == "" {
      assert e.delta + "" == e.delta;
      EmptyDelta(codec, first.state, f);
      KeepsMetadata(codec, s, e);
      assert first.events + [] == first.events;
    } else {
      KeepsMetadata(codec, s, e);
      CutNonEmpty(codec, c, s, e, f, whole);
    }
  }

  /** Seeing the same metadata again changes nothing. */
  lemma KeepsMetadata(codec: Codec, s: C.Conv, e: StreamEvent)
    requires IsDelta(e.kind) && !s.terminal
    ensures var t := C.Step(codec, s, e).state; C.CaptureMetadata(t, e.response) == t
  {
    var captured := C.CaptureMetadata(s, e.response);
    if e.kind.ArgumentsDelta? || e.kind.CustomInputDelta? {
      ToolKeepsNames(captured, e, e.kind.CustomInputDelta?);
    } else if e.delta != "" {
      FragmentKeepsNames(captured, KindOf(e), e.outputIndex, StartOf(e), DeltaOf(e));
      DeltaIsFragment(codec, s, e);
    }
    NamesSettled(s, C.Step(codec, s, e).state, e.response);
  }

  /** Two converters with the same response id and model. */
  predicate SameNames(s: C.Conv, t: C.Conv) {
    s.responseId == t.responseId && s.model == t.model
  }

  lemma NamesSettled(s: C.Conv, t: C.Conv, response: Option<Response>)
    ensures SameNames(C.CaptureMetadata(s, response), t) ==> C.CaptureMetadata(t, response) == t
  {
  }

  lemma FragmentKeepsNames(s: C.Conv, kind: C.BlockKind, outputIndex: int, start: ContentBlock, d: Delta)
    ensures SameNames(s, C.FragmentStep(s, kind, outputIndex, start, d).state)
  {
  }

  lemma ToolKeepsNames(s: C.Conv, e: StreamEvent, custom: bool)
    ensures SameNames(s, C.ToolDeltaStep(s, e, custom).state)
  {
  }

  lemma CutNonEmpty(codec: Codec, c: Client, s: C.Conv, e: StreamEvent, f: StreamEvent, whole: StreamEvent)
    requires Cut(e, f, whole) && !s.terminal && e.delta != "" && f.delta != ""
    requires C.CaptureMetadata(C.Step(codec, s, e).state, e.response) == C.Step(codec, s, e).state
    ensures SameEffect(c, Two(codec, s, e, f), One(codec, s, whole))
  {
    var t := C.CaptureMetadata(s, e.response);
    if whole.kind.ArgumentsDelta? {
      ToolDeltasAdd(c, t, e, f, whole, false);
    } else if whole.kind.CustomInputDelta? {
      ToolDeltasAdd(c, t, e, f, whole, true);
    } else {
      CutFragment(codec, c, s, e, f, whole);
    }
  }

  lemma CutFragment(codec: Codec, c: Client, s: C.Conv, e: StreamEvent, f: StreamEvent, whole: StreamEvent)
    requires Cut(e, f, whole) && !s.terminal && e.delta != "" && f.delta != ""
    requires whole.kind.TextDeltaKind? || IsReasoningDelta(whole.kind)
    requires C.CaptureMetadata(C.Step(codec, s, e).state, e.response) == C.Step(codec, s, e).state
    ensures SameEffect(c, Two(codec, s, e, f), One(codec, s, whole))
  {
    var first := C.Step(codec, s, e);
    var second, both := C.Step(codec, first.state, f), C.Step(codec, s, whole);
    DeltaIsFragment(codec, s, e);
    DeltaIsFragment(codec, first.state, f);
    DeltaIsFragment(codec, s, whole);
    FragmentsCut(c, C.CaptureMetadata(s, e.response), e, f, whole, first, second, both);
    TwoSteps(codec, s, e, f, first, second, both, whole);
  }

  lemma FragmentsCut(c: Client, t: C.Conv, e: StreamEvent, f: StreamEvent, whole: StreamEvent,
                     first: C.Outcome, second: C.Outcome, both: C.Outcome)
    requires Cut(e, f, whole) && (whole.kind.TextDeltaKind? || IsReasoningDelta(whole.kind))
    requires first == C.FragmentStep(t, KindOf(e), e.outputIndex, StartOf(e), DeltaOf(e))
    requires second == C.FragmentStep(first.state, KindOf(f), f.outputIndex, StartOf(f), DeltaOf(f))
    requires both == C.FragmentStep(t, KindOf(whole), whole.outputIndex, StartOf(whole), DeltaOf(whole))
    ensures SameEffect(c, C.Emit(second.state, first.events + second.events), C.Emit(both.state, both.events))
  {
    assert Add(DeltaOf(e), DeltaOf(f)) == Some(DeltaOf(whole));
    FragmentsAdd(c, t, KindOf(whole), whole.outputIndex, StartOf(whole), DeltaOf(e), DeltaOf(f));
  }

  lemma TwoSteps(codec: Codec, s: C.Conv, e: StreamEvent, f: StreamEvent, first: C.Outcome, second: C.Outcome,
                 both: C.Outcome, whole: StreamEvent)
    requires first == C.Step(codec, s, e) && second == C.Step(codec, first.state, f) && both == C.Step(codec, s, whole)
    ensures Two(codec, s, e, f) == C.Emit(second.state, first.events + second.events)
    ensures One(codec, s, whole) == C.Emit(both.state, both.events)
  {
  }

  predicate IsFragment(e: StreamEvent) {
    (e.kind.TextDeltaKind? || IsReasoningDelta(e.kind)) && e.delta != ""
  }

  function KindOf(e: StreamEvent): C.BlockKind {
    if e.kind.TextDeltaKind? then C.TextKind else C.ThinkingKind
  }

  function StartOf(e: StreamEvent): ContentBlock {
    if e.kind.TextDeltaKind? then TextBlock("") else ThinkingBlock("", "")
  }

  function DeltaOf(e: StreamEvent): Delta {
    if e.kind.TextDeltaKind? then TextDelta(e.delta) else ThinkingDelta(e.delta)
  }

  lemma DeltaIsFragment(codec: Codec, s: C.Conv, e: StreamEvent)
    requires IsFragment(e) && !s.terminal
    ensures C.Step(codec, s, e) ==
            C.FragmentStep(C.CaptureMetadata(s, e.response), KindOf(e), e.outputIndex, StartOf(e), DeltaOf(e))
    ensures !C.Step(codec, s, e).state.terminal
  {
  }

  // ---- The accumulator -----------------------------------------------------

  lemma AccumulatorCutStep(a: A.Acc, e: StreamEvent, f: StreamEvent, whole: StreamEvent)
    requires Cut(e, f, whole)
    ensures A.Step(A.Step(a, e).state, f).state == A.Step(a, whole).state
  {
    if !a.terminal && !A.Panics(whole) {
      var current := A.Find(a.items, whole.outputIndex);
      ItemCut(current, e, f, whole);
      var once := a.items[whole.outputIndex := A.ItemStep(current, e).value];
      assert A.Find(once, whole.outputIndex) == A.ItemStep(current, e);
    }
  }

  lemma ItemCut(current: Option<OutputItem>, e: StreamEvent, f: StreamEvent, whole: StreamEvent)
    requires Cut(e, f, whole) && !A.Panics(whole)
    ensures A.ItemStep(current, e).Some?
    ensures A.ItemStep(A.ItemStep(current, e), f) == A.ItemStep(current, whole)
  {
    match whole.kind {
      case TextDeltaKind => TextCut(A.Typed(current, Message), whole.contentIndex, e.delta, f.delta);
      case SummaryDelta => SummaryCut(A.Typed(current, Reasoning), whole.summaryIndex, e.delta, f.delta);
      case ReasoningTextDelta => SummaryCut(A.Typed(current, Reasoning), whole.summaryIndex, e.delta, f.delta);
      case ArgumentsDelta =>
        var item := A.Typed(current, FunctionCall);
        assert item.arguments + e.delta + f.delta == item.arguments + (e.delta + f.delta);
      case CustomInputDelta =>
        var item := A.Typed(current, CustomToolCall);
        assert item.input + e.delta + f.delta == item.input + (e.delta + f.delta);
    }
  }

  lemma TextCut(item: OutputItem, index: nat, s: string, t: string)
    ensures A.TextItem(A.TextItem(item, index, s, false), index, t, false) == A.TextItem(item, index, s + t, false)
  {
    var content := A.ContentWith(item.content, index);
    var before := content[index].text;
    assert before + s + t == before + (s + t);
    var once := A.TextItem(item, index, s, false).content;
    assert A.ContentWith(once, index) == once;
  }

  lemma SummaryCut(item: OutputItem, index: nat, s: string, t: string)
    ensures A.SummaryItem(A.SummaryItem(item, index, s, false), index, t, false) ==
            A.SummaryItem(item, index, s + t, false)
  {
    var summary := A.SummaryWith(item.summary, index);
    var before := summary[index].text;
    assert before + s + t == before + (s + t);
    var once := A.SummaryItem(item, index, s, false).summary;
    assert A.SummaryWith(once, index) == once;
  }

  // ---- Every run -----------------------------------------------------------

  lemma {:induction false} ConverterRunConcat(codec: Codec, s: C.Conv, es: seq<StreamEvent>, more: seq<StreamEvent>)
    ensures var front := C.Run(codec, s, es);
            var back := C.Run(codec, front.state, more);
            C.Run(codec, s, es + more) == C.Emit(back.state, front.events + back.events)
  {
    if more == [] {
      assert es + more == es;
    } else {
      var n := |more| - 1;
      var front := C.Run(codec, s, es);
      ConverterRunConcat(codec, s, es, more[..n]);
      assert (es + more)[..|es + more| - 1] == es + more[..n];
      Regroup(front.events, C.Run(codec, front.state, more[..n]).events,
              C.Step(codec, C.Run(codec, front.state, more[..n]).state, more[n]).events);
    }
  }

  lemma ConverterRunOne(codec: Codec, s: C.Conv, e: StreamEvent)
    ensures C.Run(codec, s, [e]) == One(codec, s, e)
  {
    assert [e][..0] == [];
    assert [] + C.Step(codec, s, e).events == C.Step(codec, s, e).events;
  }

  lemma ConverterRunTwo(codec: Codec, s: C.Conv, e: StreamEvent, f: StreamEvent)
    ensures C.Run(codec, s, [e, f]) == Two(codec, s, e, f)
  {
    assert [e, f] == [e] + [f];
    ConverterRunConcat(codec, s, [e], [f]);
    ConverterRunOne(codec, s, e);
    ConverterRunOne(codec, C.Step(codec, s, e).state, f);
  }

  /** Cutting one delta in two, anywhere in any run, changes neither the final
      converter, nor the client's message, nor the accumulated response. */
  lemma ChunkingIndependence(codec: Codec, model: string, before: seq<StreamEvent>, e: StreamEvent, f: StreamEvent,
                             whole: StreamEvent, after: seq<StreamEvent>)
    requires Cut(e, f, whole)
    ensures var cut := C.Run(codec, C.Initial(model), before + [e, f] + after);
            var uncut := C.Run(codec, C.Initial(model), before + [whole] + after);
            SameEffect(Waiting, cut, uncut)
    ensures A.Run(A.EMPTY_ACC, before + [e, f] + after) == A.Run(A.EMPTY_ACC, before + [whole] + after)
  {
    var start := C.Run(codec, C.Initial(model), before);
    var c := ConsumeAll(Waiting, start.events);
    ConverterRunTwo(codec, start.state, e, f);
    ConverterRunOne(codec, start.state, whole);
    CutStep(codec, c, start.state, e, f, whole);
    SameEffectThen(codec, C.Initial(model), before, [e, f], [whole], after);
    var a := A.Run(A.EMPTY_ACC, before);
    AccumulatorRunTwo(a, e, f);
    AccumulatorRunOne(a, whole);
    AccumulatorCutStep(a, e, f, whole);
    RunConcat(A.EMPTY_ACC, before, [e, f]);
    RunConcat(A.EMPTY_ACC, before, [whole]);
    RunConcat(A.EMPTY_ACC, before + [e, f], after);
    RunConcat(A.EMPTY_ACC, before + [whole], after);
  }

  lemma AccumulatorRunOne(a: A.Acc, e: StreamEvent)
    ensures A.Run(a, [e]) == A.Step(a, e).state
  {
    assert [e][..0] == [];
  }

  lemma AccumulatorRunTwo(a: A.Acc, e: StreamEvent, f: StreamEvent)
    ensures A.Run(a, [e, f]) == A.Step(A.Step(a, e).state, f).state
  {
    assert [e, f][..1] == [e];
    AccumulatorRunOne(a, e);
  }

  lemma SameEffectThen(codec: Codec, s: C.Conv, before: seq<StreamEvent>, es: seq<StreamEvent>, es': seq<StreamEvent>,
                       after: seq<StreamEvent>)
    requires var start := C.Run(codec, s, before);
             SameEffect(ConsumeAll(Waiting, start.events), C.Run(codec, start.state, es), C.Run(codec, start.state,
                 es'))
    ensures SameEffect(Waiting, C.Run(codec, s, before + es + after), C.Run(codec, s, before + es' + after))
  {
    ThenClient(codec, s, before, es, after);
    ThenClient(codec, s, before, es', after);
  }

  lemma ThenClient(codec: Codec, s: C.Conv, before: seq<StreamEvent>, es: seq<StreamEvent>, after: seq<StreamEvent>)
    ensures var start := C.Run(codec, s, before);
            var middle := C.Run(codec, start.state, es);
            var end := C.Run(codec, middle.state, after);
            && C.Run(codec, s, before + es + after).state == end.state
            && ConsumeAll(Waiting, C.Run(codec, s, before + es + after).events) ==
               ConsumeAll(ConsumeAll(ConsumeAll(Waiting, start.events), middle.events), end.events)
  {
    var start := C.Run(codec, s, before);
    var middle := C.Run(codec, start.state, es);
    var end := C.Run(codec, middle.state, after);
    ConverterRunConcat(codec, s, before, es);
    ConverterRunConcat(codec, s, before + es, after);
    ConsumeAllConcat(Waiting, start.events, middle.events);
    ConsumeAllConcat(Waiting, start.events + middle.events, end.events);
  }
}
