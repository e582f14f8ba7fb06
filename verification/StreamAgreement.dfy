/** The stream of a well-formed lifecycle shows the client what the lifecycle means. */
module StreamAgreement {
  import opened Text
  import opened Protocol
  import opened Blocks
  import opened Converter
  import opened Client
  import opened Grammar
  import opened Lifecycle

  function Held(c: Client): seq<ContentBlock> {
    if c.Streaming? then c.done else []
  }

  /** What of the current item the client already holds as finished blocks. */
  function FinishedPart(codec: Codec, p: Phase): seq<ContentBlock> {
    match p
    case InMessage(_, texts, _, _) => TextBlocks(texts)
    case InFunction(_, _, _, _, finished) => if finished then PhaseBlocks(codec, p) else []
    case InCustom(_, _, _, _, finished) => if finished then PhaseBlocks(codec, p) else []
    case _ => []
  }

  predicate ActiveIs(s: Conv, kind: BlockKind, index: int) {
    s.active.Some? && s.active.value.kind == kind && s.active.value.outputIndex == index
  }

  /** The converter's active block and the client's open one hold what the phase says. */
  predicate OpenPart(s: Conv, c: Client, p: Phase) {
    match p
    case Between => s.active == None
    case InReasoning(index, before, partText, _, signature) =>
      && ActiveIs(s, ThinkingKind, index) && s.active.value.signature == signature
      && c.Streaming? && c.open == Some(PartialThinking(before + partText, None))
    case InMessage(index, _, open, _) =>
      if open == None || open == Some("") then s.active == None
      else ActiveIs(s, TextKind, index) && c.Streaming? && c.open == Some(PartialText(open.value))
    case InFunction(index, id, name, arguments, finished) =>
      if finished then s.active == None
      else
        && ActiveIs(s, ToolKind, index) && !s.active.value.custom
        && c.Streaming? && c.open == Some(PartialTool(id, name, arguments))
    case InCustom(index, id, name, input, finished) =>
      if finished then s.active == None
      else
        && ActiveIs(s, ToolKind, index) && s.active.value.custom && s.active.value.buffer == input
        && c.Streaming? && c.open == Some(PartialTool(id, name, ""))
    case InOther(_) => s.active == None
  }

  ghost predicate Shows(codec: Codec, s: Conv, c: Client, m: Life) {
    && Tied(s, c) && !s.terminal
    && Held(c) == VisibleAll(m.blocks + FinishedPart(codec, m.phase))
    && OpenPart(s, c, m.phase)
  }

  lemma VisibleAppend(a: seq<ContentBlock>, b: seq<ContentBlock>)
    ensures VisibleAll(a + b) == VisibleAll(a) + VisibleAll(b)
  {
  }

  // ---- The events of each phase --------------------------------------------

  lemma AddedShows(codec: Codec, s: Conv, c: Client, m: Life, e: StreamEvent, m': Life)
    requires Shows(codec, s, c, m) && e.kind.ItemAdded? && Next(codec, m, e) == Some(m')
    ensures var o := ItemAddedStep(s, e); o.err == None && Shows(codec, o.state, ConsumeAll(c, o.events), m')
  {
    if e.item.Some? {
      LeavingFinished(codec, m.phase);
      assert AllBlocks(codec, m) + [] == AllBlocks(codec, m);
      var item := e.item.value;
      match item.kind {
        case FunctionCall => AddedTool(codec, s, c, m', e.outputIndex, item, false);
        case CustomToolCall => AddedTool(codec, s, c, m', e.outputIndex, item, true);
        case Reasoning => AddedReasoning(codec, s, c, m', e);
        case _ => EnsureStartTied(s, c);
      }
    }
  }

  lemma OpenedFresh(s: Conv, c: Client, start: ContentBlock)
    requires Tied(s, c) && !s.terminal && s.active == None
    ensures Opened(s, c, start) == Streaming(Begun(s, c).message, Held(c), Begin(start))
  {
  }

  lemma AddedTool(codec: Codec, s: Conv, c: Client, m': Life, index: int, item: OutputItem, custom: bool)
    requires Tied(s, c) && !s.terminal && s.active == None && Held(c) == VisibleAll(m'.blocks)
    requires m'.phase == if custom then InCustom(index, item.callId, item.name, "", false)
                         else InFunction(index, item.callId, item.name, "", false)
    ensures var o := OpenTool(s, index, item, custom); Shows(codec, o.state, ConsumeAll(c, o.events), m')
  {
    OpenToolKeeps(s, c, index, item, custom);
    OpenedFresh(s, c, ToolUseBlock(item.callId, item.name, EMPTY_OBJECT));
    assert m'.blocks + [] == m'.blocks;
  }

  lemma AddedReasoning(codec: Codec, s: Conv, c: Client, m': Life, e: StreamEvent)
    requires Tied(s, c) && !s.terminal && s.active == None && Held(c) == VisibleAll(m'.blocks)
    requires e.item.Some? && e.item.value.kind.Reasoning?
    requires m'.phase == InReasoning(e.outputIndex, "", "", -1, e.item.value.encryptedContent)
    ensures var o := ItemAddedStep(s, e); Shows(codec, o.state, ConsumeAll(c, o.events), m')
  {
    OpenReasoningKeeps(s, c, e);
    OpenedFresh(s, c, ThinkingBlock("", ""));
    var o := ItemAddedStep(s, e);
    ThinkingOpen(codec, o.state, ConsumeAll(c, o.events), m', e.item.value.encryptedContent);
  }

  lemma ThinkingOpen(codec: Codec, s: Conv, c: Client, m: Life, signature: string)
    requires m.phase.InReasoning? && m.phase == InReasoning(m.phase.index, "", "", -1, signature)
    requires Tied(s, c) && !s.terminal && c.Streaming? && c.done == VisibleAll(m.blocks)
    requires ActiveIs(s, ThinkingKind, m.phase.index) && s.active.value.signature == signature
    requires c.open == Some(PartialThinking("", None))
    ensures Shows(codec, s, c, m)
  {
    assert m.blocks + [] == m.blocks && "" + "" == "";
  }

  lemma LeavingFinished(codec: Codec, p: Phase)
    requires CanLeave(p)
    ensures FinishedPart(codec, p) == PhaseBlocks(codec, p)
  {
    if p.InMessage? {
      if p.open.Some? {
        assert (p.texts + [""])[..|p.texts|] == p.texts;
      } else {
        assert p.texts + [] == p.texts;
      }
    }
  }

  /** A fragment of the current item, in a block of its own or begun for it. */
  lemma FragmentHeld(s: Conv, c: Client, kind: BlockKind, index: int, start: ContentBlock, delta: Delta)
    requires Tied(s, c) && !s.terminal
    requires s.active == None || Continues(s, kind, index)
    requires (kind.TextKind? && start == TextBlock("") && delta.TextDelta? && delta.text != "")
          || (kind.ThinkingKind? && start == ThinkingBlock("", "") && delta.ThinkingDelta? && delta.thinking != "")
    ensures var o := FragmentStep(s, kind, index, start, delta);
            var c' := ConsumeAll(c, o.events);
            && o.err == None && Tied(o.state, c') && !o.state.terminal
            && c'.Streaming? && c'.done == Held(c)
            && ActiveIs(o.state, kind, index)
            && (s.active.Some? ==> o.state.active.value.signature == s.active.value.signature)
            && c'.open == Extend(if s.active.Some? then c.open.value else Begin(start).value, delta)
  {
    if s.active == None {
      FirstFragmentHeld(s, c, kind, index, start, delta);
    } else {
      ContinueKeeps(s, c, kind, index, start, delta);
    }
  }

  lemma FirstFragmentHeld(s: Conv, c: Client, kind: BlockKind, index: int, start: ContentBlock, delta: Delta)
    requires Tied(s, c) && !s.terminal && s.active == None
    requires (kind.TextKind? && start == TextBlock("") && delta.TextDelta? && delta.text != "")
          || (kind.ThinkingKind? && start == ThinkingBlock("", "") && delta.ThinkingDelta? && delta.thinking != "")
    ensures var o := FragmentStep(s, kind, index, start, delta);
            && Keeps(o, c, Streaming(Begun(s, c).message, Held(c), Extend(Begin(start).value, delta)))
            && o.err == None && !o.state.terminal && ActiveIs(o.state, kind, index)
  {
    OpenedFresh(s, c, start);
    OpenTied(s, c, NewBlock(index, kind), start);
    FirstFragment(c, Open(s, NewBlock(index, kind), start), Opened(s, c, start), start, delta);
  }

  lemma TextDeltaShows(codec: Codec, s: Conv, c: Client, m: Life, e: StreamEvent, p: Phase)
    requires Shows(codec, s, c, m) && SameItem(m.phase, e.outputIndex)
    requires TextPhase(m.phase, e.contentIndex, e.delta) == Some(p)
    ensures var o := TextDeltaStep(s, e.outputIndex, e.delta);
            o.err == None && Shows(codec, o.state, ConsumeAll(c, o.events), m.(phase := p))
  {
    var before := if m.phase.open.Some? then m.phase.open.value else "";
    if e.delta == "" {
      assert before + "" == before;
    } else {
      assert "" + e.delta == e.delta;
      FragmentTextShows(codec, s, c, m, e.outputIndex, before, e.delta, p);
    }
  }

  lemma FragmentTextShows(codec: Codec, s: Conv, c: Client, m: Life, index: int, before: string, delta: string,
                          p: Phase)
    requires Shows(codec, s, c, m) && SameItem(m.phase, index) && m.phase.InMessage? && delta != ""
    requires m.phase.open == Some(before) || (m.phase.open == None && before == "")
    requires p.InMessage? && p == m.phase.(open := Some(before + delta), part := p.part)
    ensures var o := FragmentStep(s, TextKind, index, TextBlock(""), TextDelta(delta));
            o.err == None && Shows(codec, o.state, ConsumeAll(c, o.events), m.(phase := p))
  {
    FragmentHeld(s, c, TextKind, index, TextBlock(""), TextDelta(delta));
    assert "" + delta == delta;
    var o := FragmentStep(s, TextKind, index, TextBlock(""), TextDelta(delta));
    TextOpen(codec, o.state, ConsumeAll(c, o.events), m.(phase := p), before + delta);
  }

  lemma TextOpen(codec: Codec, s: Conv, c: Client, m: Life, text: string)
    requires m.phase.InMessage? && m.phase.open == Some(text) && text != ""
    requires Tied(s, c) && !s.terminal && c.Streaming? && c.done == VisibleAll(m.blocks + TextBlocks(m.phase.texts))
    requires ActiveIs(s, TextKind, m.phase.index) && c.open == Some(PartialText(text))
    ensures Shows(codec, s, c, m)
  {
  }

  lemma TextDoneShows(codec: Codec, s: Conv, c: Client, m: Life, e: StreamEvent, p: Phase)
    requires Shows(codec, s, c, m) && SameItem(m.phase, e.outputIndex)
    requires TextDonePhase(m.phase, e.contentIndex, e.text) == Some(p)
    ensures var o := TextDoneStep(s, e);
            o.err == None && Shows(codec, o.state, ConsumeAll(c, o.events), m.(phase := p))
  {
    var text := p.texts[|m.phase.texts|];
    assert p.texts == m.phase.texts + [text];
    TextsGrow(m.blocks, m.phase.texts, text);
    TextDoneHeld(s, c, e, text);
    var o := TextDoneStep(s, e);
    NoTextOpen(codec, o.state, ConsumeAll(c, o.events), m.(phase := p));
  }

  lemma NoTextOpen(codec: Codec, s: Conv, c: Client, m: Life)
    requires m.phase.InMessage? && m.phase.open == None
    requires Tied(s, c) && !s.terminal && s.active == None
            && Held(c) == VisibleAll(m.blocks + TextBlocks(m.phase.texts))
    ensures Shows(codec, s, c, m)
  {
  }

  lemma TextDoneHeld(s: Conv, c: Client, e: StreamEvent, text: string)
    requires Tied(s, c) && !s.terminal
    requires if s.active.Some? then s.active.value.kind.TextKind?
            && c.open == Some(PartialText(text)) else text == e.text
    ensures var o := TextDoneStep(s, e);
            var c' := ConsumeAll(c, o.events);
            && o.err == None && Tied(o.state, c') && !o.state.terminal && o.state.active == None
            && Held(c') == Held(c) + (if text == "" then [] else [TextBlock(text)])
  {
    TextDoneKeeps(s, c, e);
  }

  /** One more closed text is one more visible block, unless it is empty. */
  lemma TextsGrow(blocks: seq<ContentBlock>, texts: seq<string>, text: string)
    ensures VisibleAll(blocks + TextBlocks(texts + [text])) ==
            VisibleAll(blocks + TextBlocks(texts)) + (if text == "" then [] else [TextBlock(text)])
  {
    assert (texts + [text])[..|texts|] == texts;
    var more := if text == "" then [] else [TextBlock(text)];
    assert blocks + (TextBlocks(texts) + more) == blocks + TextBlocks(texts) + more;
    VisibleAppend(blocks + TextBlocks(texts), more);
  }

  lemma ReasoningDeltaShows(codec: Codec, s: Conv, c: Client, m: Life, e: StreamEvent, p: Phase)
    requires Shows(codec, s, c, m) && SameItem(m.phase, e.outputIndex)
    requires ReasoningPhase(m.phase, e.summaryIndex, e.delta) == Some(p)
    ensures var o := ReasoningDeltaStep(s, e.outputIndex, e.delta);
            o.err == None && Shows(codec, o.state, ConsumeAll(c, o.events), m.(phase := p))
  {
    TextSoFar(m.phase, e.summaryIndex);
    var at := AtPart(m.phase, e.summaryIndex).value;
    assert Shows(codec, s, c, m.(phase := at));
    if e.delta == "" {
      assert at.partText + "" == at.partText;
    } else {
      ThoughtShows(codec, s, c, m, at, e.delta);
    }
  }

  lemma ThoughtShows(codec: Codec, s: Conv, c: Client, m: Life, at: Phase, delta: string)
    requires at.InReasoning? && Shows(codec, s, c, m.(phase := at)) && delta != ""
    ensures var o := FragmentStep(s, ThinkingKind, at.index, ThinkingBlock("", ""), ThinkingDelta(delta));
            && o.err == None
            && Shows(codec, o.state, ConsumeAll(c, o.events), m.(phase := at.(partText := at.partText + delta)))
  {
    FragmentHeld(s, c, ThinkingKind, at.index, ThinkingBlock("", ""), ThinkingDelta(delta));
    assert at.before + (at.partText + delta) == at.before + at.partText + delta;
  }

  /** Moving on to a later part adds no text. */
  lemma TextSoFar(p: Phase, part: int)
    requires AtPart(p, part).Some?
    ensures var at := AtPart(p, part).value;
            at.before + at.partText == p.before + p.partText && at.signature == p.signature && at.index == p.index
  {
    assert p.before + p.partText + "" == p.before + p.partText;
  }

  lemma ReasoningDoneShows(codec: Codec, s: Conv, c: Client, m: Life, e: StreamEvent, p: Phase)
    requires Shows(codec, s, c, m) && SameItem(m.phase, e.outputIndex)
    requires ReasoningDonePhase(m.phase, e.summaryIndex, e.text) == Some(p)
    ensures var o := ReasoningDoneStep(s, e);
            o.err == None && Shows(codec, o.state, ConsumeAll(c, o.events), m.(phase := p))
  {
    TextSoFar(m.phase, e.summaryIndex);
    ReasoningDoneKeeps(s, c, e);
    var at := AtPart(m.phase, e.summaryIndex).value;
    if at.before + at.partText == "" {
      assert at.before == "" && at.partText == "";
      assert "" + e.text == e.text;
    }
  }

  lemma ArgumentsDeltaShows(codec: Codec, s: Conv, c: Client, m: Life, e: StreamEvent)
    requires Shows(codec, s, c, m) && SameItem(m.phase, e.outputIndex) && m.phase.InFunction? && !m.phase.finished
    ensures var o := ToolDeltaStep(s, e, false);
            o.err == None &&
            Shows(codec, o.state, ConsumeAll(c, o.events), m.(phase := m.phase.(arguments := m.phase.arguments +
                e.delta)))
  {
    ToolDeltaKeeps(s, c, e, false);
    if e.delta == "" {
      assert m.phase.arguments + "" == m.phase.arguments;
    }
  }

  lemma CustomDeltaShows(codec: Codec, s: Conv, c: Client, m: Life, e: StreamEvent)
    requires Shows(codec, s, c, m) && SameItem(m.phase, e.outputIndex) && m.phase.InCustom? && !m.phase.finished
    ensures var o := ToolDeltaStep(s, e, true);
            o.err == None &&
            Shows(codec, o.state, ConsumeAll(c, o.events), m.(phase := m.phase.(input := m.phase.input + e.delta)))
  {
    ToolDeltaKeeps(s, c, e, true);
    if e.delta == "" {
      assert m.phase.input + "" == m.phase.input;
    }
  }

  /** A tool block that a done event closes is held with its whole input. */
  lemma ToolDoneHeld(codec: Codec, s: Conv, c: Client, index: int, arguments: string, input: string, custom: bool)
    requires Tied(s, c) && !s.terminal && MatchesTool(s, index, custom)
    requires !custom ==> FunctionToolInput(codec, NonEmpty(arguments, s.active.value.buffer)).Some?
    ensures var o := ToolDoneStep(codec, s, index, arguments, input, custom);
            var c' := ConsumeAll(c, o.events);
            var b := s.active.value;
            && o.err == None && Tied(o.state, c') && !o.state.terminal && o.state.active == None
            && Held(c') == Held(c) + [ToolUseBlock(b.callId, b.toolName, DoneInput(codec, b, arguments, input))]
  {
    ToolDoneKeeps(codec, s, c, index, arguments, input, custom);
  }

  lemma FunctionDoneShows(codec: Codec, s: Conv, c: Client, m: Life, arguments: string, p: Phase)
    requires Shows(codec, s, c, m) && FunctionDone(codec, m.phase, arguments) == Some(p)
    ensures var o := ToolDoneStep(codec, s, m.phase.index, arguments, "", false);
            o.err == None && Shows(codec, o.state, ConsumeAll(c, o.events), m.(phase := p))
  {
    ToolDoneHeld(codec, s, c, m.phase.index, arguments, "", false);
    assert m.blocks + [] == m.blocks;
    VisibleAppend(m.blocks, PhaseBlocks(codec, p));
    assert VisibleAll(PhaseBlocks(codec, p)) == PhaseBlocks(codec, p);
  }

  lemma CustomDoneShows(codec: Codec, s: Conv, c: Client, m: Life, input: string, p: Phase)
    requires Shows(codec, s, c, m) && CustomDone(m.phase, input) == Some(p)
    ensures var o := ToolDoneStep(codec, s, m.phase.index, "", input, true);
            o.err == None && Shows(codec, o.state, ConsumeAll(c, o.events), m.(phase := p))
  {
    ToolDoneHeld(codec, s, c, m.phase.index, "", input, true);
    assert m.blocks + [] == m.blocks;
    VisibleAppend(m.blocks, PhaseBlocks(codec, p));
    assert VisibleAll(PhaseBlocks(codec, p)) == PhaseBlocks(codec, p);
  }

  /** The life once the current item is over. */
  function Settled(codec: Codec, m: Life, p: Phase): Life {
    m.(phase := Between, blocks := m.blocks + PhaseBlocks(codec, p))
  }

  lemma Settle(codec: Codec, s: Conv, c: Client, m: Life, p: Phase)
    requires Shows(codec, s, c, m.(phase := p)) && CanLeave(p)
    ensures Shows(codec, s, c, Settled(codec, m, p))
  {
    LeavingFinished(codec, p);
    var blocks := m.blocks + PhaseBlocks(codec, p);
    assert blocks + [] == blocks;
  }

  lemma ItemDoneShows(codec: Codec, s: Conv, c: Client, m: Life, e: StreamEvent, p: Phase)
    requires Shows(codec, s, c, m) && SameItem(m.phase, e.outputIndex) && e.item.Some?
    requires ItemDonePhase(codec, m.phase, e.item.value) == Some(p)
    ensures var o := ItemDoneStep(codec, s, e);
            o.err == None && Shows(codec, o.state, ConsumeAll(c, o.events), Settled(codec, m, p))
  {
    match m.phase {
      case InReasoning(_, _, _, _, _) => ReasoningItemDoneShows(codec, s, c, m, e, p);
      case InMessage(_, _, _, _) => MessageItemDoneShows(codec, s, c, m, e);
      case InFunction(_, _, _, _, _) => FunctionItemDoneShows(codec, s, c, m, e, p);
      case InCustom(_, _, _, _, _) => CustomItemDoneShows(codec, s, c, m, e, p);
      case InOther(_) => Settle(codec, s, c, m, p);
    }
  }

  lemma FunctionItemDoneShows(codec: Codec, s: Conv, c: Client, m: Life, e: StreamEvent, p: Phase)
    requires Shows(codec, s, c, m) && SameItem(m.phase, e.outputIndex) && e.item.Some? && m.phase.InFunction?
    requires ItemDonePhase(codec, m.phase, e.item.value) == Some(p)
    ensures var o := ItemDoneStep(codec, s, e);
            o.err == None && Shows(codec, o.state, ConsumeAll(c, o.events), Settled(codec, m, p))
  {
    if m.phase.finished {
      Settle(codec, s, c, m, p);
    } else {
      FunctionDoneShows(codec, s, c, m, e.item.value.arguments, p);
      var o := ToolDoneStep(codec, s, e.outputIndex, e.item.value.arguments, "", false);
      Settle(codec, o.state, ConsumeAll(c, o.events), m, p);
    }
  }

  lemma CustomItemDoneShows(codec: Codec, s: Conv, c: Client, m: Life, e: StreamEvent, p: Phase)
    requires Shows(codec, s, c, m) && SameItem(m.phase, e.outputIndex) && e.item.Some? && m.phase.InCustom?
    requires ItemDonePhase(codec, m.phase, e.item.value) == Some(p)
    ensures var o := ItemDoneStep(codec, s, e);
            o.err == None && Shows(codec, o.state, ConsumeAll(c, o.events), Settled(codec, m, p))
  {
    if m.phase.finished {
      Settle(codec, s, c, m, p);
    } else {
      CustomDoneShows(codec, s, c, m, e.item.value.input, p);
      var o := ToolDoneStep(codec, s, e.outputIndex, "", e.item.value.input, true);
      Settle(codec, o.state, ConsumeAll(c, o.events), m, p);
    }
  }

  lemma ReasoningItemDoneShows(codec: Codec, s: Conv, c: Client, m: Life, e: StreamEvent, p: Phase)
    requires Shows(codec, s, c, m) && SameItem(m.phase, e.outputIndex) && e.item.Some? && m.phase.InReasoning?
    requires ItemDonePhase(codec, m.phase, e.item.value) == Some(p)
    ensures var o := ItemDoneStep(codec, s, e);
            o.err == None && Shows(codec, o.state, ConsumeAll(c, o.events), Settled(codec, m, p))
  {
    var signed := SignedBy(s, e.item.value.encryptedContent);
    var block := ThinkingBlock(p.before + p.partText, p.signature);
    CloseTied(signed, c);
    ThoughtClosed(signed, c, block);
    assert VisibleAll([block]) == [Visible(block)];
    VisibleAppend(m.blocks, [block]);
    assert m.blocks + [] == m.blocks;
    var o := ItemDoneStep(codec, s, e);
    BetweenShows(codec, o.state, ConsumeAll(c, o.events), Settled(codec, m, p));
  }

  lemma ThoughtClosed(s: Conv, c: Client, block: ContentBlock)
    requires TiedStreaming(s, c) && s.active.Some? && s.active.value.kind.ThinkingKind? && block.ThinkingBlock?
    requires c.open == Some(PartialThinking(block.thinking, None)) && s.active.value.signature == block.signature
    ensures Closed(s, c) == Streaming(c.message, c.done + [Visible(block)], None)
  {
  }

  /** With nothing open a state shows a life between items. */
  lemma BetweenShows(codec: Codec, s: Conv, c: Client, m: Life)
    requires m.phase.Between? && Tied(s, c) && !s.terminal && s.active == None && Held(c) == VisibleAll(m.blocks)
    ensures Shows(codec, s, c, m)
  {
    assert m.blocks + [] == m.blocks;
  }

  lemma MessageItemDoneShows(codec: Codec, s: Conv, c: Client, m: Life, e: StreamEvent)
    requires Shows(codec, s, c, m) && SameItem(m.phase, e.outputIndex) && e.item.Some? && m.phase.InMessage?
    requires e.item.value.kind.Message?
    ensures var o := ItemDoneStep(codec, s, e);
            o.err == None && Shows(codec, o.state, ConsumeAll(c, o.events), Settled(codec, m, m.phase))
  {
    if s.active == None {
      Settle(codec, s, c, m, m.phase);
    } else {
      CloseTied(s, c);
      TextsGrow(m.blocks, m.phase.texts, m.phase.open.value);
      var blocks := Settled(codec, m, m.phase).blocks;
      assert blocks + [] == blocks;
    }
  }

  // ---- Every lifecycle ------------------------------------------------------

  lemma CaptureShows(codec: Codec, s: Conv, c: Client, m: Life, response: Option<Response>)
    requires Shows(codec, s, c, m)
    ensures Shows(codec, CaptureMetadata(s, response), c, m)
  {
    CaptureTied(s, c, response);
  }

  /** The phase moves as the monitor says. */
  lemma NextIsPhase(codec: Codec, m: Life, e: StreamEvent, m': Life)
    requires Next(codec, m, e) == Some(m')
    requires !e.kind.OtherKind? && !e.kind.CreatedKind? && !e.kind.ItemAdded? && !e.kind.ItemDone?
    ensures SameItem(m.phase, e.outputIndex) && NextPhase(codec, m.phase, e) == Some(m'.phase)
            && m' == m.(phase := m'.phase)
  {
  }

  lemma HandleShows(codec: Codec, s: Conv, c: Client, m: Life, e: StreamEvent, m': Life)
    requires Shows(codec, s, c, m) && Next(codec, m, e) == Some(m')
    ensures ShowsAfter(codec, Handle(codec, s, e), c, m')
  {
    match e.kind {
      case OtherKind(_) =>
      case CreatedKind => EnsureStartTied(s, c);
      case ItemAdded => AddedShows(codec, s, c, m, e, m');
      case ItemDone =>
        if e.item.Some? {
          var p := ItemDonePhase(codec, m.phase, e.item.value).value;
          assert m' == Settled(codec, m, p);
          ItemDoneShows(codec, s, c, m, e, p);
        }
      case _ =>
        NextIsPhase(codec, m, e, m');
        PhaseShows(codec, s, c, m, e, m'.phase);
    }
  }

  ghost predicate ShowsAfter(codec: Codec, o: Outcome, c: Client, m: Life) {
    o.err == None && Shows(codec, o.state, ConsumeAll(c, o.events), m)
  }

  lemma PhaseShows(codec: Codec, s: Conv, c: Client, m: Life, e: StreamEvent, p: Phase)
    requires Shows(codec, s, c, m) && SameItem(m.phase, e.outputIndex) && NextPhase(codec, m.phase, e) == Some(p)
    ensures ShowsAfter(codec, Handle(codec, s, e), c, m.(phase := p))
  {
    match e.kind {
      case TextDeltaKind => TextDeltaShows(codec, s, c, m, e, p);
      case TextDoneKind => TextDoneShows(codec, s, c, m, e, p);
      case SummaryDelta => ReasoningDeltaShows(codec, s, c, m, e, p);
      case ReasoningTextDelta => ReasoningDeltaShows(codec, s, c, m, e, p);
      case SummaryDone => ReasoningDoneShows(codec, s, c, m, e, p);
      case ReasoningTextDone => ReasoningDoneShows(codec, s, c, m, e, p);
      case ArgumentsDelta => ArgumentsDeltaShows(codec, s, c, m, e);
      case CustomInputDelta => CustomDeltaShows(codec, s, c, m, e);
      case ArgumentsDone => FunctionDoneShows(codec, s, c, m, e.arguments, p);
      case CustomInputDone => CustomDoneShows(codec, s, c, m, e.input, p);
      case _ =>
    }
  }

  lemma {:induction false} LifecycleShows(codec: Codec, model: string, es: seq<StreamEvent>, m: Life)
    requires After(codec, es) == Some(m)
    ensures var r := Run(codec, Initial(model), es); Shows(codec, r.state, ConsumeAll(Waiting, r.events), m)
  {
    if es == [] {
      assert VisibleAll([] + []) == [];
    } else {
      var n := |es| - 1;
      var r := Run(codec, Initial(model), es[..n]);
      var c := ConsumeAll(Waiting, r.events);
      var before := After(codec, es[..n]).value;
      LifecycleShows(codec, model, es[..n], before);
      CaptureShows(codec, r.state, c, before, es[n].response);
      HandleShows(codec, CaptureMetadata(r.state, es[n].response), c, before, es[n], m);
      ConsumeAllConcat(Waiting, r.events, Step(codec, r.state, es[n]).events);
    }
  }

  /** A finished run and its client: the message that was meant, or its error. */
  ghost predicate EndedAs(s: Conv, c: Client, meaning: Result<seq<ContentBlock>, Error>, e: StreamEvent) {
    match meaning
    case Err(err) => FinalError(s) == Some(err)
    case Ok(content) =>
      && FinalError(s) == None && c.Ended? && c.stopped
      && c.content == VisibleAll(content)
      && c.stopReason == StopReasonFor(FinalStatus(e), FinalReason(e), HasTool(content))
      && c.usage == ConvertUsage(FinalUsage(e))
  }

  /** The streamed side of a whole lifecycle: the client ends with the blocks the
      lifecycle means, or the run fails with the error the meaning fails with. */
  lemma LifecycleStreamed(codec: Codec, model: string, es: seq<StreamEvent>, m: Life, e: StreamEvent)
    requires After(codec, es) == Some(m) && Ends(codec, m, e)
    ensures var r := Run(codec, Initial(model), es + [e]);
            EndedAs(r.state, ConsumeAll(Waiting, r.events), Meaning(codec, m, e), e)
  {
    var r := Run(codec, Initial(model), es);
    var c := ConsumeAll(Waiting, r.events);
    LifecycleShows(codec, model, es, m);
    CaptureShows(codec, r.state, c, m, e.response);
    EndShows(codec, CaptureMetadata(r.state, e.response), c, m, e);
    TerminalRun(codec, model, es, e);
    ConsumeAllConcat(Waiting, r.events, TerminalStep(codec, CaptureMetadata(r.state, e.response), e).events);
  }

  lemma TerminalRun(codec: Codec, model: string, es: seq<StreamEvent>, e: StreamEvent)
    requires IsTerminal(e.kind) && !Run(codec, Initial(model), es).state.terminal
    ensures var r := Run(codec, Initial(model), es);
            var o := TerminalStep(codec, CaptureMetadata(r.state, e.response), e);
            Run(codec, Initial(model), es + [e]) == Emit(o.state, r.events + o.events)
  {
    StepOfTerminal(codec, Run(codec, Initial(model), es).state, e);
    RunLast(codec, Initial(model), es, e);
  }

  lemma StepOfTerminal(codec: Codec, s: Conv, e: StreamEvent)
    requires IsTerminal(e.kind) && !s.terminal
    ensures Step(codec, s, e) == TerminalStep(codec, CaptureMetadata(s, e.response), e)
  {
  }

  lemma RunLast(codec: Codec, s: Conv, es: seq<StreamEvent>, e: StreamEvent)
    ensures var r := Run(codec, s, es);
            var o := Step(codec, r.state, e);
            Run(codec, s, es + [e]) == Emit(o.state, r.events + o.events)
  {
    assert (es + [e])[..|es|] == es;
  }

  lemma EndShows(codec: Codec, s: Conv, c: Client, m: Life, e: StreamEvent)
    requires Shows(codec, s, c, m) && Ends(codec, m, e)
    ensures var o := TerminalStep(codec, s, e); EndedAs(o.state, ConsumeAll(c, o.events), Meaning(codec, m, e), e)
  {
    TerminalKeeps(codec, s, c, e);
    EndContentKeeps(codec, s, c, e);
    EndContentMeans(codec, s, c, m, e);
    if Meaning(codec, m, e).Ok? {
      VisibleHasTool(Meaning(codec, m, e).value);
    }
  }

  /** What the terminal event leaves the client with is what the lifecycle means. */
  lemma EndContentMeans(codec: Codec, s: Conv, c: Client, m: Life, e: StreamEvent)
    requires Shows(codec, s, c, m) && Ends(codec, m, e)
    ensures var meaning := Meaning(codec, m, e);
            if StreamsOutput(s, e) then OutputBlocks(codec, OutputOf(e)) == meaning
            else meaning.Ok? && EndContentOf(codec, s, c, e) == VisibleAll(meaning.value)
  {
    AllShown(codec, s, c, m);
    assert |VisibleAll(AllBlocks(codec, m))| == |AllBlocks(codec, m)|;
    if !StreamsOutput(s, e) && AllBlocks(codec, m) == [] {
      assert !s.sawContent && OutputOf(e) == [];
    }
  }

  /** Closing what is open completes the blocks described so far. */
  lemma AllShown(codec: Codec, s: Conv, c: Client, m: Life)
    requires Shows(codec, s, c, m) && (CanLeave(m.phase) || m.phase.InMessage?)
    ensures var closed := Closed(s, Begun(s, c));
            closed.Streaming? && closed.done == VisibleAll(AllBlocks(codec, m))
    ensures s.sawContent <==> AllBlocks(codec, m) != []
  {
    if CanLeave(m.phase) {
      LeavingFinished(codec, m.phase);
    } else {
      TextsGrow(m.blocks, m.phase.texts, m.phase.open.value);
    }
    assert |VisibleAll(AllBlocks(codec, m))| == |AllBlocks(codec, m)|;
  }
}
