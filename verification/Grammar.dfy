/** What a streaming client sees of the converter, over every run: the tie
    between the converter's fields and the client's state is kept by every event. */
module Grammar {
  import opened Text
  import opened Protocol
  import opened Blocks
  import opened Converter
  import opened Client

  /** The active block and the client's open block describe one block. */
  predicate BlockTied(b: ActiveBlock, p: Partial) {
    match b.kind
    case TextKind => p.PartialText? && p.text != "" && b.hadDelta
    case ThinkingKind => p.PartialThinking? && p.signature == None && (b.hadDelta <==> p.thinking != "")
    case ToolKind =>
      && p.PartialTool? && p.id == b.callId && p.name == b.toolName
      && (if b.custom then p.json == "" else p.json == b.buffer)
      && (b.hadDelta <==> p.json != "")
  }

  predicate ClientHasTool(c: Client)
    requires c.Streaming?
  {
    HasTool(c.done) || (c.open.Some? && c.open.value.PartialTool?)
  }

  /** A converter that has not failed and the client of everything it emitted. */
  predicate Tied(s: Conv, c: Client) {
    && s.terminalErr == None
    && (if !s.messageStarted then s == Initial(s.model).(responseId := s.responseId) && c == Waiting
        else if s.terminal then IsComplete(c)
        else TiedStreaming(s, c))
  }

  predicate TiedStreaming(s: Conv, c: Client) {
    && c.Streaming?
    && |c.done| == s.nextBlockIndex
    && (s.sawContent <==> c.done != [] || c.open.Some?)
    && (s.hasTool <==> ClientHasTool(c))
    && (s.active.Some? <==> c.open.Some?)
    && (s.active.Some? ==> s.active.value.index == s.nextBlockIndex && BlockTied(s.active.value, c.open.value))
  }

  // ---- The steps every handler is made of, and what the client makes of them

  function Begun(s: Conv, c: Client): Client {
    if s.messageStarted then c else Streaming(StartMessage(s), [], None)
  }

  /** The block a client holds once the active block is closed. */
  function ClosedBlock(b: ActiveBlock, p: Partial): ContentBlock {
    if b.kind.ThinkingKind? && p.PartialThinking? && !IsBlank(b.signature)
    then ThinkingBlock(p.thinking, b.signature) else Finish(p)
  }

  function Closed(s: Conv, c: Client): Client {
    if c.Streaming? && c.open.Some? && s.active.Some?
    then Streaming(c.message, c.done + [ClosedBlock(s.active.value, c.open.value)], None) else c
  }

  lemma EnsureStartTied(s: Conv, c: Client)
    requires Tied(s, c) && !s.terminal
    ensures var o := EnsureStart(s);
            && ConsumeAll(c, o.events) == Begun(s, c)
            && TiedStreaming(o.state, Begun(s, c)) && Tied(o.state, Begun(s, c))
            && o.state.messageStarted && !o.state.terminal
  {
    if !s.messageStarted {
      ConsumeOne(c, MessageStart(StartMessage(s)));
    }
  }

  lemma CloseTied(s: Conv, c: Client)
    requires TiedStreaming(s, c)
    ensures var o := CloseActive(s);
            && ConsumeAll(c, o.events) == Closed(s, c)
            && TiedStreaming(o.state, Closed(s, c)) && o.state.active == None
  {
    if s.active.Some? {
      CloseEvents(s.active.value, c);
      HasToolAppend(c.done, [ClosedBlock(s.active.value, c.open.value)]);
      HasToolOne(ClosedBlock(s.active.value, c.open.value));
    }
  }

  lemma CloseEvents(b: ActiveBlock, c: Client)
    requires c.Streaming? && c.open.Some? && b.index == |c.done| && BlockTied(b, c.open.value)
    ensures ConsumeAll(c, SignatureEvents(b) + [BlockStop(b.index)]) ==
            Streaming(c.message, c.done + [ClosedBlock(b, c.open.value)], None)
  {
    var signed := SignatureEvents(b);
    ConsumeAppend(c, signed, BlockStop(b.index));
    if signed != [] {
      assert signed == [signed[0]];
      ConsumeOne(c, signed[0]);
    } else {
      ConsumeNone(c);
    }
  }

  lemma HasToolOne(b: ContentBlock)
    ensures HasTool([b]) <==> b.ToolUseBlock?
  {
    assert [b][0] == b;
  }

  function Opened(s: Conv, c: Client, start: ContentBlock): Client {
    var base := Closed(EnsureStart(s).state, Begun(s, c));
    if base.Streaming? then base.(open := Begin(start)) else base
  }

  /** A block has just been begun: everything before it is closed and counted. */
  ghost predicate OpenedWith(o: Emit, c: Client, c': Client, start: ContentBlock) {
    && ConsumeAll(c, o.events) == c'
    && c'.Streaming? && c'.open == Begin(start) && c'.open.Some?
    && o.state.active.Some? && |c'.done| == o.state.nextBlockIndex == o.state.active.value.index
    && o.state.messageStarted && !o.state.terminal && o.state.terminalErr == None
    && (o.state.hasTool <==> HasTool(c'.done))
  }

  lemma OpenTied(s: Conv, c: Client, b: ActiveBlock, start: ContentBlock)
    requires Tied(s, c) && !s.terminal && EmptyStart(start)
    ensures OpenedWith(Open(s, b, start), c, Opened(s, c, start), start)
  {
    var started := EnsureStart(s);
    EnsureStartTied(s, c);
    CloseTied(started.state, Begun(s, c));
    var closed := CloseActive(started.state);
    Chain(c, started.events + closed.events, started.events, Begun(s, c), closed.events,
          Closed(started.state, Begun(s, c)));
    OpeningEvents(c, started.events + closed.events, closed.state, Closed(started.state, Begun(s, c)), start);
  }

  lemma OpeningEvents(c: Client, events: seq<ClientEvent>, s: Conv, base: Client, start: ContentBlock)
    requires ConsumeAll(c, events) == base && TiedStreaming(s, base) && s.active == None && EmptyStart(start)
    ensures ConsumeAll(c, events + [BlockStart(s.nextBlockIndex, start)]) == base.(open := Begin(start))
  {
    ConsumeAppend(c, events, BlockStart(s.nextBlockIndex, start));
  }

  // ---- Each event keeps the tie --------------------------------------------

  /** What a handler owes: the error path emits nothing, the other keeps the tie. */
  ghost predicate Keeps(o: Outcome, c: Client, c': Client) {
    if o.err.Some? then o.events == [] && o.state.terminal && o.state.terminalErr == o.err
    else ConsumeAll(c, o.events) == c' && Tied(o.state, c')
  }

  lemma OpenToolKeeps(s: Conv, c: Client, outputIndex: int, item: OutputItem, custom: bool)
    requires Tied(s, c) && !s.terminal
    ensures Keeps(OpenTool(s, outputIndex, item, custom), c, Opened(s, c, ToolUseBlock(item.callId, item.name,
            EMPTY_OBJECT)))
    ensures !OpenTool(s, outputIndex, item, custom).state.terminal
  {
    var b := NewBlock(outputIndex, ToolKind).(callId := item.callId, toolName := item.name, custom := custom);
    OpenTied(s, c, b, ToolUseBlock(item.callId, item.name, EMPTY_OBJECT));
  }

  lemma OpenReasoningKeeps(s: Conv, c: Client, e: StreamEvent)
    requires Tied(s, c) && !s.terminal && e.item.Some? && e.item.value.kind.Reasoning?
    ensures Keeps(ItemAddedStep(s, e), c, Opened(s, c, ThinkingBlock("", "")))
    ensures !ItemAddedStep(s, e).state.terminal
  {
    var b := NewBlock(e.outputIndex, ThinkingKind).(signature := e.item.value.encryptedContent);
    OpenTied(s, c, b, ThinkingBlock("", ""));
  }

  function FragmentEffect(s: Conv, c: Client, kind: BlockKind, outputIndex: int, start: ContentBlock,
      delta: Delta): Client {
    var at := if Continues(s, kind, outputIndex) then c else Opened(s, c, start);
    if at.Streaming? && at.open.Some? then at.(open := Extend(at.open.value, delta)) else at
  }

  lemma FragmentKeeps(s: Conv, c: Client, kind: BlockKind, outputIndex: int, start: ContentBlock, delta: Delta)
    requires Tied(s, c) && !s.terminal
    requires (kind.TextKind? && start == TextBlock("") && delta.TextDelta? && delta.text != "")
          || (kind.ThinkingKind? && start == ThinkingBlock("", "") && delta.ThinkingDelta? && delta.thinking != "")
    ensures Keeps(FragmentStep(s, kind, outputIndex, start, delta), c, FragmentEffect(s, c, kind, outputIndex, start,
            delta))
    ensures !FragmentStep(s, kind, outputIndex, start, delta).state.terminal
    ensures FragmentEffect(s, c, kind, outputIndex, start, delta).Streaming?
  {
    if Continues(s, kind, outputIndex) {
      ContinueKeeps(s, c, kind, outputIndex, start, delta);
    } else {
      BeginFragmentKeeps(s, c, kind, outputIndex, start, delta);
    }
  }

  lemma ContinueKeeps(s: Conv, c: Client, kind: BlockKind, outputIndex: int, start: ContentBlock, delta: Delta)
    requires Tied(s, c) && !s.terminal && Continues(s, kind, outputIndex)
    requires (kind.TextKind? && delta.TextDelta? && delta.text != "")
          || (kind.ThinkingKind? && delta.ThinkingDelta? && delta.thinking != "")
    ensures Keeps(FragmentStep(s, kind, outputIndex, start, delta), c, FragmentEffect(s, c, kind, outputIndex, start,
            delta))
    ensures FragmentEffect(s, c, kind, outputIndex, start, delta).Streaming?
  {
    ConsumeAppend(c, [], BlockDelta(s.active.value.index, delta));
  }

  lemma BeginFragmentKeeps(s: Conv, c: Client, kind: BlockKind, outputIndex: int, start: ContentBlock, delta: Delta)
    requires Tied(s, c) && !s.terminal && !Continues(s, kind, outputIndex)
    requires (kind.TextKind? && start == TextBlock("") && delta.TextDelta? && delta.text != "")
          || (kind.ThinkingKind? && start == ThinkingBlock("", "") && delta.ThinkingDelta? && delta.thinking != "")
    ensures Keeps(FragmentStep(s, kind, outputIndex, start, delta), c, FragmentEffect(s, c, kind, outputIndex, start,
            delta))
    ensures FragmentEffect(s, c, kind, outputIndex, start, delta).Streaming?
  {
    var at, c' := Open(s, NewBlock(outputIndex, kind), start), Opened(s, c, start);
    OpenTied(s, c, NewBlock(outputIndex, kind), start);
    OpensKind(s, NewBlock(outputIndex, kind), start);
    FirstFragment(c, at, c', start, delta);
    BegunFragment(s, c, kind, outputIndex, start, delta, at, c');
  }

  lemma OpensKind(s: Conv, b: ActiveBlock, start: ContentBlock)
    ensures var o := Open(s, b, start); o.state.active.Some? && o.state.active.value.kind == b.kind
  {
  }

  lemma BegunFragment(s: Conv, c: Client, kind: BlockKind, outputIndex: int, start: ContentBlock, delta: Delta,
                      at: Emit, c': Client)
    requires !Continues(s, kind, outputIndex) && at.state.active.Some?
    requires at == Open(s, NewBlock(outputIndex, kind), start) && c' == Opened(s, c, start)
    ensures FragmentStep(s, kind, outputIndex, start, delta) ==
            Outcome(at.state.(active := Some(at.state.active.value.(hadDelta := true)), sawContent := true),
                    at.events + [BlockDelta(at.state.active.value.index, delta)], None)
    ensures FragmentEffect(s, c, kind, outputIndex, start, delta) ==
            if c'.Streaming? && c'.open.Some? then c'.(open := Extend(c'.open.value, delta)) else c'
  {
  }

  lemma FirstFragment(c: Client, at: Emit, c': Client, start: ContentBlock, delta: Delta)
    requires OpenedWith(at, c, c', start) && at.state.active.value.kind.TextKind? == start.TextBlock?
    requires !at.state.active.value.kind.ToolKind? && !start.ToolUseBlock?
    requires (start.TextBlock? && delta.TextDelta? && delta.text != "")
          || (start.ThinkingBlock? && delta.ThinkingDelta? && delta.thinking != "")
    ensures Extend(c'.open.value, delta).Some?
    ensures var b := at.state.active.value;
            Keeps(Outcome(at.state.(active := Some(b.(hadDelta := true)), sawContent := true),
                          at.events + [BlockDelta(b.index, delta)], None),
                  c, c'.(open := Extend(c'.open.value, delta)))
  {
    ConsumeAppend(c, at.events, BlockDelta(at.state.active.value.index, delta));
  }

  lemma TextDoneKeeps(s: Conv, c: Client, e: StreamEvent)
    requires Tied(s, c) && !s.terminal
    ensures Keeps(TextDoneStep(s, e), c, TextDoneEffect(s, c, e.text)) && !TextDoneStep(s, e).state.terminal
  {
    if s.active.None? && e.text != "" {
      var o := TextDeltaStep(s, e.outputIndex, e.text);
      BeginFragmentKeeps(s, c, TextKind, e.outputIndex, TextBlock(""), TextDelta(e.text));
      var c' := FragmentEffect(s, c, TextKind, e.outputIndex, TextBlock(""), TextDelta(e.text));
      assert "" + e.text == e.text;
      assert c' == Streaming(Begun(s, c).message, Begun(s, c).done, Some(PartialText(e.text)));
      FragmentThenClose(c, o, c');
    } else if s.active.Some? && s.active.value.kind.TextKind? {
      CloseTied(s, c);
      assert [] + CloseActive(s).events == CloseActive(s).events;
    }
  }

  function TextDoneEffect(s: Conv, c: Client, text: string): Client {
    if s.active.None? then
      if text == "" then c
      else if Begun(s, c).Streaming? then Streaming(Begun(s, c).message, Begun(s, c).done + [TextBlock(text)], None)
      else c
    else if s.active.value.kind.TextKind? then Closed(s, c)
    else c
  }

  lemma FragmentThenClose(c: Client, o: Outcome, c': Client)
    requires Keeps(o, c, c') && o.err == None && TiedStreaming(o.state, c')
    requires !o.state.terminal && o.state.messageStarted
    ensures var closed := CloseActive(o.state);
            Keeps(Outcome(closed.state, o.events + closed.events, None), c, Closed(o.state, c'))
  {
    var closed := CloseActive(o.state);
    CloseTied(o.state, c');
    Chain(c, o.events + closed.events, o.events, c', closed.events, Closed(o.state, c'));
  }

  lemma ReasoningDoneKeeps(s: Conv, c: Client, e: StreamEvent)
    requires Tied(s, c) && !s.terminal
    ensures Keeps(ReasoningDoneStep(s, e), c, ReasoningDoneEffect(c, e.text)) && !ReasoningDoneStep(s, e).state.terminal
  {
    if s.active.Some? && s.active.value.kind.ThinkingKind? && !s.active.value.hadDelta && e.text != "" {
      assert "" + e.text == e.text;
      ConsumeOne(c, BlockDelta(s.active.value.index, ThinkingDelta(e.text)));
    }
  }

  function ReasoningDoneEffect(c: Client, text: string): Client {
    if c.Streaming? && c.open.Some? && c.open.value.PartialThinking? && c.open.value.thinking == "" && text != ""
    then c.(open := Some(c.open.value.(thinking := text))) else c
  }

  lemma ToolDeltaKeeps(s: Conv, c: Client, e: StreamEvent, custom: bool)
    requires Tied(s, c) && !s.terminal
    ensures var o := ToolDeltaStep(s, e, custom);
            && Keeps(o, c, if custom || e.delta == "" then c else ToolDeltaEffect(c, e.delta))
            && (o.err.None? ==> !o.state.terminal)
  {
    if e.delta != "" && MatchesTool(s, e.outputIndex, custom) && !custom {
      ConsumeOne(c, BlockDelta(s.active.value.index, InputJsonDelta(e.delta)));
    }
  }

  function ToolDeltaEffect(c: Client, delta: string): Client {
    if c.Streaming? && c.open.Some? && c.open.value.PartialTool?
    then c.(open := Some(c.open.value.(json := c.open.value.json + delta))) else c
  }

  /** The input of the tool block that a done event closes. */
  function DoneInput(codec: Codec, b: ActiveBlock, arguments: string, input: string): string {
    if b.custom then CustomToolInput(codec, NonEmpty(input, b.buffer))
    else if b.hadDelta then b.buffer
    else NonEmpty(arguments, EMPTY_OBJECT)
  }

  lemma ToolDoneKeeps(codec: Codec, s: Conv, c: Client, outputIndex: int, arguments: string, input: string,
                      custom: bool)
    requires Tied(s, c) && !s.terminal
    ensures var o := ToolDoneStep(codec, s, outputIndex, arguments, input, custom);
            && (o.err.None? ==> MatchesTool(s, outputIndex, custom) && !o.state.terminal)
            && Keeps(o, c, ToolDoneEffect(codec, s, c, arguments, input))
  {
    if MatchesTool(s, outputIndex, custom) {
      var b := s.active.value;
      var json := DoneInput(codec, b, arguments, input);
      if b.hadDelta {
        CloseTied(s, c);
        assert [] + CloseActive(s).events == CloseActive(s).events;
      } else {
        LateInput(s, c, json);
      }
    }
  }

  /** A tool block whose whole input comes with its done event. */
  lemma LateInput(s: Conv, c: Client, json: string)
    requires TiedStreaming(s, c) && Tied(s, c) && !s.terminal && s.messageStarted
    requires s.active.Some? && s.active.value.kind.ToolKind? && !s.active.value.hadDelta && json != ""
    ensures var b, closed := s.active.value, CloseActive(s);
            Keeps(Outcome(closed.state, [BlockDelta(b.index, InputJsonDelta(json))] + closed.events, None), c,
                  Streaming(c.message, c.done + [ToolUseBlock(b.callId, b.toolName, json)], None))
  {
    var b := s.active.value;
    var e := BlockDelta(b.index, InputJsonDelta(json));
    var filled := s.(active := Some(b.(buffer := json, custom := false, hadDelta := true)));
    var c' := c.(open := Some(c.open.value.(json := json)));
    assert "" + json == json;
    ConsumeOne(c, e);
    HasToolKept(filled, c', s, c);
    FragmentThenClose(c, Outcome(filled, [e], None), c');
  }

  lemma HasToolKept(s': Conv, c': Client, s: Conv, c: Client)
    requires TiedStreaming(s, c) && c'.Streaming? && c'.open.Some? && c.open.Some?
    requires c' == c.(open := c'.open) && c'.open.value.PartialTool? && c.open.value.PartialTool?
    requires s' == s.(active := s'.active) && s'.active.Some? && s'.active.value.index == s.nextBlockIndex
    requires BlockTied(s'.active.value, c'.open.value)
    ensures TiedStreaming(s', c')
  {
  }

  function ToolDoneEffect(codec: Codec, s: Conv, c: Client, arguments: string, input: string): Client {
    if c.Streaming? && s.active.Some? then
      var b := s.active.value;
      Streaming(c.message, c.done + [ToolUseBlock(b.callId, b.toolName, DoneInput(codec, b, arguments, input))], None)
    else c
  }

  lemma ItemDoneKeeps(codec: Codec, s: Conv, c: Client, e: StreamEvent)
    requires Tied(s, c) && !s.terminal
    ensures var o := ItemDoneStep(codec, s, e);
            && Keeps(o, c, ItemDoneEffect(codec, s, c, e))
            && (o.err.None? ==> !o.state.terminal)
  {
    if e.item.Some? && s.active.Some? && s.active.value.outputIndex == e.outputIndex {
      var item, b := e.item.value, s.active.value;
      match item.kind {
        case Reasoning => CloseTied(SignedBy(s, item.encryptedContent), c);
        case FunctionCall => ToolDoneKeeps(codec, s, c, e.outputIndex, item.arguments, "", false);
        case CustomToolCall => ToolDoneKeeps(codec, s, c, e.outputIndex, "", item.input, true);
        case _ => CloseTied(s, c);
      }
    }
  }

  function SignedBy(s: Conv, signature: string): Conv {
    if s.active.None? then s
    else s.(active := Some(s.active.value.(signature := NonEmpty(signature, s.active.value.signature))))
  }

  function ItemDoneEffect(codec: Codec, s: Conv, c: Client, e: StreamEvent): Client {
    if e.item.None? || s.active.None? then c
    else match e.item.value.kind
      case Reasoning => Closed(SignedBy(s, e.item.value.encryptedContent), c)
      case FunctionCall => ToolDoneEffect(codec, s, c, e.item.value.arguments, "")
      case CustomToolCall => ToolDoneEffect(codec, s, c, "", e.item.value.input)
      case Message => if s.active.value.kind.TextKind? then Closed(s, c) else c
      case _ => c
  }

  // ---- The end of the message ----------------------------------------------

  /** A block as streaming shows it: a blank signature is never sent. */
  function Visible(b: ContentBlock): ContentBlock {
    if b.ThinkingBlock? && IsBlank(b.signature) then ThinkingBlock(b.thinking, "") else b
  }

  function VisibleAll(blocks: seq<ContentBlock>): seq<ContentBlock> {
    seq(|blocks|, i requires 0 <= i < |blocks| => Visible(blocks[i]))
  }

  lemma VisibleHasTool(blocks: seq<ContentBlock>)
    ensures HasTool(VisibleAll(blocks)) <==> HasTool(blocks)
  {
    assert forall i | 0 <= i < |blocks| :: VisibleAll(blocks)[i].ToolUseBlock? <==> blocks[i].ToolUseBlock?;
  }

  /** The streamed form of a block is received as the block. */
  lemma StreamedBlockReceived(b: ContentBlock)
    requires b.ToolUseBlock? ==> b.input != ""
    ensures Received(TraceOf(b)).Some? && Finish(Received(TraceOf(b)).value) == Visible(b)
  {
    var start := EmptyForm(b);
    ReceivedNone(start);
    match b {
      case TextBlock(text) =>
        if text != "" { ReceivedOne(start, TextDelta(text)); }
        assert "" + text == text;
      case ThinkingBlock(thinking, signature) =>
        assert "" + thinking == thinking;
        var signed := SignatureDelta(signature);
        if thinking == "" {
          assert [] + [signed] == [signed];
          ReceivedOne(start, signed);
        } else {
          var thought := ThinkingDelta(thinking);
          ReceivedOne(start, thought);
          assert [thought] + [] == [thought];
          assert ([thought] + [signed])[..1] == [thought];
        }
      case ToolUseBlock(_, _, input) =>
        assert "" + input == input;
        ReceivedOne(start, InputJsonDelta(input));
    }
  }

  lemma ReceivedNone(start: ContentBlock)
    ensures Received(Trace(start, [])) == Begin(start)
  {
  }

  lemma ReceivedOne(start: ContentBlock, d: Delta)
    requires Begin(start).Some?
    ensures Received(Trace(start, [d])) == Extend(Begin(start).value, d)
  {
    assert [d][..0] == [];
  }

  /** Streaming a complete output is inverse to the client's reassembly: it gives
      back the buffered blocks, numbered on from the client's own count. */
  lemma TerminalOnlyStreaming(codec: Codec, output: seq<OutputItem>, c: Client)
    requires c.Streaming? && c.open == None && OutputBlocks(codec, output).Ok?
    ensures var blocks := OutputBlocks(codec, output).value;
            ConsumeAll(c, TraceEvents(|c.done|, TracesOf(blocks))) == c.(done := c.done + VisibleAll(blocks))
  {
    var blocks := OutputBlocks(codec, output).value;
    InputsNonEmpty(codec, output);
    forall i | 0 <= i < |blocks|
      ensures Received(TracesOf(blocks)[i]).Some? && Finish(Received(TracesOf(blocks)[i]).value) == Visible(blocks[i])
    {
      StreamedBlockReceived(blocks[i]);
    }
    ReceiveBlocks(c, TracesOf(blocks));
    assert Assembled(TracesOf(blocks)) == VisibleAll(blocks);
  }

  lemma {:induction false} InputsNonEmpty(codec: Codec, output: seq<OutputItem>)
    requires OutputBlocks(codec, output).Ok?
    ensures forall b | b in OutputBlocks(codec, output).value && b.ToolUseBlock? :: b.input != ""
  {
    if output != [] {
      InputsNonEmpty(codec, output[..|output| - 1]);
      TextsAreTexts(output[|output| - 1].content);
    }
  }

  lemma {:induction false} TextsAreTexts(content: seq<ContentPart>)
    ensures forall b | b in TextBlocksOf(content) :: b.TextBlock? && b.text != ""
  {
    if content != [] {
      TextsAreTexts(content[..|content| - 1]);
    }
  }

  /** Nothing has been shown yet and the terminal event brings the output. */
  predicate StreamsOutput(s: Conv, e: StreamEvent) {
    !s.sawContent && e.response.Some? && e.response.value.output != []
  }

  /** The content of the message a terminal event completes. */
  function EndContentOf(codec: Codec, s: Conv, c: Client, e: StreamEvent): seq<ContentBlock> {
    if StreamsOutput(s, e) then
      var blocks := OutputBlocks(codec, e.response.value.output);
      if blocks.Ok? then VisibleAll(blocks.value) else []
    else
      var closed := Closed(s, Begun(s, c));
      if closed.Streaming? then closed.done else []
  }

  lemma EndContentKeeps(codec: Codec, s: Conv, c: Client, e: StreamEvent)
    requires Tied(s, c) && !s.terminal
    ensures var o := EndContent(codec, s, e);
            if o.err.Some? then o.events == [] && o.state.terminal && o.state.terminalErr == o.err
            else
              var content := EndContentOf(codec, s, c, e);
              && !o.state.terminal && o.state.terminalErr == None && o.state.messageStarted
              && ConsumeAll(c, o.events) == Streaming(Begun(s, c).message, content, None)
              && (o.state.hasTool <==> HasTool(content))
    ensures EndContent(codec, s, e).err ==
            (if StreamsOutput(s, e) && OutputBlocks(codec, e.response.value.output).Err?
             then Some(OutputBlocks(codec, e.response.value.output).error) else None)
  {
    var started := EnsureStart(s);
    var begun := Begun(s, c);
    EnsureStartTied(s, c);
    if StreamsOutput(s, e) {
      var blocks := OutputBlocks(codec, e.response.value.output);
      if blocks.Ok? {
        TerminalOnlyStreaming(codec, e.response.value.output, begun);
        var full := TraceEvents(s.nextBlockIndex, TracesOf(blocks.value));
        assert [] + VisibleAll(blocks.value) == VisibleAll(blocks.value);
        Chain(c, started.events + full, started.events, begun, full, begun.(done := VisibleAll(blocks.value)));
        VisibleHasTool(blocks.value);
      }
    } else {
      var closed := CloseActive(started.state);
      CloseTied(started.state, begun);
      Chain(c, started.events + closed.events, started.events, begun, closed.events, Closed(started.state, begun));
    }
  }

  lemma TerminalKeeps(codec: Codec, s: Conv, c: Client, e: StreamEvent)
    requires Tied(s, c) && !s.terminal
    ensures var o, content := TerminalStep(codec, s, e), EndContentOf(codec, s, c, e);
            && Keeps(o, c, Ended(Begun(s, c).message, content,
                                 StopReasonFor(FinalStatus(e), FinalReason(e), HasTool(content)),
                                 ConvertUsage(FinalUsage(e)), true))
            && o.state.terminal
  {
    if !ReportsFailure(e) {
      EndContentKeeps(codec, s, c, e);
      var body := EndContent(codec, s, e);
      if body.err.None? {
        EndingEvents(c, body.events, Begun(s, c).message, EndContentOf(codec, s, c, e),
                     StopReasonFor(FinalStatus(e), FinalReason(e), body.state.hasTool), ConvertUsage(FinalUsage(e)));
      }
    }
  }

  lemma EndingEvents(c: Client, events: seq<ClientEvent>, message: MessageResponse, content: seq<ContentBlock>,
                     stopReason: StopReason, usage: TokenCount)
    requires ConsumeAll(c, events) == Streaming(message, content, None)
    ensures ConsumeAll(c, events + [MessageDelta(stopReason, usage), MessageStop]) ==
            Ended(message, content, stopReason, usage, true)
  {
    ConsumeTwo(Streaming(message, content, None), MessageDelta(stopReason, usage), MessageStop);
    ConsumeAllConcat(c, events, [MessageDelta(stopReason, usage), MessageStop]);
  }

  // ---- Every event, every run ----------------------------------------------

  lemma CaptureTied(s: Conv, c: Client, response: Option<Response>)
    requires Tied(s, c)
    ensures Tied(CaptureMetadata(s, response), c)
  {
  }

  /** Every event keeps the tie, or fails without emitting anything. */
  lemma StepKeeps(codec: Codec, s: Conv, c: Client, e: StreamEvent)
    requires Tied(s, c)
    ensures Sound(s, c, e, Step(codec, s, e))
  {
    if !s.terminal {
      var t := CaptureMetadata(s, e.response);
      CaptureTied(s, c, e.response);
      if e.kind.ArgumentsDelta? || e.kind.CustomInputDelta? || e.kind.ArgumentsDone? || e.kind.CustomInputDone? {
        ToolKeeps(codec, t, c, e);
      } else if IsTerminal(e.kind) {
        TerminalKeeps(codec, t, c, e);
      } else {
        ContentKeeps(codec, t, c, e);
      }
    }
  }

  ghost predicate Sound(s: Conv, c: Client, e: StreamEvent, o: Outcome) {
    && Keeps(o, c, ConsumeAll(c, o.events))
    && (o.err.None? ==> (o.state.terminal <==> s.terminal || IsTerminal(e.kind)))
  }

  lemma ToolKeeps(codec: Codec, s: Conv, c: Client, e: StreamEvent)
    requires Tied(s, c) && !s.terminal
    requires e.kind.ArgumentsDelta? || e.kind.CustomInputDelta? || e.kind.ArgumentsDone? || e.kind.CustomInputDone?
    ensures Sound(s, c, e, Handle(codec, s, e))
  {
    if e.kind.ArgumentsDelta? || e.kind.CustomInputDelta? {
      ToolDeltaKeeps(s, c, e, e.kind.CustomInputDelta?);
    } else {
      ToolDoneEventKeeps(codec, s, c, e);
    }
  }

  lemma ToolDoneEventKeeps(codec: Codec, s: Conv, c: Client, e: StreamEvent)
    requires Tied(s, c) && !s.terminal && (e.kind.ArgumentsDone? || e.kind.CustomInputDone?)
    ensures Sound(s, c, e, Handle(codec, s, e))
  {
    if e.kind.ArgumentsDone? {
      ToolDoneKeeps(codec, s, c, e.outputIndex, e.arguments, "", false);
    } else {
      ToolDoneKeeps(codec, s, c, e.outputIndex, "", e.input, true);
    }
  }

  lemma ContentKeeps(codec: Codec, s: Conv, c: Client, e: StreamEvent)
    requires Tied(s, c) && !s.terminal && !IsTerminal(e.kind)
    requires !e.kind.ArgumentsDelta? && !e.kind.CustomInputDelta? && !e.kind.ArgumentsDone? && !e.kind.CustomInputDone?
    ensures Sound(s, c, e, Handle(codec, s, e))
  {
    match e.kind {
      case CreatedKind => EnsureStartTied(s, c);
      case ItemAdded => ItemAddedKeeps(s, c, e);
      case ItemDone => ItemDoneKeeps(codec, s, c, e);
      case TextDeltaKind => TextDeltaKeeps(codec, s, c, e);
      case TextDoneKind => TextDoneKeeps(s, c, e);
      case ErrorKind =>
      case FailedKind =>
      case OtherKind(_) =>
      case SummaryDelta => ThoughtDeltaKeeps(codec, s, c, e);
      case ReasoningTextDelta => ThoughtDeltaKeeps(codec, s, c, e);
      case _ => ThoughtDoneKeeps(codec, s, c, e);
    }
  }

  lemma TextDeltaKeeps(codec: Codec, s: Conv, c: Client, e: StreamEvent)
    requires Tied(s, c) && !s.terminal && e.kind.TextDeltaKind?
    ensures Sound(s, c, e, Handle(codec, s, e))
  {
    if e.delta != "" {
      FragmentKeeps(s, c, TextKind, e.outputIndex, TextBlock(""), TextDelta(e.delta));
    }
  }

  lemma ThoughtDeltaKeeps(codec: Codec, s: Conv, c: Client, e: StreamEvent)
    requires Tied(s, c) && !s.terminal && IsReasoningDelta(e.kind)
    ensures Sound(s, c, e, Handle(codec, s, e))
  {
    ReasoningDeltaKeeps(s, c, e);
    ThoughtDeltaHandled(codec, s, e);
    SoundFrom(s, c, e, ReasoningDeltaStep(s, e.outputIndex, e.delta));
  }

  lemma ThoughtDeltaHandled(codec: Codec, s: Conv, e: StreamEvent)
    requires IsReasoningDelta(e.kind)
    ensures Handle(codec, s, e) == ReasoningDeltaStep(s, e.outputIndex, e.delta)
  {
  }

  lemma SoundFrom(s: Conv, c: Client, e: StreamEvent, o: Outcome)
    requires Keeps(o, c, ConsumeAll(c, o.events)) && !o.state.terminal && !s.terminal && !IsTerminal(e.kind)
    ensures Sound(s, c, e, o)
  {
  }

  lemma ThoughtDoneKeeps(codec: Codec, s: Conv, c: Client, e: StreamEvent)
    requires Tied(s, c) && !s.terminal && IsReasoningDone(e.kind)
    ensures Sound(s, c, e, Handle(codec, s, e))
  {
    ReasoningDoneKeeps(s, c, e);
  }

  lemma ItemAddedKeeps(s: Conv, c: Client, e: StreamEvent)
    requires Tied(s, c) && !s.terminal
    ensures Keeps(ItemAddedStep(s, e), c, ConsumeAll(c, ItemAddedStep(s, e).events))
    ensures ItemAddedStep(s, e).err == None && !ItemAddedStep(s, e).state.terminal
  {
    if e.item.Some? {
      match e.item.value.kind {
        case FunctionCall => OpenToolKeeps(s, c, e.outputIndex, e.item.value, false);
        case CustomToolCall => OpenToolKeeps(s, c, e.outputIndex, e.item.value, true);
        case Reasoning => OpenReasoningKeeps(s, c, e);
        case _ => EnsureStartTied(s, c);
      }
    }
  }

  lemma ReasoningDeltaKeeps(s: Conv, c: Client, e: StreamEvent)
    requires Tied(s, c) && !s.terminal
    ensures var o := ReasoningDeltaStep(s, e.outputIndex, e.delta);
            Keeps(o, c, ConsumeAll(c, o.events)) && o.err == None && !o.state.terminal
  {
    if e.delta != "" {
      FragmentKeeps(s, c, ThinkingKind, e.outputIndex, ThinkingBlock("", ""), ThinkingDelta(e.delta));
    }
  }

  /** The whole of a run: either the tie holds, or the run failed with the
      message unfinished. */
  ghost predicate RunTied(s: Conv, c: Client) {
    if s.terminalErr.None? then Tied(s, c) else s.terminal && (c.Waiting? || c.Streaming?)
  }

  lemma {:induction false} EveryRunTied(codec: Codec, model: string, es: seq<StreamEvent>)
    ensures var r := Run(codec, Initial(model), es); RunTied(r.state, ConsumeAll(Waiting, r.events))
  {
    if es != [] {
      EveryRunTied(codec, model, es[..|es| - 1]);
      var before := Run(codec, Initial(model), es[..|es| - 1]);
      RunTiedStep(codec, before.state, ConsumeAll(Waiting, before.events), es[|es| - 1]);
      ConsumeAllConcat(Waiting, before.events, Step(codec, before.state, es[|es| - 1]).events);
    }
  }

  lemma RunTiedStep(codec: Codec, s: Conv, c: Client, e: StreamEvent)
    requires RunTied(s, c)
    ensures var o := Step(codec, s, e); RunTied(o.state, ConsumeAll(c, o.events))
  {
    if s.terminalErr.None? {
      StepKeeps(codec, s, c, e);
    }
  }

  /** The emitted events of every run, for every event sequence whatsoever, are a
      prefix of a legal sentence; they are a whole sentence exactly when the run
      has succeeded, exactly when a message_stop was emitted; and a failed run
      emits neither message_delta nor message_stop. */
  lemma StreamGrammar(codec: Codec, model: string, es: seq<StreamEvent>)
    ensures var r := Run(codec, Initial(model), es);
            && (exists s :: LegalSentence(s) && r.events <= SentenceEvents(s))
            && (FinalError(r.state) == None <==> exists s :: LegalSentence(s) && r.events == SentenceEvents(s))
            && (FinalError(r.state) == None <==> MessageStop in r.events)
            && (FinalError(r.state) == None <==> exists e :: e in r.events && e.MessageDelta?)
  {
    var r := Run(codec, Initial(model), es);
    EveryRunTied(codec, model, es);
    UnbrokenIffPrefix(r.events);
    CompleteIffSentence(r.events);
    EndingMarks(r.events);
    assert (exists s :: LegalSentence(s) && SentenceEvents(s) == r.events) <==>
           (exists s :: LegalSentence(s) && r.events == SentenceEvents(s));
  }

  lemma {:induction false} EndingMarks(events: seq<ClientEvent>)
    requires ConsumeAll(Waiting, events) != Broken
    ensures MessageStop in events <==> IsComplete(ConsumeAll(Waiting, events))
    ensures (exists e :: e in events && e.MessageDelta?) <==> ConsumeAll(Waiting, events).Ended?
  {
    if events != [] {
      var n := |events| - 1;
      EndingMarks(events[..n]);
      assert events == events[..n] + [events[n]];
      if events[n].MessageDelta? {
        assert events[n] in events;
      }
      if e :| e in events[..n] && e.MessageDelta? {
        assert e in events;
      }
    }
  }

  /** The terminal output is streamed in full only from scratch: with no block open and
      none counted, and every block of it is counted. */
  lemma FullOutputFromScratch(codec: Codec, model: string, es: seq<StreamEvent>, e: StreamEvent)
    requires var s := Run(codec, Initial(model), es).state;
             !s.terminal && IsTerminal(e.kind) && !ReportsFailure(e) && StreamsOutput(s, e)
    ensures var s := Run(codec, Initial(model), es).state;
            var blocks := OutputBlocks(codec, e.response.value.output);
            && s.active == None && s.nextBlockIndex == 0
            && (blocks.Ok? ==>
                  Step(codec, s, e).state.nextBlockIndex == |blocks.value| && Step(codec, s, e).err == None)
  {
    var r := Run(codec, Initial(model), es);
    EveryRunTied(codec, model, es);
    NothingSeen(r.state, ConsumeAll(Waiting, r.events));
    FullOutputCounted(codec, r.state, e);
  }

  lemma NothingSeen(s: Conv, c: Client)
    requires RunTied(s, c) && !s.terminal && !s.sawContent
    ensures s.active == None && s.nextBlockIndex == 0
  {
  }

  lemma FullOutputCounted(codec: Codec, s: Conv, e: StreamEvent)
    requires !s.terminal && IsTerminal(e.kind) && !ReportsFailure(e) && StreamsOutput(s, e) && s.nextBlockIndex == 0
    ensures var blocks := OutputBlocks(codec, e.response.value.output);
            blocks.Ok? ==> Step(codec, s, e).state.nextBlockIndex == |blocks.value| && Step(codec, s, e).err == None
  {
    TerminalCounts(codec, CaptureMetadata(s, e.response), e);
    TerminalIsStep(codec, s, e);
  }

  lemma TerminalIsStep(codec: Codec, s: Conv, e: StreamEvent)
    requires !s.terminal && IsTerminal(e.kind)
    ensures Step(codec, s, e) == TerminalStep(codec, CaptureMetadata(s, e.response), e)
  {
  }

  lemma TerminalCounts(codec: Codec, s: Conv, e: StreamEvent)
    requires !ReportsFailure(e) && StreamsOutput(s, e) && s.nextBlockIndex == 0
    ensures var blocks := OutputBlocks(codec, e.response.value.output);
            var o := TerminalStep(codec, s, e);
            blocks.Ok? ==> o.state.nextBlockIndex == |blocks.value| && o.err == None
  {
  }
}
