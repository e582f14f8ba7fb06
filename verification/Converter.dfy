/** The stream converter: Responses events in, Anthropic stream events out. The
    functions say what each event does; the class at the end is the converter,
    whose methods update its fields and the active block in place. */
module Converter {
  import opened Text
  import opened Protocol
  import opened Blocks

  datatype BlockKind = TextKind | ThinkingKind | ToolKind

  datatype ActiveBlock = ActiveBlock(
    index: int, outputIndex: int, kind: BlockKind, callId: string, toolName: string, custom: bool,
    buffer: string, hadDelta: bool, signature: string)

  datatype Conv = Conv(
    model: string, responseId: string, messageStarted: bool, terminal: bool, terminalErr: Option<Error>,
    hasTool: bool, sawContent: bool, nextBlockIndex: int, active: Option<ActiveBlock>)

  function Initial(model: string): Conv {
    Conv(model, "", false, false, None, false, false, 0, None)
  }

  /** The state after a call, what it emitted and the error it returned. */
  datatype Outcome = Outcome(state: Conv, events: seq<ClientEvent>, err: Option<Error>)

  datatype Emit = Emit(state: Conv, events: seq<ClientEvent>)

  function Quiet(s: Conv): Outcome {
    Outcome(s, [], None)
  }

  function Fail(s: Conv, err: Error): Outcome {
    Outcome(s.(terminal := true, terminalErr := Some(err)), [], Some(err))
  }

  function CaptureMetadata(s: Conv, response: Option<Response>): Conv {
    if response.None? then s
    else
      var r := response.value;
      s.(responseId := NonEmpty(r.id, s.responseId), model := NonEmpty(s.model, r.model))
  }

  function StartMessage(s: Conv): MessageResponse {
    MessageResponse(s.responseId, s.model, [], None, NO_TOKENS)
  }

  function EnsureStart(s: Conv): Emit {
    if s.messageStarted then Emit(s, [])
    else Emit(s.(messageStarted := true), [MessageStart(StartMessage(s))])
  }

  function SignatureEvents(b: ActiveBlock): seq<ClientEvent> {
    if b.kind.ThinkingKind? && !IsBlank(b.signature) then [BlockDelta(b.index, SignatureDelta(b.signature))] else []
  }

  function CloseActive(s: Conv): Emit {
    if s.active.None? then Emit(s, [])
    else
      var b := s.active.value;
      Emit(s.(active := None, nextBlockIndex := s.nextBlockIndex + 1), SignatureEvents(b) + [BlockStop(b.index)])
  }

  /** Starts the message if needed, ends the active block and begins another. */
  function Open(s: Conv, b: ActiveBlock, start: ContentBlock): Emit {
    var started := EnsureStart(s);
    var closed := CloseActive(started.state);
    var opened_ := b.(index := closed.state.nextBlockIndex);
    Emit(closed.state.(active := Some(opened_)),
         started.events + closed.events + [BlockStart(opened_.index, start)])
  }

  function NewBlock(outputIndex: int, kind: BlockKind): ActiveBlock {
    ActiveBlock(0, outputIndex, kind, "", "", false, "", false, "")
  }

  function ItemAddedStep(s: Conv, e: StreamEvent): Outcome {
    if e.item.None? then Quiet(s)
    else
      var item := e.item.value;
      match item.kind
      case FunctionCall => OpenTool(s, e.outputIndex, item, false)
      case CustomToolCall => OpenTool(s, e.outputIndex, item, true)
      case Reasoning =>
        var b := NewBlock(e.outputIndex, ThinkingKind).(signature := item.encryptedContent);
        var o := Open(s, b, ThinkingBlock("", ""));
        Outcome(o.state.(sawContent := true), o.events, None)
      case _ =>
        var o := EnsureStart(s);
        Outcome(o.state, o.events, None)
  }

  function OpenTool(s: Conv, outputIndex: int, item: OutputItem, custom: bool): Outcome {
    var b := NewBlock(outputIndex, ToolKind).(callId := item.callId, toolName := item.name, custom := custom);
    var o := Open(s, b, ToolUseBlock(item.callId, item.name, EMPTY_OBJECT));
    Outcome(o.state.(hasTool := true, sawContent := true), o.events, None)
  }

  predicate Continues(s: Conv, kind: BlockKind, outputIndex: int) {
    s.active.Some? && s.active.value.kind == kind && s.active.value.outputIndex == outputIndex
  }

  /** A text or reasoning fragment: it extends the active block of its own item
      and kind, or begins a new block. */
  function FragmentStep(s: Conv, kind: BlockKind, outputIndex: int, start: ContentBlock, delta: Delta): Outcome {
    var at := if Continues(s, kind, outputIndex) then EnsureStart(s) else Open(s, NewBlock(outputIndex, kind), start);
    var b := at.state.active.value;
    Outcome(at.state.(active := Some(b.(hadDelta := true)), sawContent := true),
            at.events + [BlockDelta(b.index, delta)], None)
  }

  function TextDeltaStep(s: Conv, outputIndex: int, text: string): Outcome {
    if text == "" then Quiet(s)
    else FragmentStep(s, TextKind, outputIndex, TextBlock(""), TextDelta(text))
  }

  function ReasoningDeltaStep(s: Conv, outputIndex: int, text: string): Outcome {
    if text == "" then Quiet(s)
    else FragmentStep(s, ThinkingKind, outputIndex, ThinkingBlock("", ""), ThinkingDelta(text))
  }

  function LateText(s: Conv, text: string, delta: Delta): Emit
    requires s.active.Some?
  {
    var b := s.active.value;
    if !b.hadDelta && text != "" then
      Emit(s.(active := Some(b.(hadDelta := true))), [BlockDelta(b.index, delta)])
    else Emit(s, [])
  }

  function TextDoneStep(s: Conv, e: StreamEvent): Outcome {
    if s.active.None? then
      if e.text == "" then Quiet(s)
      else
        var o := TextDeltaStep(s, e.outputIndex, e.text);
        var closed := CloseActive(o.state);
        Outcome(closed.state, o.events + closed.events, None)
    else if s.active.value.kind.TextKind? then
      var late := LateText(s, e.text, TextDelta(e.text));
      var closed := CloseActive(late.state);
      Outcome(closed.state, late.events + closed.events, None)
    else Quiet(s)
  }

  function ReasoningDoneStep(s: Conv, e: StreamEvent): Outcome {
    if s.active.Some? && s.active.value.kind.ThinkingKind? then
      var late := LateText(s, e.text, ThinkingDelta(e.text));
      Outcome(late.state, late.events, None)
    else Quiet(s)
  }

  predicate MatchesTool(s: Conv, outputIndex: int, custom: bool) {
    Continues(s, ToolKind, outputIndex) && s.active.value.custom == custom
  }

  function ToolDeltaStep(s: Conv, e: StreamEvent, custom: bool): Outcome {
    if e.delta == "" then Quiet(s)
    else if !MatchesTool(s, e.outputIndex, custom) then Fail(s, ToolDeltaMismatch)
    else
      var b := s.active.value;
      var longer := b.(buffer := b.buffer + e.delta);
      if custom then Quiet(s.(active := Some(longer)))
      else Outcome(s.(active := Some(longer.(hadDelta := true))),
                   [BlockDelta(b.index, InputJsonDelta(e.delta))], None)
  }

  function ToolDoneStep(codec: Codec, s: Conv, outputIndex: int, arguments: string, input: string,
      custom: bool): Outcome {
    if !MatchesTool(s, outputIndex, custom) then Fail(s, ToolDoneMismatch)
    else
      var b := s.active.value;
      if custom then
        var json := CustomToolInput(codec, NonEmpty(input, b.buffer));
        var closed := CloseActive(s);
        Outcome(closed.state, [BlockDelta(b.index, InputJsonDelta(json))] + closed.events, None)
      else
        var whole := NonEmpty(arguments, b.buffer);
        if FunctionToolInput(codec, whole).None? then Fail(s, BadArguments(b.toolName))
        else
          var late := if b.hadDelta then [] else [BlockDelta(b.index, InputJsonDelta(NonEmpty(whole, EMPTY_OBJECT)))];
          var closed := CloseActive(s);
          Outcome(closed.state, late + closed.events, None)
  }

  function ItemDoneStep(codec: Codec, s: Conv, e: StreamEvent): Outcome {
    if e.item.None? || s.active.None? then Quiet(s)
    else
      var item, b := e.item.value, s.active.value;
      if b.outputIndex != e.outputIndex then Fail(s, ItemDoneMismatch)
      else match item.kind
        case Reasoning =>
          var signed := s.(active := Some(b.(signature := NonEmpty(item.encryptedContent, b.signature))));
          var closed := CloseActive(signed);
          Outcome(closed.state, closed.events, None)
        case FunctionCall => ToolDoneStep(codec, s, e.outputIndex, item.arguments, "", false)
        case CustomToolCall => ToolDoneStep(codec, s, e.outputIndex, "", item.input, true)
        case Message =>
          if b.kind.TextKind? then
            var closed := CloseActive(s);
            Outcome(closed.state, closed.events, None)
          else Quiet(s)
        case _ => Quiet(s)
  }

  function EmptyForm(block: ContentBlock): ContentBlock {
    match block
    case TextBlock(_) => TextBlock("")
    case ThinkingBlock(_, _) => ThinkingBlock("", "")
    case ToolUseBlock(id, name, _) => ToolUseBlock(id, name, EMPTY_OBJECT)
  }

  function BlockDeltas(block: ContentBlock): seq<Delta> {
    match block
    case TextBlock(text) => if text != "" then [TextDelta(text)] else []
    case ThinkingBlock(thinking, signature) =>
      (if thinking != "" then [ThinkingDelta(thinking)] else []) +
      (if !IsBlank(signature) then [SignatureDelta(signature)] else [])
    case ToolUseBlock(_, _, input) => [InputJsonDelta(input)]
  }

  /** How one finished block is streamed. */
  function TraceOf(block: ContentBlock): Trace {
    Trace(EmptyForm(block), BlockDeltas(block))
  }

  function TracesOf(blocks: seq<ContentBlock>): seq<Trace> {
    seq(|blocks|, i requires 0 <= i < |blocks| => TraceOf(blocks[i]))
  }

  /** The end of the message body: the terminal output in full when nothing was
      streamed before, otherwise just the end of the active block. */
  function EndContent(codec: Codec, s: Conv, e: StreamEvent): Outcome {
    var started := EnsureStart(s);
    if !s.sawContent && e.response.Some? && e.response.value.output != [] then
      var blocks := OutputBlocks(codec, e.response.value.output);
      if blocks.Err? then Fail(started.state, blocks.error)
      else
        Outcome(
          started.state.(hasTool := s.hasTool || HasTool(blocks.value),
                         nextBlockIndex := s.nextBlockIndex + |blocks.value|),
          started.events + TraceEvents(s.nextBlockIndex, TracesOf(blocks.value)), None)
    else
      var closed := CloseActive(started.state);
      Outcome(closed.state, started.events + closed.events, None)
  }

  function TerminalStep(codec: Codec, s: Conv, e: StreamEvent): Outcome {
    if ReportsFailure(e) then Fail(s, ResponseError(e.response.value.error))
    else
      var body := EndContent(codec, s, e);
      if body.err.Some? then body
      else
        var stopReason := StopReasonFor(FinalStatus(e), FinalReason(e), body.state.hasTool);
        Outcome(body.state.(terminal := true),
                body.events + [MessageDelta(stopReason, ConvertUsage(FinalUsage(e))), MessageStop], None)
  }

  function Handle(codec: Codec, s: Conv, e: StreamEvent): Outcome {
    match e.kind
    case ErrorKind => Fail(s, ErrorOf(e))
    case FailedKind => Fail(s, FailureOf(e))
    case CreatedKind =>
      var o := EnsureStart(s);
      Outcome(o.state, o.events, None)
    case ItemAdded => ItemAddedStep(s, e)
    case TextDeltaKind => TextDeltaStep(s, e.outputIndex, e.delta)
    case TextDoneKind => TextDoneStep(s, e)
    case ArgumentsDelta => ToolDeltaStep(s, e, false)
    case CustomInputDelta => ToolDeltaStep(s, e, true)
    case ArgumentsDone => ToolDoneStep(codec, s, e.outputIndex, e.arguments, "", false)
    case CustomInputDone => ToolDoneStep(codec, s, e.outputIndex, "", e.input, true)
    case SummaryDelta => ReasoningDeltaStep(s, e.outputIndex, e.delta)
    case ReasoningTextDelta => ReasoningDeltaStep(s, e.outputIndex, e.delta)
    case SummaryDone => ReasoningDoneStep(s, e)
    case ReasoningTextDone => ReasoningDoneStep(s, e)
    case ItemDone => ItemDoneStep(codec, s, e)
    case CompletedKind => TerminalStep(codec, s, e)
    case DoneKind => TerminalStep(codec, s, e)
    case IncompleteKind => TerminalStep(codec, s, e)
    case OtherKind(_) => Quiet(s)
  }

  function Step(codec: Codec, s: Conv, e: StreamEvent): Outcome {
    if s.terminal then Quiet(s) else Handle(codec, CaptureMetadata(s, e.response), e)
  }

  /** Everything a converter does with a sequence of events. */
  function Run(codec: Codec, s: Conv, es: seq<StreamEvent>): Emit {
    if es == [] then Emit(s, [])
    else
      var before := Run(codec, s, es[..|es| - 1]);
      var o := Step(codec, before.state, es[|es| - 1]);
      Emit(o.state, before.events + o.events)
  }

  function FinalError(s: Conv): Option<Error> {
    if s.terminal then s.terminalErr else Some(MissingTerminal)
  }

  // ---- The converter itself -------------------------------------------------

  class StreamBlock {
    const index: int
    const outputIndex: int
    const kind: BlockKind
    const callId: string
    const toolName: string
    const custom: bool
    var buffer: string
    var hadDelta: bool
    var signature: string

    constructor (b: ActiveBlock)
      ensures Value() == b
    {
      index, outputIndex, kind := b.index, b.outputIndex, b.kind;
      callId, toolName, custom := b.callId, b.toolName, b.custom;
      buffer, hadDelta, signature := b.buffer, b.hadDelta, b.signature;
    }

    function Value(): ActiveBlock
      reads this
    {
      ActiveBlock(index, outputIndex, kind, callId, toolName, custom, buffer, hadDelta, signature)
    }
  }

  class ResponsesStreamConverter {
    const codec: Codec
    var model: string
    var responseId: string
    var messageStarted: bool
    var terminal: bool
    var terminalErr: Option<Error>
    var hasTool: bool
    var sawContent: bool
    var nextBlockIndex: int
    var active: StreamBlock?

    constructor (codec: Codec, model: string)
      ensures State() == Initial(model) && this.codec == codec && active == null
    {
      this.codec := codec;
      this.model := model;
      responseId, messageStarted, terminal, terminalErr := "", false, false, None;
      hasTool, sawContent, nextBlockIndex, active := false, false, 0, null;
    }

    function State(): Conv
      reads this, active
    {
      Conv(model, responseId, messageStarted, terminal, terminalErr, hasTool, sawContent, nextBlockIndex,
           if active == null then None else Some(active.Value()))
    }

    method Process(event: StreamEvent) returns (events: seq<ClientEvent>, err: Option<Error>)
      modifies this, active
      ensures Outcome(State(), events, err) == Step(codec, old(State()), event)
      ensures active == old(active) || active == null || fresh(active)
    {
      if terminal {
        return [], None;
      }
      Capture(event.response);
      match event.kind {
        case ErrorKind => events := []; err := RecordFailure(ErrorOf(event));
        case FailedKind => events := []; err := RecordFailure(FailureOf(event));
        case CreatedKind => err := None; events := EnsureMessageStart();
        case ItemAdded => err := None; events := HandleItemAdded(event);
        case TextDeltaKind => err := None; events := HandleFragment(TextKind, event.outputIndex, event.delta);
        case TextDoneKind => err := None; events := HandleTextDone(event);
        case ArgumentsDelta => events, err := HandleToolDelta(event, false);
        case CustomInputDelta => events, err := HandleToolDelta(event, true);
        case ArgumentsDone => events, err := HandleToolDone(event.outputIndex, event.arguments, "", false);
        case CustomInputDone => events, err := HandleToolDone(event.outputIndex, "", event.input, true);
        case SummaryDelta => err := None; events := HandleFragment(ThinkingKind, event.outputIndex, event.delta);
        case ReasoningTextDelta => err := None; events := HandleFragment(ThinkingKind, event.outputIndex, event.delta);
        case SummaryDone => err := None; events := HandleReasoningDone(event);
        case ReasoningTextDone => err := None; events := HandleReasoningDone(event);
        case ItemDone => events, err := HandleItemDone(event);
        case CompletedKind => events, err := HandleTerminal(event);
        case DoneKind => events, err := HandleTerminal(event);
        case IncompleteKind => events, err := HandleTerminal(event);
        case OtherKind(_) => events, err := [], None;
      }
    }

    /** Verifies that upstream supplied a terminal event. */
    method Finalize() returns (err: Option<Error>)
      ensures err == FinalError(State())
    {
      if terminal {
        return terminalErr;
      }
      return Some(MissingTerminal);
    }

    method Capture(response: Option<Response>)
      modifies this`responseId, this`model
      ensures State() == CaptureMetadata(old(State()), response)
    {
      if response.None? {
        return;
      }
      if response.value.id != "" {
        responseId := response.value.id;
      }
      if model == "" && response.value.model != "" {
        model := response.value.model;
      }
    }

    method RecordFailure(error: Error) returns (err: Option<Error>)
      modifies this`terminal, this`terminalErr
      ensures Outcome(State(), [], err) == Fail(old(State()), error)
    {
      terminal, terminalErr := true, Some(error);
      return Some(error);
    }

    method EnsureMessageStart() returns (events: seq<ClientEvent>)
      modifies this`messageStarted
      ensures Emit(State(), events) == EnsureStart(old(State()))
    {
      if messageStarted {
        return [];
      }
      messageStarted := true;
      return [MessageStart(MessageResponse(responseId, model, [], None, NO_TOKENS))];
    }

    method CloseBlock() returns (events: seq<ClientEvent>)
      modifies this`active, this`nextBlockIndex
      ensures Emit(State(), events) == CloseActive(old(State())) && active == null
    {
      if active == null {
        return [];
      }
      var block := active;
      active, nextBlockIndex := null, nextBlockIndex + 1;
      events := [];
      if block.kind.ThinkingKind? && !IsBlank(block.signature) {
        events := [BlockDelta(block.index, SignatureDelta(block.signature))];
      }
      events := events + [BlockStop(block.index)];
    }

    method OpenBlock(b: ActiveBlock, start: ContentBlock) returns (events: seq<ClientEvent>)
      modifies this
      ensures Emit(State(), events) == Open(old(State()), b, start)
      ensures active != null && fresh(active)
    {
      events := EnsureMessageStart();
      var closing := CloseBlock();
      events := events + closing;
      active := new StreamBlock(b.(index := nextBlockIndex));
      events := events + [BlockStart(active.index, start)];
    }

    method HandleItemAdded(event: StreamEvent) returns (events: seq<ClientEvent>)
      modifies this
      ensures Outcome(State(), events, None) == ItemAddedStep(old(State()), event)
      ensures active == old(active) || fresh(active)
    {
      if event.item.None? {
        return [];
      }
      var item := event.item.value;
      if item.kind.FunctionCall? || item.kind.CustomToolCall? {
        var b := NewBlock(event.outputIndex, ToolKind)
          .(callId := item.callId, toolName := item.name, custom := item.kind.CustomToolCall?);
        events := OpenBlock(b, ToolUseBlock(item.callId, item.name, EMPTY_OBJECT));
        hasTool, sawContent := true, true;
      } else if item.kind.Reasoning? {
        var b := NewBlock(event.outputIndex, ThinkingKind).(signature := item.encryptedContent);
        events := OpenBlock(b, ThinkingBlock("", ""));
        sawContent := true;
      } else {
        events := EnsureMessageStart();
      }
    }

    /** A text or reasoning delta. */
    method HandleFragment(kind: BlockKind, outputIndex: int, text: string) returns (events: seq<ClientEvent>)
      requires !kind.ToolKind?
      modifies this, active
      ensures Outcome(State(), events, None) ==
              if kind.TextKind? then TextDeltaStep(old(State()), outputIndex, text)
              else ReasoningDeltaStep(old(State()), outputIndex, text)
      ensures active == old(active) || fresh(active)
    {
      if text == "" {
        return [];
      }
      if active == null || active.kind != kind || active.outputIndex != outputIndex {
        events := OpenBlock(NewBlock(outputIndex, kind), if kind.TextKind? then TextBlock("") else ThinkingBlock("",
            ""));
      } else {
        events := EnsureMessageStart();
      }
      active.hadDelta := true;
      sawContent := true;
      events := events + [BlockDelta(active.index, if kind.TextKind? then TextDelta(text) else ThinkingDelta(text))];
    }

    method HandleTextDone(event: StreamEvent) returns (events: seq<ClientEvent>)
      modifies this, active
      ensures Outcome(State(), events, None) == TextDoneStep(old(State()), event)
      ensures active == old(active) || active == null || fresh(active)
    {
      events := [];
      if active == null {
        events := HandleFragment(TextKind, event.outputIndex, event.text);
      } else if active.kind.TextKind? && !active.hadDelta && event.text != "" {
        active.hadDelta := true;
        events := [BlockDelta(active.index, TextDelta(event.text))];
      }
      if active != null && active.kind.TextKind? {
        var closing := CloseBlock();
        events := events + closing;
      }
    }

    method HandleReasoningDone(event: StreamEvent) returns (events: seq<ClientEvent>)
      modifies active
      ensures Outcome(State(), events, None) == ReasoningDoneStep(old(State()), event)
    {
      if active != null && active.kind.ThinkingKind? && !active.hadDelta && event.text != "" {
        active.hadDelta := true;
        return [BlockDelta(active.index, ThinkingDelta(event.text))];
      }
      return [];
    }

    method HandleToolDelta(event: StreamEvent, custom: bool) returns (events: seq<ClientEvent>, err: Option<Error>)
      modifies this`terminal, this`terminalErr, active
      ensures Outcome(State(), events, err) == ToolDeltaStep(old(State()), event, custom)
    {
      if event.delta == "" {
        return [], None;
      }
      if active == null || !active.kind.ToolKind? || active.outputIndex != event.outputIndex
          || active.custom != custom {
        err := RecordFailure(ToolDeltaMismatch);
        return [], err;
      }
      active.buffer := active.buffer + event.delta;
      if custom {
        return [], None;
      }
      active.hadDelta := true;
      return [BlockDelta(active.index, InputJsonDelta(event.delta))], None;
    }

    method HandleToolDone(outputIndex: int, arguments: string, input: string, custom: bool)
      returns (events: seq<ClientEvent>, err: Option<Error>)
      modifies this
      ensures Outcome(State(), events, err) ==
              ToolDoneStep(codec, old(State()), outputIndex, arguments, input, custom)
      ensures active == old(active) || active == null
    {
      if active == null || !active.kind.ToolKind? || active.outputIndex != outputIndex || active.custom != custom {
        err := RecordFailure(ToolDoneMismatch);
        return [], err;
      }
      events := [];
      if custom {
        var whole := input;
        if whole == "" {
          whole := active.buffer;
        }
        events := [BlockDelta(active.index, InputJsonDelta(CustomToolInput(codec, whole)))];
      } else {
        var whole := arguments;
        if whole == "" {
          whole := active.buffer;
        }
        if FunctionToolInput(codec, whole).None? {
          err := RecordFailure(BadArguments(active.toolName));
          return [], err;
        }
        if !active.hadDelta {
          if whole == "" {
            whole := EMPTY_OBJECT;
          }
          events := [BlockDelta(active.index, InputJsonDelta(whole))];
        }
      }
      var closing := CloseBlock();
      return events + closing, None;
    }

    method HandleItemDone(event: StreamEvent) returns (events: seq<ClientEvent>, err: Option<Error>)
      modifies this, active
      ensures Outcome(State(), events, err) == ItemDoneStep(codec, old(State()), event)
      ensures active == old(active) || active == null
    {
      if event.item.None? || active == null {
        return [], None;
      }
      var item := event.item.value;
      if active.outputIndex != event.outputIndex {
        err := RecordFailure(ItemDoneMismatch);
        return [], err;
      }
      events, err := [], None;
      match item.kind {
        case Reasoning =>
          if item.encryptedContent != "" {
            active.signature := item.encryptedContent;
          }
          events := CloseBlock();
        case FunctionCall => events, err := HandleToolDone(event.outputIndex, item.arguments, "", false);
        case CustomToolCall => events, err := HandleToolDone(event.outputIndex, "", item.input, true);
        case Message =>
          if active.kind.TextKind? {
            events := CloseBlock();
          }
        case _ =>
      }
    }

    method StreamTerminalOutput(output: seq<OutputItem>) returns (full: Result<seq<ClientEvent>, Error>)
      modifies this`hasTool, this`nextBlockIndex
      ensures var blocks := OutputBlocks(codec, output);
              if blocks.Ok? then
                && full == Ok(TraceEvents(old(nextBlockIndex), TracesOf(blocks.value)))
                && hasTool == (old(hasTool) || HasTool(blocks.value))
                && nextBlockIndex == old(nextBlockIndex) + |blocks.value|
              else full == Err(blocks.error) && hasTool == old(hasTool) && nextBlockIndex == old(nextBlockIndex)
    {
      var tool;
      full, tool := StreamFullOutput(codec, output, nextBlockIndex);
      if full.Err? {
        return;
      }
      hasTool := hasTool || tool;
      var stops := CountStops(full.value);
      TraceEventsStops(nextBlockIndex, TracesOf(OutputBlocks(codec, output).value));
      nextBlockIndex := nextBlockIndex + stops;
    }

    method EndContentOf(event: StreamEvent) returns (events: seq<ClientEvent>, err: Option<Error>)
      modifies this
      ensures Outcome(State(), events, err) == EndContent(codec, old(State()), event)
      ensures active == old(active) || active == null
    {
      events := EnsureMessageStart();
      if !sawContent && event.response.Some? && |event.response.value.output| > 0 {
        events, err := EndWithOutput(events, event.response.value.output);
      } else {
        var closing := CloseBlock();
        events := events + closing;
        err := None;
      }
    }

    method EndWithOutput(started: seq<ClientEvent>, output: seq<OutputItem>)
      returns (events: seq<ClientEvent>, err: Option<Error>)
      modifies this`hasTool, this`nextBlockIndex, this`terminal, this`terminalErr
      ensures var blocks := OutputBlocks(codec, output);
              Outcome(State(), events, err) ==
              if blocks.Err? then Fail(old(State()), blocks.error)
              else Outcome(
                old(State()).(hasTool := old(hasTool) || HasTool(blocks.value),
                              nextBlockIndex := old(nextBlockIndex) + |blocks.value|),
                started + TraceEvents(old(nextBlockIndex), TracesOf(blocks.value)), None)
    {
      var full := StreamTerminalOutput(output);
      if full.Err? {
        err := RecordFailure(full.error);
        return [], err;
      }
      return started + full.value, None;
    }

    method HandleTerminal(event: StreamEvent) returns (events: seq<ClientEvent>, err: Option<Error>)
      modifies this
      ensures Outcome(State(), events, err) == TerminalStep(codec, old(State()), event)
      ensures active == old(active) || active == null
    {
      if ReportsFailure(event) {
        err := RecordFailure(ResponseError(event.response.value.error));
        return [], err;
      }
      events, err := EndContentOf(event);
      if err.Some? {
        return;
      }
      var stopReason := StopReasonFor(FinalStatus(event), FinalReason(event), hasTool);
      events := events + [MessageDelta(stopReason, ConvertUsage(FinalUsage(event))), MessageStop];
      terminal := true;
      err := None;
    }
  }

  /** One turn of the loop over the blocks: the start, the deltas there are and the stop. */
  method StreamOneBlock(index: int, block: ContentBlock) returns (events: seq<ClientEvent>)
    ensures events == OneTrace(index, TraceOf(block))
  {
    var start := block;
    match block {
      case TextBlock(_) => start := start.(text := "");
      case ThinkingBlock(_, _) => start := start.(thinking := "", signature := "");
      case ToolUseBlock(_, _, _) => start := start.(input := EMPTY_OBJECT);
    }
    var deltas: seq<ClientEvent> := [];
    match block {
      case TextBlock(text) =>
        if text != "" {
          deltas := deltas + [BlockDelta(index, TextDelta(text))];
        }
      case ThinkingBlock(thinking, signature) =>
        if thinking != "" {
          deltas := deltas + [BlockDelta(index, ThinkingDelta(thinking))];
        }
        if !IsBlank(signature) {
          deltas := deltas + [BlockDelta(index, SignatureDelta(signature))];
        }
      case ToolUseBlock(_, _, input) =>
        deltas := deltas + [BlockDelta(index, InputJsonDelta(input))];
    }
    AtMostTwoDeltas(index, BlockDeltas(block));
    events := [BlockStart(index, start)] + deltas + [BlockStop(index)];
  }

  lemma AtMostTwoDeltas(index: int, deltas: seq<Delta>)
    requires |deltas| <= 2
    ensures DeltaEvents(index, deltas) == seq(|deltas|, i requires 0 <= i < |deltas| => BlockDelta(index, deltas[i]))
  {
    if |deltas| == 2 {
      assert deltas[..1] == [deltas[0]];
    }
  }

  /** Streams the blocks of a complete output, numbered from startIndex. */
  method StreamFullOutput(codec: Codec, output: seq<OutputItem>, startIndex: int)
    returns (events: Result<seq<ClientEvent>, Error>, hasTool: bool)
    ensures var blocks := OutputBlocks(codec, output);
            && events == (if blocks.Ok? then Ok(TraceEvents(startIndex, TracesOf(blocks.value))) else Err(blocks.error))
            && hasTool == (blocks.Ok? && HasTool(blocks.value))
  {
    var converted, tool := ResponseOutputToBlocks(codec, output);
    if converted.Err? {
      return Err(converted.error), false;
    }
    var blocks := converted.value;
    var list: seq<ClientEvent> := [];
    for offset := 0 to |blocks|
      invariant list == TraceEvents(startIndex, TracesOf(blocks)[..offset])
    {
      assert TracesOf(blocks)[..offset + 1][..offset] == TracesOf(blocks)[..offset];
      var one := StreamOneBlock(startIndex + offset, blocks[offset]);
      list := list + one;
    }
    assert TracesOf(blocks)[..|blocks|] == TracesOf(blocks);
    return Ok(list), tool;
  }

  function Stops(events: seq<ClientEvent>): nat {
    if events == [] then 0
    else Stops(events[..|events| - 1]) + (if events[|events| - 1].BlockStop? then 1 else 0)
  }

  method CountStops(events: seq<ClientEvent>) returns (n: nat)
    ensures n == Stops(events)
  {
    n := 0;
    for i := 0 to |events|
      invariant n == Stops(events[..i])
    {
      assert events[..i + 1][..i] == events[..i];
      if events[i].BlockStop? {
        n := n + 1;
      }
    }
    assert events[..|events|] == events;
  }

  lemma {:induction false} StopsConcat(a: seq<ClientEvent>, b: seq<ClientEvent>)
    ensures Stops(a + b) == Stops(a) + Stops(b)
  {
    if b == [] {
      assert a + b == a;
    } else {
      StopsConcat(a, b[..|b| - 1]);
      assert (a + b)[..|a + b| - 1] == a + b[..|b| - 1];
    }
  }

  lemma {:induction false} NoStops(index: int, deltas: seq<Delta>)
    ensures Stops(DeltaEvents(index, deltas)) == 0
  {
    if deltas != [] {
      NoStops(index, deltas[..|deltas| - 1]);
      StopsConcat(DeltaEvents(index, deltas[..|deltas| - 1]), [BlockDelta(index, deltas[|deltas| - 1])]);
    }
  }

  lemma OneStop(index: int, t: Trace)
    ensures Stops(OneTrace(index, t)) == 1
  {
    var start, deltas, stop := [BlockStart(index, t.start)], DeltaEvents(index, t.deltas), [BlockStop(index)];
    NoStops(index, t.deltas);
    StopsConcat(start, deltas);
    StopsConcat(start + deltas, stop);
    assert Stops(start) == 0 && Stops(stop) == 1;
  }

  /** Every streamed block ends exactly once. */
  lemma {:induction false} TraceEventsStops(first: int, blocks: seq<Trace>)
    ensures Stops(TraceEvents(first, blocks)) == |blocks|
  {
    if blocks != [] {
      var n := |blocks| - 1;
      TraceEventsStops(first, blocks[..n]);
      OneStop(first + n, blocks[n]);
      StopsConcat(TraceEvents(first, blocks[..n]), OneTrace(first + n, blocks[n]));
    }
  }
}
