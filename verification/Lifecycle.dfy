/** Well-formed upstream lifecycles and what they mean. The monitor reads a
    sequence of Responses events on its own terms, knowing neither the converter
    nor the accumulator, and collects the blocks the events describe. */
module Lifecycle {
  import opened Text
  import opened Protocol
  import opened Blocks

  /** The output item being received. */
  datatype Phase =
    | Between
    | InReasoning(index: int, before: string, partText: string, part: int, signature: string)
    | InMessage(index: int, texts: seq<string>, open: Option<string>, part: int)
    | InFunction(index: int, id: string, name: string, arguments: string, finished: bool)
    | InCustom(index: int, id: string, name: string, input: string, finished: bool)
    | InOther(index: int)

  datatype Life = Life(phase: Phase, last: Option<int>, blocks: seq<ContentBlock>, createdStatus: bool)

  const BIRTH := Life(Between, None, [], false)

  function TextBlocks(texts: seq<string>): seq<ContentBlock> {
    if texts == [] then []
    else
      var last := texts[|texts| - 1];
      TextBlocks(texts[..|texts| - 1]) + (if last == "" then [] else [TextBlock(last)])
  }

  /** The blocks of the item being received, as far as it has come. */
  function PhaseBlocks(codec: Codec, p: Phase): seq<ContentBlock> {
    match p
    case Between => []
    case InReasoning(_, before, partText, _, signature) => [ThinkingBlock(before + partText, signature)]
    case InMessage(_, texts, open, _) => TextBlocks(texts + (if open.Some? then [open.value] else []))
    case InFunction(_, id, name, arguments, _) => [ToolUseBlock(id, name, NonEmpty(arguments, EMPTY_OBJECT))]
    case InCustom(_, id, name, input, _) => [ToolUseBlock(id, name, CustomToolInput(codec, input))]
    case InOther(_) => []
  }

  function AllBlocks(codec: Codec, m: Life): seq<ContentBlock> {
    m.blocks + PhaseBlocks(codec, m.phase)
  }

  /** The item has nothing open, so the next one may begin. */
  predicate CanLeave(p: Phase) {
    match p
    case Between => true
    case InReasoning(_, _, _, _, _) => false
    case InMessage(_, _, open, _) => open == None || open == Some("")
    case InFunction(_, _, _, _, finished) => finished
    case InCustom(_, _, _, _, finished) => finished
    case InOther(_) => true
  }

  /** A repeated id or name is left out or says the same. */
  predicate Repeats(value: string, known: string) {
    value == "" || value == known
  }

  /** A full text repeats the deltas, or comes instead of them. */
  predicate Restates(whole: string, deltas: string) {
    whole == "" || deltas == "" || whole == deltas
  }

  predicate GoodArguments(codec: Codec, arguments: string) {
    arguments == "" || (!IsBlank(arguments) && codec.isObject(arguments))
  }

  /** The phase an added item begins: it arrives without content. */
  function BeginItem(index: int, item: OutputItem): Option<Phase> {
    match item.kind
    case Reasoning => if item.summary == [] then Some(InReasoning(index, "", "", -1, item.encryptedContent)) else None
    case Message => if item.content == [] then Some(InMessage(index, [], None, -1)) else None
    case FunctionCall => if item.arguments ==
        "" then Some(InFunction(index, item.callId, item.name, "", false)) else None
    case CustomToolCall => if item.input == "" then Some(InCustom(index, item.callId, item.name, "", false)) else None
    case OtherItem(_) => Some(InOther(index))
    case Untyped => None
  }

  /** Content parts come in order, one at a time. */
  function TextPhase(p: Phase, part: int, delta: string): Option<Phase> {
    if !p.InMessage? then None
    else if p.open.Some? && part == p.part then Some(p.(open := Some(p.open.value + delta)))
    else if p.open.None? && part > p.part then Some(p.(open := Some(delta), part := part))
    else None
  }

  function TextDonePhase(p: Phase, part: int, text: string): Option<Phase> {
    if !p.InMessage? then None
    else if p.open.Some? && part == p.part && Restates(text, p.open.value) then
      Some(p.(open := None, texts := p.texts + [NonEmpty(p.open.value, text)]))
    else if p.open.None? && part > p.part then Some(p.(texts := p.texts + [text], part := part))
    else None
  }

  /** Summary parts come in order. */
  function AtPart(p: Phase, part: int): Option<Phase> {
    if !p.InReasoning? || part < p.part || part < 0 then None
    else if part == p.part then Some(p)
    else Some(p.(before := p.before + p.partText, partText := "", part := part))
  }

  function ReasoningPhase(p: Phase, part: int, delta: string): Option<Phase> {
    var at := AtPart(p, part);
    if at.None? then None else Some(at.value.(partText := at.value.partText + delta))
  }

  /** A done reasoning text repeats its part, or is the first text of the item. */
  function ReasoningDonePhase(p: Phase, part: int, text: string): Option<Phase> {
    var at := AtPart(p, part);
    if at.None? then None
    else if Repeats(text, at.value.partText) then at
    else if at.value.before + at.value.partText == "" then Some(at.value.(partText := text))
    else None
  }

  function FunctionDone(codec: Codec, p: Phase, arguments: string): Option<Phase> {
    if !p.InFunction? || p.finished || !Restates(arguments, p.arguments) then None
    else
      var whole := NonEmpty(p.arguments, arguments);
      if GoodArguments(codec, whole) then Some(p.(arguments := whole, finished := true)) else None
  }

  function CustomDone(p: Phase, input: string): Option<Phase> {
    if !p.InCustom? || p.finished || !Restates(input, p.input) then None
    else Some(p.(input := NonEmpty(p.input, input), finished := true))
  }

  /** The phase a done item ends in: whatever it carries repeats what came before. */
  function ItemDonePhase(codec: Codec, p: Phase, item: OutputItem): Option<Phase> {
    match p
    case Between => None
    case InReasoning(_, before, partText, _, signature) =>
      var text, signed := before + partText, NonEmpty(item.encryptedContent, signature);
      if item.kind.Reasoning? && (item.summary == [] || SummaryTextOf(item.summary) == text) &&
         (text != "" || !IsBlank(signed))
      then Some(p.(signature := signed)) else None
    case InMessage(_, _, _, _) =>
      if item.kind.Message? && (item.content == [] || TextBlocksOf(item.content) == PhaseBlocks(codec, p))
      then Some(p) else None
    case InFunction(_, id, name, arguments, finished) =>
      if !item.kind.FunctionCall? || !Repeats(item.callId, id) || !Repeats(item.name, name) then None
      else if finished then (if Repeats(item.arguments, arguments) then Some(p) else None)
      else FunctionDone(codec, p, item.arguments)
    case InCustom(_, id, name, input, finished) =>
      if !item.kind.CustomToolCall? || !Repeats(item.callId, id) || !Repeats(item.name, name) then None
      else if finished then (if Repeats(item.input, input) then Some(p) else None)
      else CustomDone(p, item.input)
    case InOther(_) => if item.kind.OtherItem? then Some(p) else None
  }

  predicate SameItem(p: Phase, index: int) {
    !p.Between? && p.index == index
  }

  predicate SameCall(p: Phase, e: StreamEvent) {
    (p.InFunction? || p.InCustom?) && Repeats(e.callId, p.id) && Repeats(e.name, p.name)
  }

  /** What an event of the current item makes of its phase. */
  function NextPhase(codec: Codec, p: Phase, e: StreamEvent): Option<Phase> {
    if !SameItem(p, e.outputIndex) then None
    else match e.kind
      case TextDeltaKind => TextPhase(p, e.contentIndex, e.delta)
      case TextDoneKind => TextDonePhase(p, e.contentIndex, e.text)
      case SummaryDelta => ReasoningPhase(p, e.summaryIndex, e.delta)
      case ReasoningTextDelta => ReasoningPhase(p, e.summaryIndex, e.delta)
      case SummaryDone => ReasoningDonePhase(p, e.summaryIndex, e.text)
      case ReasoningTextDone => ReasoningDonePhase(p, e.summaryIndex, e.text)
      case ArgumentsDelta =>
        if p.InFunction? && !p.finished && SameCall(p, e) then Some(p.(arguments := p.arguments + e.delta)) else None
      case ArgumentsDone => if SameCall(p, e) then FunctionDone(codec, p, e.arguments) else None
      case CustomInputDelta =>
        if p.InCustom? && !p.finished && SameCall(p, e) then Some(p.(input := p.input + e.delta)) else None
      case CustomInputDone => if SameCall(p, e) then CustomDone(p, e.input) else None
      case _ => None
  }

  /** A created response announces neither usage nor failure. */
  predicate PlainCreated(response: Option<Response>) {
    response.Some? ==>
      response.value.usage == None && response.value.error == None && response.value.incompleteReason == None
  }

  /** One event of a well-formed lifecycle, short of its end. */
  function Next(codec: Codec, m: Life, e: StreamEvent): Option<Life> {
    match e.kind
    case OtherKind(_) => Some(m)
    case CreatedKind =>
      if !PlainCreated(e.response) then None
      else Some(m.(createdStatus := m.createdStatus || (e.response.Some? && !e.response.value.status.NoStatus?)))
    case ItemAdded =>
      if e.item.None? then Some(m)
      else
        var p := BeginItem(e.outputIndex, e.item.value);
        if p.Some? && CanLeave(m.phase) && (m.last.None? || m.last.value < e.outputIndex)
        then Some(m.(phase := p.value, last := Some(e.outputIndex), blocks := AllBlocks(codec, m))) else None
    case ItemDone =>
      if e.item.None? then Some(m)
      else
        var p := if SameItem(m.phase, e.outputIndex) then ItemDonePhase(codec, m.phase, e.item.value) else None;
        if p.Some? then Some(m.(phase := Between, blocks := m.blocks + PhaseBlocks(codec, p.value))) else None
    case _ =>
      var p := NextPhase(codec, m.phase, e);
      if p.Some? then Some(m.(phase := p.value)) else None
  }

  function After(codec: Codec, es: seq<StreamEvent>): Option<Life> {
    if es == [] then Some(BIRTH)
    else
      var before := After(codec, es[..|es| - 1]);
      if before.None? then None else Next(codec, before.value, es[|es| - 1])
  }

  function OutputOf(e: StreamEvent): seq<OutputItem> {
    if e.response.Some? then e.response.value.output else []
  }

  /** A terminal event that ends the lifecycle: nothing but a text may still be
      open, it says its status if the created response did, and its output, if
      any, repeats the blocks already described. */
  predicate Ends(codec: Codec, m: Life, e: StreamEvent) {
    && IsTerminal(e.kind) && !ReportsFailure(e)
    && (CanLeave(m.phase) || m.phase.InMessage?)
    && (m.createdStatus ==> e.response.Some? && !e.response.value.status.NoStatus?)
    && (OutputOf(e) == [] || AllBlocks(codec, m) == [] || OutputBlocks(codec, OutputOf(e)) == Ok(AllBlocks(codec, m)))
  }

  /** The content the lifecycle describes: its blocks or, if it showed none, the
      output of its terminal event. */
  function Meaning(codec: Codec, m: Life, e: StreamEvent): Result<seq<ContentBlock>, Error> {
    if AllBlocks(codec, m) == [] then OutputBlocks(codec, OutputOf(e)) else Ok(AllBlocks(codec, m))
  }
}
