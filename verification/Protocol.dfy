/** The two wire vocabularies: Responses events coming from upstream and
    Anthropic Messages values going to the client. Wire names are constructors;
    a name the program does not know is carried by an `Other` constructor. */
module Protocol {
  import opened Text

  // ---- Responses -----------------------------------------------------------

  datatype Status = NoStatus | Completed | Incomplete | Failed | OtherStatus(name: string)

  datatype ItemKind =
    | Untyped | Reasoning | Message | FunctionCall | CustomToolCall | OtherItem(name: string)

  datatype PartKind = NoPartKind | OutputText | OtherPart(name: string)

  datatype ContentPart = ContentPart(kind: PartKind, text: string)

  datatype SummaryKind = NoSummaryKind | SummaryText | OtherSummary(name: string)

  datatype SummaryPart = SummaryPart(kind: SummaryKind, text: string)

  datatype OutputItem = OutputItem(
    kind: ItemKind, id: string, role: string, status: string,
    content: seq<ContentPart>, encryptedContent: string, summary: seq<SummaryPart>,
    callId: string, name: string, arguments: string, input: string)

  const EMPTY_ITEM := OutputItem(Untyped, "", "", "", [], "", [], "", "", "", "")

  datatype UpstreamError = UpstreamError(code: string, message: string)

  datatype TokenDetails = TokenDetails(cached: int, cacheCreation: int, cacheWrite: int)

  datatype Usage = Usage(
    input: int, output: int, total: int, cacheCreation: int, details: Option<TokenDetails>)

  datatype Response = Response(
    id: string, object_: string, model: string, status: Status, output: seq<OutputItem>,
    usage: Option<Usage>, incompleteReason: Option<string>, error: Option<UpstreamError>)

  const EMPTY_RESPONSE := Response("", "", "", NoStatus, [], None, None, None)

  datatype EventKind =
    | ErrorKind | FailedKind | CreatedKind
    | ItemAdded | ItemDone
    | TextDeltaKind | TextDoneKind
    | ArgumentsDelta | ArgumentsDone
    | CustomInputDelta | CustomInputDone
    | SummaryDelta | ReasoningTextDelta | SummaryDone | ReasoningTextDone
    | CompletedKind | DoneKind | IncompleteKind
    | OtherKind(name: string)

  datatype StreamEvent = StreamEvent(
    kind: EventKind, response: Option<Response>, usage: Option<Usage>, item: Option<OutputItem>,
    outputIndex: int, contentIndex: int, summaryIndex: int,
    delta: string, text: string,
    callId: string, name: string, arguments: string, input: string,
    code: string, message: string, error: Option<UpstreamError>)

  predicate IsTerminal(kind: EventKind) {
    kind.CompletedKind? || kind.DoneKind? || kind.IncompleteKind?
  }

  /** The events that end a response, well or badly. */
  predicate EndsExchange(kind: EventKind) {
    IsTerminal(kind) || kind.FailedKind? || kind.ErrorKind?
  }

  predicate IsReasoningDelta(kind: EventKind) {
    kind.SummaryDelta? || kind.ReasoningTextDelta?
  }

  predicate IsReasoningDone(kind: EventKind) {
    kind.SummaryDone? || kind.ReasoningTextDone?
  }

  // ---- Anthropic -----------------------------------------------------------

  datatype ContentBlock =
    | TextBlock(text: string)
    | ThinkingBlock(thinking: string, signature: string)
    | ToolUseBlock(id: string, name: string, input: string)

  datatype StopReason = MaxTokens | ToolUse | EndTurn

  datatype TokenCount = TokenCount(input: int, output: int, cacheCreation: int, cacheRead: int)

  const NO_TOKENS := TokenCount(0, 0, 0, 0)

  datatype MessageResponse = MessageResponse(
    id: string, model: string, content: seq<ContentBlock>, stopReason: Option<StopReason>, usage: TokenCount)

  datatype Delta =
    | TextDelta(text: string)
    | InputJsonDelta(json: string)
    | ThinkingDelta(thinking: string)
    | SignatureDelta(signature: string)

  datatype ClientEvent =
    | MessageStart(message: MessageResponse)
    | BlockStart(index: int, block: ContentBlock)
    | BlockDelta(index: int, delta: Delta)
    | BlockStop(index: int)
    | MessageDelta(stopReason: StopReason, usage: TokenCount)
    | MessageStop
    | ErrorEvent(text: string)

  /** The deltas of block number index, as events. */
  function DeltaEvents(index: int, deltas: seq<Delta>): seq<ClientEvent> {
    if deltas == [] then []
    else DeltaEvents(index, deltas[..|deltas| - 1]) + [BlockDelta(index, deltas[|deltas| - 1])]
  }

  /** One content block on the wire: its start and its deltas. */
  datatype Trace = Trace(start: ContentBlock, deltas: seq<Delta>)

  function OneTrace(index: int, t: Trace): seq<ClientEvent> {
    [BlockStart(index, t.start)] + DeltaEvents(index, t.deltas) + [BlockStop(index)]
  }

  /** Blocks are numbered in order, and everything in a block carries its number. */
  function TraceEvents(first: int, blocks: seq<Trace>): seq<ClientEvent> {
    if blocks == [] then []
    else
      var n := |blocks| - 1;
      TraceEvents(first, blocks[..n]) + OneTrace(first + n, blocks[n])
  }

  // ---- Errors and the JSON codec ------------------------------------------

  datatype Error =
    | Upstream(code: string, message: string)
    | MissingTerminal
    | ToolDeltaMismatch
    | ToolDoneMismatch
    | ItemDoneMismatch
    | BadArguments(tool: string)
    | BadOutputArguments(outputIndex: nat)
    | NilResponse
    | IndexOutOfRange

  /** The two facts about JSON text the bridge relies on: whether a text is a
      JSON object, and how a string is quoted. */
  datatype Codec = Codec(isObject: string -> bool, quote: string -> string)
}
