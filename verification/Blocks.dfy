/** The buffered conversion of a terminal Responses object. */
module Blocks {
  import opened Text
  import opened Protocol

  const EMPTY_OBJECT := "{}"

  function FunctionToolInput(codec: Codec, arguments: string): Option<string> {
    if IsBlank(arguments) then Some(EMPTY_OBJECT)
    else if codec.isObject(arguments) then Some(arguments)
    else None
  }

  function CustomToolInput(codec: Codec, input: string): string {
    "{\"input\":" + codec.quote(input) + "}"
  }

  /** The visible text of a reasoning item. */
  function SummaryTextOf(summary: seq<SummaryPart>): string {
    if summary == [] then ""
    else
      var last := summary[|summary| - 1];
      SummaryTextOf(summary[..|summary| - 1]) + (if last.kind.SummaryText? then last.text else "")
  }

  /** One text block for each non-empty output text. */
  function TextBlocksOf(content: seq<ContentPart>): seq<ContentBlock> {
    if content == [] then []
    else
      var last := content[|content| - 1];
      TextBlocksOf(content[..|content| - 1]) +
      (if last.kind.OutputText? && last.text != "" then [TextBlock(last.text)] else [])
  }

  /** The blocks of one output item; None when its arguments are not an object. */
  function ItemBlocks(codec: Codec, item: OutputItem): Option<seq<ContentBlock>> {
    match item.kind
    case Reasoning =>
      var summary := SummaryTextOf(item.summary);
      if summary != "" || !IsBlank(item.encryptedContent)
      then Some([ThinkingBlock(summary, item.encryptedContent)]) else Some([])
    case Message => Some(TextBlocksOf(item.content))
    case FunctionCall =>
      var input := FunctionToolInput(codec, item.arguments);
      if input.Some? then Some([ToolUseBlock(item.callId, item.name, input.value)]) else None
    case CustomToolCall =>
      Some([ToolUseBlock(item.callId, item.name, CustomToolInput(codec, item.input))])
    case _ => Some([])
  }

  /** The blocks of a whole output, or the error of its first bad item. */
  function OutputBlocks(codec: Codec, output: seq<OutputItem>): Result<seq<ContentBlock>, Error> {
    if output == [] then Ok([])
    else
      var front := OutputBlocks(codec, output[..|output| - 1]);
      if front.Err? then front
      else
        var last := ItemBlocks(codec, output[|output| - 1]);
        if last.Some? then Ok(front.value + last.value) else Err(BadOutputArguments(|output| - 1))
  }

  predicate HasTool(blocks: seq<ContentBlock>) {
    exists i | 0 <= i < |blocks| :: blocks[i].ToolUseBlock?
  }

  /** Appends block by block, as the source does, and stops at the first bad
      function call. */
  method ResponseOutputToBlocks(codec: Codec, output: seq<OutputItem>)
    returns (blocks: Result<seq<ContentBlock>, Error>, hasTool: bool)
    ensures blocks == OutputBlocks(codec, output)
    ensures hasTool == (blocks.Ok? && HasTool(blocks.value))
  {
    var list: seq<ContentBlock> := [];
    hasTool := false;
    for outputIndex := 0 to |output|
      invariant OutputBlocks(codec, output[..outputIndex]) == Ok(list)
      invariant hasTool == HasTool(list)
    {
      var item := output[outputIndex];
      ghost var before := list;
      assert output[..outputIndex + 1][..outputIndex] == output[..outputIndex];
      match item.kind {
        case Reasoning =>
          var summary := SummaryBuilder(item.summary);
          if summary != "" || !IsBlank(item.encryptedContent) {
            list := list + [ThinkingBlock(summary, item.encryptedContent)];
          }
        case Message =>
          list := AppendTexts(list, item.content);
        case FunctionCall =>
          var input := FunctionToolInput(codec, item.arguments);
          if input.None? {
            BadItemIsFirst(codec, output, outputIndex);
            return Err(BadOutputArguments(outputIndex)), false;
          }
          hasTool := true;
          list := list + [ToolUseBlock(item.callId, item.name, input.value)];
        case CustomToolCall =>
          hasTool := true;
          list := list + [ToolUseBlock(item.callId, item.name, CustomToolInput(codec, item.input))];
        case _ =>
      }
      ghost var added := ItemBlocks(codec, item).value;
      assert list == before + added;
      HasToolAppend(before, added);
      assert item.kind.FunctionCall? || item.kind.CustomToolCall? ==> added[0].ToolUseBlock?;
    }
    assert output[..|output|] == output;
    return Ok(list), hasTool;
  }

  method SummaryBuilder(summary: seq<SummaryPart>) returns (text: string)
    ensures text == SummaryTextOf(summary)
  {
    text := "";
    for i := 0 to |summary|
      invariant text == SummaryTextOf(summary[..i])
    {
      assert summary[..i + 1][..i] == summary[..i];
      if summary[i].kind.SummaryText? {
        text := text + summary[i].text;
      }
    }
    assert summary[..|summary|] == summary;
  }

  method AppendTexts(list: seq<ContentBlock>, content: seq<ContentPart>) returns (r: seq<ContentBlock>)
    ensures r == list + TextBlocksOf(content)
    ensures !HasTool(TextBlocksOf(content))
  {
    r := list;
    for i := 0 to |content|
      invariant r == list + TextBlocksOf(content[..i])
      invariant !HasTool(TextBlocksOf(content[..i]))
    {
      assert content[..i + 1][..i] == content[..i];
      if content[i].kind.OutputText? && content[i].text != "" {
        r := r + [TextBlock(content[i].text)];
      }
    }
    assert content[..|content|] == content;
  }

  lemma HasToolAppend(a: seq<ContentBlock>, b: seq<ContentBlock>)
    ensures HasTool(a + b) <==> HasTool(a) || HasTool(b)
  {
    if HasTool(a) {
      var i :| 0 <= i < |a| && a[i].ToolUseBlock?;
      assert (a + b)[i].ToolUseBlock?;
    }
    if HasTool(b) {
      var i :| 0 <= i < |b| && b[i].ToolUseBlock?;
      assert (a + b)[|a| + i].ToolUseBlock?;
    }
  }

  lemma {:induction false} BadItemIsFirst(codec: Codec, output: seq<OutputItem>, at: nat)
    requires at < |output|
    requires OutputBlocks(codec, output[..at]).Ok?
    requires ItemBlocks(codec, output[at]).None?
    ensures OutputBlocks(codec, output) == Err(BadOutputArguments(at))
    decreases |output|
  {
    if at < |output| - 1 {
      assert output[..|output| - 1][..at] == output[..at];
      BadItemIsFirst(codec, output[..|output| - 1], at);
    }
  }

  lemma {:induction false} OutputBlocksAppend(codec: Codec, a: seq<OutputItem>, b: seq<OutputItem>)
    requires OutputBlocks(codec, a).Ok? && OutputBlocks(codec, b).Ok?
    ensures OutputBlocks(codec, a + b) == Ok(OutputBlocks(codec, a).value + OutputBlocks(codec, b).value)
  {
    if b == [] {
      assert a + b == a;
      assert OutputBlocks(codec, a).value + [] == OutputBlocks(codec, a).value;
    } else {
      var front := b[..|b| - 1];
      assert OutputBlocks(codec, front).Ok?;
      OutputBlocksAppend(codec, a, front);
      var last := ItemBlocks(codec, b[|b| - 1]).value;
      var inA, inFront := OutputBlocks(codec, a).value, OutputBlocks(codec, front).value;
      assert inA + (inFront + last) == (inA + inFront) + last;
      assert (a + b)[|a + b| - 1] == b[|b| - 1];
      assert (a + b)[..|a + b| - 1] == a + b[..|b| - 1];
    }
  }

  function ConvertUsage(usage: Option<Usage>): TokenCount {
    if usage.None? then NO_TOKENS
    else
      var u := usage.value;
      var cached := if u.details.Some? then Max(u.details.value.cached, 0) else 0;
      var created :=
        if u.details.Some? && u.details.value.cacheWrite > 0 then u.details.value.cacheWrite
        else if u.details.Some? && u.details.value.cacheCreation > 0 then u.details.value.cacheCreation
        else u.cacheCreation;
      var creation := Max(created, 0);
      TokenCount(Max(u.input - cached - creation, 0), Max(u.output, 0), creation, cached)
  }

  function StopReasonFor(status: Status, incompleteReason: Option<string>, hasTool: bool): StopReason {
    if status.Incomplete? && incompleteReason == Some("max_output_tokens") then MaxTokens
    else if status.Completed? && hasTool then ToolUse
    else EndTurn
  }

  function ResponseError(upstream: Option<UpstreamError>): Error {
    if upstream.None? then Upstream("api_error", "upstream response failed")
    else Upstream(upstream.value.code, upstream.value.message)
  }

  // What a terminal event says of the end of the message.

  function FinalStatus(e: StreamEvent): Status {
    if e.response.Some? && !e.response.value.status.NoStatus? then e.response.value.status
    else if e.kind.IncompleteKind? then Incomplete else Completed
  }

  function FinalReason(e: StreamEvent): Option<string> {
    if e.response.Some? then e.response.value.incompleteReason else None
  }

  function FinalUsage(e: StreamEvent): Option<Usage> {
    if e.response.Some? && e.response.value.usage.Some? then e.response.value.usage else e.usage
  }

  /** A terminal event that turns out to be a failure. */
  predicate ReportsFailure(e: StreamEvent) {
    e.response.Some? && (e.response.value.status.Failed? || e.response.value.error.Some?)
  }

  /** The error a failing upstream event carries. */
  function ErrorOf(e: StreamEvent): Error {
    if e.error.None? then Upstream(e.code, NonEmpty(e.message, "upstream error"))
    else Upstream(NonEmpty(e.error.value.code, e.code),
                  NonEmpty(NonEmpty(e.error.value.message, e.message), "upstream error"))
  }

  function FailureOf(e: StreamEvent): Error {
    ResponseError(if e.response.Some? && e.response.value.error.Some? then e.response.value.error else e.error)
  }

  /** What a buffered client is sent for a terminal response. */
  function ToAnthropic(codec: Codec, response: Option<Response>, model: string): Result<MessageResponse, Error> {
    if response.None? then Err(NilResponse)
    else
      var r := response.value;
      if r.status.Failed? || r.error.Some? then Err(ResponseError(r.error))
      else
        var blocks := OutputBlocks(codec, r.output);
        if blocks.Err? then Err(blocks.error)
        else Ok(MessageResponse(
                  r.id,
                  if model == "" then r.model else model,
                  if blocks.value == [] then [TextBlock("")] else blocks.value,
                  Some(StopReasonFor(r.status, r.incompleteReason, HasTool(blocks.value))),
                  ConvertUsage(r.usage)))
  }

  method ResponsesToAnthropic(codec: Codec, response: Option<Response>, model: string)
    returns (result: Result<MessageResponse, Error>)
    ensures result == ToAnthropic(codec, response, model)
  {
    if response.None? {
      return Err(NilResponse);
    }
    var r := response.value;
    if r.status.Failed? || r.error.Some? {
      return Err(ResponseError(r.error));
    }
    var converted, hasTool := ResponseOutputToBlocks(codec, r.output);
    if converted.Err? {
      return Err(converted.error);
    }
    var blocks := converted.value;
    if |blocks| == 0 {
      blocks := [TextBlock("")];
    }
    var shown := model;
    if shown == "" {
      shown := r.model;
    }
    var stopReason := StopReasonFor(r.status, r.incompleteReason, hasTool);
    return Ok(MessageResponse(r.id, shown, blocks, Some(stopReason), ConvertUsage(r.usage)));
  }
}
