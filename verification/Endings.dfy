/** How a response begins, fails and ends, said in the fields of the events: content, stop
    reason, usage and errors of both pipelines, over every run. */
module Endings {
  import opened Text
  import opened Protocol
  import opened Blocks
  import opened Client
  import opened Grammar
  import opened Outcomes
  import opened Accumulation
  import opened Chunking
  import C = Converter
  import A = Accumulator

  // ---- What an output shows, item by item from the front ---------------------------

  function SummaryTexts(summary: seq<SummaryPart>): seq<string> {
    if summary == [] then []
    else (if summary[0].kind.SummaryText? then [summary[0].text] else []) + SummaryTexts(summary[1..])
  }

  function ShownTexts(content: seq<ContentPart>): seq<ContentBlock> {
    if content == [] then []
    else
      var first := content[0];
      (if first.kind.OutputText? && first.text != "" then [TextBlock(first.text)] else []) + ShownTexts(content[1..])
  }

  /** A function call whose arguments are neither blank nor an object. */
  predicate BadCall(codec: Codec, item: OutputItem) {
    item.kind.FunctionCall? && !IsBlank(item.arguments) && !codec.isObject(item.arguments)
  }

  function Shown(codec: Codec, item: OutputItem): seq<ContentBlock> {
    match item.kind
    case Message => ShownTexts(item.content)
    case Reasoning =>
      var thought := Join(SummaryTexts(item.summary), "");
      if thought == "" && IsBlank(item.encryptedContent) then [] else [ThinkingBlock(thought, item.encryptedContent)]
    case FunctionCall =>
      [ToolUseBlock(item.callId, item.name, if IsBlank(item.arguments) then "{}" else item.arguments)]
    case CustomToolCall =>
      [ToolUseBlock(item.callId, item.name, "{\"input\":" + codec.quote(item.input) + "}")]
    case _ => []
  }

  function AllShown(codec: Codec, output: seq<OutputItem>): seq<ContentBlock> {
    if output == [] then [] else Shown(codec, output[0]) + AllShown(codec, output[1..])
  }

  /** The position of the first bad call. */
  function FirstBad(codec: Codec, output: seq<OutputItem>): Option<nat> {
    if output == [] then None
    else if BadCall(codec, output[0]) then Some(0)
    else
      var later := FirstBad(codec, output[1..]);
      if later.Some? then Some(later.value + 1) else None
  }

  lemma {:induction false} AllShownLast(codec: Codec, output: seq<OutputItem>, last: OutputItem)
    ensures AllShown(codec, output + [last]) == AllShown(codec, output) + Shown(codec, last)
  {
    if output == [] {
      assert [last][1..] == [];
    } else {
      AllShownLast(codec, output[1..], last);
      assert (output + [last])[1..] == output[1..] + [last];
      Regroup(Shown(codec, output[0]), AllShown(codec, output[1..]), Shown(codec, last));
    }
  }

  lemma {:induction false} FirstBadLast(codec: Codec, output: seq<OutputItem>, last: OutputItem)
    ensures FirstBad(codec, output + [last]) ==
            if FirstBad(codec, output).Some? then FirstBad(codec, output)
            else if BadCall(codec, last) then Some(|output|) else None
  {
    if output == [] {
      assert [last][1..] == [];
    } else {
      FirstBadLast(codec, output[1..], last);
      assert (output + [last])[1..] == output[1..] + [last];
    }
  }

  lemma {:induction false} TextsShown(content: seq<ContentPart>)
    ensures ShownTexts(content) == TextBlocksOf(content)
  {
    if content != [] {
      var front, last := content[..|content| - 1], content[|content| - 1];
      TextsShown(front);
      ShownTextsLast(front, last);
      assert content == front + [last];
    }
  }

  lemma {:induction false} ShownTextsLast(content: seq<ContentPart>, last: ContentPart)
    ensures ShownTexts(content + [last]) ==
            ShownTexts(content) + if last.kind.OutputText? && last.text != "" then [TextBlock(last.text)] else []
  {
    if content == [] {
      assert [last][1..] == [];
    } else {
      ShownTextsLast(content[1..], last);
      assert (content + [last])[1..] == content[1..] + [last];
    }
  }

  lemma {:induction false} ThoughtShown(summary: seq<SummaryPart>)
    ensures Join(SummaryTexts(summary), "") == SummaryTextOf(summary)
  {
    if summary != [] {
      var front, last := summary[..|summary| - 1], summary[|summary| - 1];
      ThoughtShown(front);
      SummaryTextsLast(front, last);
      assert summary == front + [last];
      if last.kind.SummaryText? {
        JoinLast(SummaryTexts(front), last.text);
      } else {
        Regroup(SummaryTexts(front), [], []);
        Regroup(SummaryTextOf(front), "", "");
      }
    }
  }

  lemma {:induction false} SummaryTextsLast(summary: seq<SummaryPart>, last: SummaryPart)
    ensures SummaryTexts(summary + [last]) ==
            SummaryTexts(summary) + if last.kind.SummaryText? then [last.text] else []
  {
    if summary == [] {
      assert [last][1..] == [];
    } else {
      SummaryTextsLast(summary[1..], last);
      assert (summary + [last])[1..] == summary[1..] + [last];
    }
  }

  lemma JoinLast(texts: seq<string>, last: string)
    ensures Join(texts + [last], "") == Join(texts, "") + last
  {
    assert (texts + [last])[..|texts|] == texts;
  }

  lemma ItemShown(codec: Codec, item: OutputItem)
    ensures ItemBlocks(codec, item) == if BadCall(codec, item) then None else Some(Shown(codec, item))
  {
    ThoughtShown(item.summary);
    TextsShown(item.content);
  }

  function AsShown(codec: Codec, output: seq<OutputItem>): Result<seq<ContentBlock>, Error> {
    match FirstBad(codec, output)
    case Some(k) => Err(BadOutputArguments(k))
    case None => Ok(AllShown(codec, output))
  }

  lemma OutputLast(codec: Codec, output: seq<OutputItem>, n: nat)
    requires |output| == n + 1 && OutputBlocks(codec, output[..n]) == AsShown(codec, output[..n])
    ensures OutputBlocks(codec, output) == AsShown(codec, output)
  {
    ItemShown(codec, output[n]);
    AllShownLast(codec, output[..n], output[n]);
    FirstBadLast(codec, output[..n], output[n]);
    hide AllShown, FirstBad, Shown, ItemBlocks, BadCall;
    assert output == output[..n] + [output[n]];
  }

  /** An output converts to what its items show, or fails at its first bad call. */
  lemma {:induction false} OutputShown(codec: Codec, output: seq<OutputItem>)
    ensures OutputBlocks(codec, output) ==
            match FirstBad(codec, output)
            case Some(k) => Err(BadOutputArguments(k))
            case None => Ok(AllShown(codec, output))
  {
    if output != [] {
      var n := |output| - 1;
      OutputShown(codec, output[..n]);
      OutputLast(codec, output, n);
    }
  }

  // ---- Stop reason, usage and errors, spelled out ------------------------------------

  /** The stop reason that goes with a status, a reason for being incomplete and a content. */
  predicate StopFits(reason: StopReason, incomplete: bool, completed: bool, why: Option<string>,
                     content: seq<ContentBlock>) {
    && (reason == MaxTokens <==> incomplete && why == Some("max_output_tokens"))
    && (reason == ToolUse <==> completed && exists i | 0 <= i < |content| :: content[i].ToolUseBlock?)
    && (reason == EndTurn <==> reason != MaxTokens && reason != ToolUse)
  }

  function FirstPositive(counts: seq<int>): nat {
    if counts == [] then 0 else if counts[0] > 0 then counts[0] else FirstPositive(counts[1..])
  }

  /** What upstream wrote to its cache, by the first field that says so. */
  function CacheWritten(u: Usage): nat {
    FirstPositive((if u.details.Some? then [u.details.value.cacheWrite, u.details.value.cacheCreation] else []) +
                  [u.cacheCreation])
  }

  /** No count is negative, and fresh, read and written input add up to the input charged,
      unless the cached part alone is already more. */
  predicate UsageFits(t: TokenCount, usage: Option<Usage>) {
    match usage
    case None => t == TokenCount(0, 0, 0, 0)
    case Some(u) =>
      && t.input >= 0
      && t.output == (if u.output > 0 then u.output else 0)
      && t.cacheRead == (if u.details.Some? && u.details.value.cached > 0 then u.details.value.cached else 0)
      && t.cacheCreation == CacheWritten(u)
      && (if u.input >= t.cacheRead + t.cacheCreation then t.input + t.cacheRead + t.cacheCreation == u.input
          else t.input == 0)
  }

  lemma StopIsFitting(status: Status, why: Option<string>, content: seq<ContentBlock>)
    ensures StopFits(StopReasonFor(status, why, HasTool(content)), status.Incomplete?, status.Completed?, why, content)
  {
  }

  lemma FirstPositiveOf(first: int, others: seq<int>)
    ensures FirstPositive([first] + others) == if first > 0 then first else FirstPositive(others)
    ensures [first] + [] == [first]
  {
    assert ([first] + others)[1..] == others;
  }

  lemma CacheWrittenIs(u: Usage)
    ensures CacheWritten(u) ==
            if u.details.Some? && u.details.value.cacheWrite > 0 then u.details.value.cacheWrite
            else if u.details.Some? && u.details.value.cacheCreation > 0 then u.details.value.cacheCreation
            else Max(u.cacheCreation, 0)
  {
    FirstPositiveOf(u.cacheCreation, []);
    assert [] + [u.cacheCreation] == [u.cacheCreation];
    if u.details.Some? {
      var d := u.details.value;
      FirstPositiveOf(d.cacheCreation, [u.cacheCreation]);
      FirstPositiveOf(d.cacheWrite, [d.cacheCreation] + [u.cacheCreation]);
      assert [d.cacheWrite, d.cacheCreation] + [u.cacheCreation] ==
             [d.cacheWrite] + ([d.cacheCreation] + [u.cacheCreation]);
    }
  }

  lemma UsageIsFitting(usage: Option<Usage>)
    ensures UsageFits(ConvertUsage(usage), usage)
  {
    if usage.Some? {
      CacheWrittenIs(usage.value);
    }
  }

  /** The response is reported as failed by an event that completes it. */
  predicate CompletesAsFailed(e: StreamEvent) {
    IsTerminal(e.kind) && e.response.Some? && (e.response.value.status.Failed? || e.response.value.error.Some?)
  }

  /** The events that end a response in an error. */
  predicate EndsBadly(e: StreamEvent) {
    e.kind.ErrorKind? || e.kind.FailedKind? || CompletesAsFailed(e)
  }

  /** The error record that speaks for the event: the response's own before the event's. */
  function Record(e: StreamEvent): Option<UpstreamError> {
    if e.response.Some? && e.response.value.error.Some? && !e.kind.ErrorKind? then e.response.value.error
    else if IsTerminal(e.kind) then None
    else e.error
  }

  /** An error event fills what its record leaves empty from its own fields; elsewhere a
      record counts as it is. */
  function CodeTold(e: StreamEvent): string {
    var record := Record(e);
    if e.kind.ErrorKind? then FirstNonEmpty((if record.Some? then [record.value.code] else []) + [e.code])
    else if record.Some? then record.value.code else "api_error"
  }

  function MessageTold(e: StreamEvent): string {
    var record := Record(e);
    if e.kind.ErrorKind? then
      FirstNonEmpty((if record.Some? then [record.value.message] else []) + [e.message, "upstream error"])
    else if record.Some? then record.value.message else "upstream response failed"
  }

  /** What is told is what the fields of the event give, by the kind of event. */
  lemma ToldIs(e: StreamEvent)
    requires EndsBadly(e)
    ensures Upstream(CodeTold(e), MessageTold(e)) ==
            if e.kind.ErrorKind? then ErrorOf(e) else if e.kind.FailedKind? then FailureOf(e)
            else ResponseError(e.response.value.error)
  {
    if e.kind.ErrorKind? {
      FirstNonEmptyOf(e.code, []);
      assert [] + [e.code] == [e.code] && [] + [e.message, "upstream error"] == [e.message, "upstream error"];
      FirstNonEmptyOf("upstream error", []);
      FirstNonEmptyOf(e.message, ["upstream error"]);
      assert [e.message, "upstream error"] == [e.message] + ["upstream error"];
      if e.error.Some? {
        FirstNonEmptyOf(e.error.value.code, [e.code]);
        FirstNonEmptyOf(e.error.value.message, [e.message, "upstream error"]);
      }
    }
  }

  /** Whatever state they are in, both pipelines fail with the code and message told, and
      nothing more is shown. */
  lemma BadEndTold(codec: Codec, s: C.Conv, a: A.Acc, e: StreamEvent)
    requires !s.terminal && !a.terminal && EndsBadly(e)
    ensures var o, told := C.Step(codec, s, e), Upstream(CodeTold(e), MessageTold(e));
            && o.events == [] && o.err == Some(told) && C.FinalError(o.state) == Some(told)
            && A.Step(a, e).err == Some(told) && A.Final(A.Step(a, e).state) == Err(told)
  {
    ToldIs(e);
  }

  // ---- A stream that ends well ----------------------------------------------------------

  function StatusGiven(e: StreamEvent): Status {
    if e.response.Some? then e.response.value.status else NoStatus
  }

  /** The status is the one given, or the one the kind of the event implies. */
  predicate EndsIncomplete(e: StreamEvent) {
    StatusGiven(e).Incomplete? || (StatusGiven(e).NoStatus? && e.kind.IncompleteKind?)
  }

  predicate EndsCompleted(e: StreamEvent) {
    StatusGiven(e).Completed? || (StatusGiven(e).NoStatus? && (e.kind.CompletedKind? || e.kind.DoneKind?))
  }

  function WhyGiven(e: StreamEvent): Option<string> {
    if e.response.Some? then e.response.value.incompleteReason else None
  }

  /** The response's usage, or else the event's. */
  function UsageGiven(e: StreamEvent): Option<Usage> {
    if e.response.None? || e.response.value.usage.None? then e.usage else e.response.value.usage
  }

  function OutputGiven(e: StreamEvent): seq<OutputItem> {
    if e.response.Some? then e.response.value.output else []
  }

  /** A client that has been shown no block. */
  predicate HoldsNothing(c: Client) {
    c.Waiting? || (c.Streaming? && c.done == [] && c.open.None?)
  }

  /** What a client that holds this much is left with by a terminal event. */
  predicate EndsWell(codec: Codec, before: Client, e: StreamEvent, c: Client) {
    && IsComplete(c)
    && StopFits(c.stopReason, EndsIncomplete(e), EndsCompleted(e), WhyGiven(e), c.content)
    && UsageFits(c.usage, UsageGiven(e))
    && (if HoldsNothing(before) then c.content == VisibleAll(AllShown(codec, OutputGiven(e)))
        else before.Streaming? && before.done <= c.content)
  }

  /** A terminal event that reports no failure ends every running stream well, unless nothing
      has been shown and the output it brings has a bad call. */
  lemma StreamEnds(codec: Codec, model: string, es: seq<StreamEvent>, e: StreamEvent)
    requires IsTerminal(e.kind) && !CompletesAsFailed(e) && !ConverterAfter(codec, model, es).terminal
    ensures var before := ConsumeAll(Waiting, C.Run(codec, C.Initial(model), es).events);
            var r := C.Run(codec, C.Initial(model), es + [e]);
            match if HoldsNothing(before) then FirstBad(codec, OutputGiven(e)) else None
            case Some(k) => C.FinalError(r.state) == Some(BadOutputArguments(k))
            case None => C.FinalError(r.state) == None && EndsWell(codec, before, e, ConsumeAll(Waiting, r.events))
  {
    var r := C.Run(codec, C.Initial(model), es);
    var c := ConsumeAll(Waiting, r.events);
    EveryRunTied(codec, model, es);
    var s := C.CaptureMetadata(r.state, e.response);
    CaptureTied(r.state, c, e.response);
    TerminalIsStep(codec, r.state, e);
    assert (es + [e])[..|es|] == es;
    TerminalEnds(codec, s, c, e);
    ConsumeAllConcat(Waiting, r.events, C.TerminalStep(codec, s, e).events);
  }

  lemma TerminalEnds(codec: Codec, s: C.Conv, c: Client, e: StreamEvent)
    requires IsTerminal(e.kind) && !CompletesAsFailed(e) && Tied(s, c) && !s.terminal
    ensures var o := C.TerminalStep(codec, s, e);
            match if HoldsNothing(c) then FirstBad(codec, OutputGiven(e)) else None
            case Some(k) => C.FinalError(o.state) == Some(BadOutputArguments(k))
            case None => C.FinalError(o.state) == None && EndsWell(codec, c, e, ConsumeAll(c, o.events))
  {
    ContentAtEnd(codec, s, c, e);
    TerminalKeeps(codec, s, c, e);
    TerminalError(codec, s, e);
    EndFits(e, EndContentOf(codec, s, c, e));
  }

  /** What has been shown stays; if nothing has, the output brought is shown. */
  lemma ContentAtEnd(codec: Codec, s: C.Conv, c: Client, e: StreamEvent)
    requires Tied(s, c) && !s.terminal
    ensures var content, bad := EndContentOf(codec, s, c, e), FirstBad(codec, OutputGiven(e));
            && C.EndContent(codec, s, e).err ==
               (if HoldsNothing(c) && bad.Some? then Some(BadOutputArguments(bad.value)) else None)
            && if HoldsNothing(c) then bad.None? ==> content == VisibleAll(AllShown(codec, OutputGiven(e)))
               else c.Streaming? && c.done <= content
  {
    EndContentKeeps(codec, s, c, e);
    OutputShown(codec, OutputGiven(e));
  }

  lemma TerminalError(codec: Codec, s: C.Conv, e: StreamEvent)
    requires !CompletesAsFailed(e) && IsTerminal(e.kind)
    ensures C.TerminalStep(codec, s, e).err == C.EndContent(codec, s, e).err
  {
  }

  lemma EndFits(e: StreamEvent, content: seq<ContentBlock>)
    requires IsTerminal(e.kind)
    ensures StopFits(StopReasonFor(FinalStatus(e), FinalReason(e), HasTool(content)),
                     EndsIncomplete(e), EndsCompleted(e), WhyGiven(e), content)
    ensures UsageFits(ConvertUsage(FinalUsage(e)), UsageGiven(e))
  {
    StopIsFitting(FinalStatus(e), FinalReason(e), content);
    UsageIsFitting(FinalUsage(e));
  }

  // ---- A buffered response that ends well -------------------------------------------------

  /** The responses that created and terminal events carry, in order. */
  function Carried(es: seq<StreamEvent>): seq<Response> {
    if es == [] then []
    else
      var last := es[|es| - 1];
      Carried(es[..|es| - 1]) +
      (if (last.kind.CreatedKind? || IsTerminal(last.kind)) && last.response.Some? then [last.response.value] else [])
  }

  /** What the last response to give a field at all gives. */
  function LastBy<T(==)>(rs: seq<Response>, field: Response -> T, none: T): T {
    if rs == [] then none
    else if field(rs[|rs| - 1]) != none then field(rs[|rs| - 1])
    else LastBy(rs[..|rs| - 1], field, none)
  }

  lemma LastByAppend<T>(rs: seq<Response>, r: Response, field: Response -> T, none: T)
    ensures LastBy(rs + [r], field, none) == if field(r) != none then field(r) else LastBy(rs, field, none)
  {
    assert (rs + [r])[..|rs|] == rs;
  }

  function IdOf(r: Response): string { r.id }
  function ModelOf(r: Response): string { r.model }
  function StatusOf(r: Response): Status { r.status }
  function UsageOf(r: Response): Option<Usage> { r.usage }
  function WhyOf(r: Response): Option<string> { r.incompleteReason }
  function ErrorIn(r: Response): Option<UpstreamError> { r.error }

  /** A response put together from others, each field from the last to give it. */
  predicate PutTogether(r: Response, rs: seq<Response>) {
    && r.id == LastBy(rs, IdOf, "") && r.model == LastBy(rs, ModelOf, "")
    && r.status == LastBy(rs, StatusOf, NoStatus) && r.usage == LastBy(rs, UsageOf, None)
    && r.incompleteReason == LastBy(rs, WhyOf, None) && r.error == LastBy(rs, ErrorIn, None)
  }

  lemma CapturePutsTogether(current: Response, rs: seq<Response>, r: Response, terminal: bool)
    requires PutTogether(current, rs)
    ensures PutTogether(A.Capture(current, Some(r), terminal), rs + [r])
  {
    LastByAppend(rs, r, IdOf, "");
    LastByAppend(rs, r, ModelOf, "");
    LastByAppend(rs, r, StatusOf, NoStatus);
    LastByAppend(rs, r, UsageOf, None);
    LastByAppend(rs, r, WhyOf, None);
    LastByAppend(rs, r, ErrorIn, None);
  }

  lemma {:induction false} OngoingPutsTogether(es: seq<StreamEvent>)
    requires Ongoing(es) && NonePanics(es)
    ensures var a := A.Run(A.EMPTY_ACC, es);
            !a.terminal && a.err == None && a.response.output == [] && PutTogether(a.response, Carried(es))
  {
    if es != [] {
      var n := |es| - 1;
      OngoingPutsTogether(es[..n]);
      var a := A.Run(A.EMPTY_ACC, es[..n]);
      StepOfOngoing(a, es[n], 0);
      if es[n].kind.CreatedKind? && es[n].response.Some? {
        CapturePutsTogether(a.response, Carried(es[..n]), es[n].response.value, false);
      } else {
        Regroup(Carried(es[..n]), [], []);
      }
    }
  }

  /** What a buffering client is given for a response put together from these, closed by e. */
  predicate ConvertedFrom(codec: Codec, model: string, output: seq<OutputItem>, rs: seq<Response>, e: StreamEvent,
                          result: Result<MessageResponse, Error>) {
    var status, error, usage := LastBy(rs, StatusOf, NoStatus), LastBy(rs, ErrorIn, None), LastBy(rs, UsageOf, None);
    if error.Some? then result == Err(Upstream(error.value.code, error.value.message))
    else if status.Failed? then result == Err(Upstream("api_error", "upstream response failed"))
    else
      match FirstBad(codec, output)
      case Some(k) => result == Err(BadOutputArguments(k))
      case None =>
        && result.Ok? && result.value.stopReason.Some?
        && result.value.id == LastBy(rs, IdOf, "")
        && result.value.model == (if model != "" then model else LastBy(rs, ModelOf, ""))
        && result.value.content ==
           (if AllShown(codec, output) == [] then [TextBlock("")] else AllShown(codec, output))
        && StopFits(result.value.stopReason.value,
                    status.Incomplete? || (status.NoStatus? && e.kind.IncompleteKind?),
                    status.Completed? || (status.NoStatus? && (e.kind.CompletedKind? || e.kind.DoneKind?)),
                    LastBy(rs, WhyOf, None), result.value.content)
        && UsageFits(result.value.usage, if usage.Some? then usage else e.usage)
  }

  /** A terminal event that reports no failure gives every ongoing run a response, put
      together from those carried; and that is what the client's message says. */
  lemma BufferEnds(codec: Codec, model: string, es: seq<StreamEvent>, e: StreamEvent)
    requires Ongoing(es) && NonePanics(es) && IsTerminal(e.kind) && !CompletesAsFailed(e)
    ensures var final := A.Final(A.Run(A.EMPTY_ACC, es + [e]));
            && final.Ok?
            && (OutputGiven(e) != [] ==> final.value.output == OutputGiven(e))
            && ConvertedFrom(codec, model, final.value.output, Carried(es + [e]), e,
                             ToAnthropic(codec, Some(final.value), model))
  {
    var a := A.Run(A.EMPTY_ACC, es);
    OngoingPutsTogether(es);
    assert (es + [e])[..|es|] == es;
    if e.response.Some? {
      CapturePutsTogether(a.response, Carried(es), e.response.value, true);
    } else {
      Regroup(Carried(es), [], []);
    }
    var final := A.CompletedResponse(a, e);
    assert A.Final(A.Run(A.EMPTY_ACC, es + [e])) == Ok(final);
    ResponseConverted(codec, model, A.Capture(a.response, e.response, true), Carried(es + [e]), e, final);
  }

  lemma ResponseConverted(codec: Codec, model: string, captured: Response, rs: seq<Response>, e: StreamEvent,
                          final: Response)
    requires PutTogether(captured, rs) && IsTerminal(e.kind)
    requires final == captured.(
               output := final.output,
               status := if !captured.status.NoStatus? then captured.status
                         else if e.kind.IncompleteKind? then Incomplete else Completed,
               usage := if captured.usage.Some? then captured.usage else e.usage)
    ensures ConvertedFrom(codec, model, final.output, rs, e, ToAnthropic(codec, Some(final), model))
  {
    var shown := AllShown(codec, final.output);
    OutputShown(codec, final.output);
    StopIsFitting(final.status, final.incompleteReason, shown);
    PlaceholderIsNoTool(shown, if shown == [] then [TextBlock("")] else shown);
    UsageIsFitting(final.usage);
  }

  lemma PlaceholderIsNoTool(shown: seq<ContentBlock>, content: seq<ContentBlock>)
    requires content == if shown == [] then [TextBlock("")] else shown
    ensures HasTool(content) <==> HasTool(shown)
  {
  }

  // ---- Content that does not fit ------------------------------------------------------------

  /** The active block is a call of this output index and form. */
  predicate AtCall(s: C.Conv, outputIndex: int, custom: bool) {
    match s.active
    case Some(b) => b.kind.ToolKind? && b.outputIndex == outputIndex && b.custom == custom
    case None => false
  }

  /** A call may be completed at its own place, if what it was given in one piece, or else
      what was collected, is blank or an object. */
  function CallClash(codec: Codec, s: C.Conv, outputIndex: int, custom: bool, given: string): Option<Error> {
    if !AtCall(s, outputIndex, custom) then Some(ToolDoneMismatch)
    else if custom then None
    else
      var arguments := if given == "" then s.active.value.buffer else given;
      if IsBlank(arguments) || codec.isObject(arguments) then None else Some(BadArguments(s.active.value.toolName))
  }

  /** How an event of the content clashes with the active block. */
  function Clash(codec: Codec, s: C.Conv, e: StreamEvent): Option<Error> {
    match e.kind
    case ArgumentsDelta => if e.delta == "" || AtCall(s, e.outputIndex, false) then None else Some(ToolDeltaMismatch)
    case CustomInputDelta => if e.delta == "" || AtCall(s, e.outputIndex, true) then None else Some(ToolDeltaMismatch)
    case ArgumentsDone => CallClash(codec, s, e.outputIndex, false, e.arguments)
    case CustomInputDone => CallClash(codec, s, e.outputIndex, true, e.input)
    case ItemDone =>
      if e.item.None? || s.active.None? then None
      else if s.active.value.outputIndex != e.outputIndex then Some(ItemDoneMismatch)
      else if e.item.value.kind.FunctionCall? then CallClash(codec, s, e.outputIndex, false, e.item.value.arguments)
      else if e.item.value.kind.CustomToolCall? then CallClash(codec, s, e.outputIndex, true, e.item.value.input)
      else None
    case _ => None
  }

  /** The outcome of an event that fails with this error, or with none. */
  predicate FailsWith(o: C.Outcome, clash: Option<Error>) {
    && o.err == clash && (o.state.terminal <==> clash.Some?)
    && (clash.Some? ==> o.events == [] && C.FinalError(o.state) == clash)
  }

  /** An event of the content fails a running stream exactly when it clashes. */
  lemma ContentFailsExactly(codec: Codec, s: C.Conv, e: StreamEvent)
    requires !s.terminal && !EndsExchange(e.kind)
    ensures FailsWith(C.Step(codec, s, e), Clash(codec, s, e))
  {
    var t := C.CaptureMetadata(s, e.response);
    assert Clash(codec, s, e) == Clash(codec, t, e);
    if e.kind.ArgumentsDelta? || e.kind.CustomInputDelta? || e.kind.ArgumentsDone? || e.kind.CustomInputDone?
        || e.kind.ItemDone? {
      CallEventClash(codec, t, e);
    } else {
      OtherEventsFit(codec, t, e);
    }
  }

  lemma CallEventClash(codec: Codec, s: C.Conv, e: StreamEvent)
    requires !s.terminal
    requires e.kind.ArgumentsDelta? || e.kind.CustomInputDelta? || e.kind.ArgumentsDone? || e.kind.CustomInputDone?
             || e.kind.ItemDone?
    ensures FailsWith(C.Handle(codec, s, e), Clash(codec, s, e))
  {
    match e.kind
    case ArgumentsDone => CallDoneClash(codec, s, e.outputIndex, e.arguments, "", false);
    case CustomInputDone => CallDoneClash(codec, s, e.outputIndex, "", e.input, true);
    case ItemDone => ItemDoneClash(codec, s, e);
    case _ =>
  }

  lemma OtherEventsFit(codec: Codec, s: C.Conv, e: StreamEvent)
    requires !s.terminal && !EndsExchange(e.kind) && !e.kind.ItemDone?
    requires !(e.kind.ArgumentsDelta? || e.kind.CustomInputDelta? || e.kind.ArgumentsDone? || e.kind.CustomInputDone?)
    ensures FailsWith(C.Handle(codec, s, e), None)
  {
    match e.kind
    case ItemAdded => AddedFits(s, e);
    case TextDoneKind => TextDoneFits(s, e);
    case _ =>
  }

  lemma AddedFits(s: C.Conv, e: StreamEvent)
    requires !s.terminal
    ensures FailsWith(C.ItemAddedStep(s, e), None)
  {
  }

  lemma TextDoneFits(s: C.Conv, e: StreamEvent)
    requires !s.terminal
    ensures FailsWith(C.TextDoneStep(s, e), None)
  {
  }

  lemma CallDoneClash(codec: Codec, s: C.Conv, outputIndex: int, arguments: string, input: string, custom: bool)
    requires !s.terminal
    ensures FailsWith(C.ToolDoneStep(codec, s, outputIndex, arguments, input, custom),
                      CallClash(codec, s, outputIndex, custom, if custom then input else arguments))
  {
  }

  lemma ItemDoneClash(codec: Codec, s: C.Conv, e: StreamEvent)
    requires !s.terminal && e.kind.ItemDone?
    ensures FailsWith(C.ItemDoneStep(codec, s, e), Clash(codec, s, e))
  {
    if e.item.Some? {
      CallDoneClash(codec, s, e.outputIndex, e.item.value.arguments, "", false);
      CallDoneClash(codec, s, e.outputIndex, "", e.item.value.input, true);
    }
  }

  // ---- The beginning ----------------------------------------------------------------------

  /** The events that begin a message if they do not fail. */
  predicate Begins(e: StreamEvent) {
    match e.kind
    case CreatedKind => true
    case ItemAdded => e.item.Some?
    case TextDoneKind => e.text != ""
    case _ => IsTerminal(e.kind) || ((e.kind.TextDeltaKind? || IsReasoningDelta(e.kind)) && e.delta != "")
  }

  /** The first event of a message gives its id and model. */
  predicate BeginsWith(o: C.Outcome, s: C.Conv) {
    o.events != [] && o.events[0] == MessageStart(MessageResponse(s.responseId, s.model, [], None, NO_TOKENS))
  }

  lemma FirstFragment(s: C.Conv, kind: C.BlockKind, outputIndex: int, start: ContentBlock, delta: Delta)
    requires s == C.Initial(s.model).(responseId := s.responseId)
    ensures var o := C.FragmentStep(s, kind, outputIndex, start, delta); o.state.messageStarted && BeginsWith(o, s)
  {
  }

  lemma FirstEnding(codec: Codec, s: C.Conv, e: StreamEvent)
    requires s == C.Initial(s.model).(responseId := s.responseId)
    ensures var o := C.TerminalStep(codec, s, e); o.err.None? ==> o.state.messageStarted && BeginsWith(o, s)
  {
  }

  lemma FirstItem(s: C.Conv, e: StreamEvent)
    requires s == C.Initial(s.model).(responseId := s.responseId)
    ensures var o := C.ItemAddedStep(s, e);
            (o.state.messageStarted <==> e.item.Some?) && (e.item.Some? ==> BeginsWith(o, s))
  {
  }

  lemma FirstText(s: C.Conv, e: StreamEvent)
    requires s == C.Initial(s.model).(responseId := s.responseId)
    ensures var o := C.TextDoneStep(s, e);
            (o.state.messageStarted <==> e.text != "") && (e.text != "" ==> BeginsWith(o, s))
  {
    FirstFragment(s, C.TextKind, e.outputIndex, TextBlock(""), TextDelta(e.text));
  }

  /** What a first event does: it begins the message or leaves it. */
  predicate FirstDone(o: C.Outcome, s: C.Conv, e: StreamEvent) {
    o.err.None? ==> (o.state.messageStarted <==> Begins(e)) && (Begins(e) ==> BeginsWith(o, s))
  }

  lemma FirstDelta(s: C.Conv, e: StreamEvent)
    requires s == C.Initial(s.model).(responseId := s.responseId)
    ensures e.kind.TextDeltaKind? ==> FirstDone(C.TextDeltaStep(s, e.outputIndex, e.delta), s, e)
    ensures IsReasoningDelta(e.kind) ==> FirstDone(C.ReasoningDeltaStep(s, e.outputIndex, e.delta), s, e)
  {
    FirstFragment(s, C.TextKind, e.outputIndex, TextBlock(""), TextDelta(e.delta));
    FirstFragment(s, C.ThinkingKind, e.outputIndex, ThinkingBlock("", ""), ThinkingDelta(e.delta));
    hide C.FragmentStep;
  }

  lemma FirstOther(codec: Codec, s: C.Conv, e: StreamEvent)
    requires s == C.Initial(s.model).(responseId := s.responseId)
    requires !IsTerminal(e.kind) && !e.kind.ItemAdded? && !e.kind.TextDoneKind? && !e.kind.TextDeltaKind?
    requires !IsReasoningDelta(e.kind)
    ensures FirstDone(C.Handle(codec, s, e), s, e)
  {
    hide C.TerminalStep, C.ItemAddedStep, C.TextDoneStep, C.TextDeltaStep, C.ReasoningDeltaStep;
  }

  lemma FirstHandled(codec: Codec, s: C.Conv, e: StreamEvent)
    requires s == C.Initial(s.model).(responseId := s.responseId)
    ensures FirstDone(C.Handle(codec, s, e), s, e)
  {
    hide C.TerminalStep, C.ItemAddedStep, C.TextDoneStep, C.TextDeltaStep, C.ReasoningDeltaStep, C.ToolDeltaStep,
      C.ToolDoneStep, C.ReasoningDoneStep, C.ItemDoneStep, BeginsWith;
    if IsTerminal(e.kind) {
      FirstEnding(codec, s, e);
    } else if e.kind.ItemAdded? {
      FirstItem(s, e);
    } else if e.kind.TextDoneKind? {
      FirstText(s, e);
    } else if e.kind.TextDeltaKind? || IsReasoningDelta(e.kind) {
      FirstDelta(s, e);
    } else {
      FirstOther(codec, s, e);
    }
  }

  /** The responses that events of any kind carry, in order. */
  function CarriedByAny(es: seq<StreamEvent>): seq<Response> {
    if es == [] then []
    else
      var last := es[|es| - 1];
      CarriedByAny(es[..|es| - 1]) + if last.response.Some? then [last.response.value] else []
  }

  /** The client's label for the model and then every model that upstream has named. */
  function ModelsNamed(model: string, rs: seq<Response>): seq<string> {
    if rs == [] then [model] else ModelsNamed(model, rs[..|rs| - 1]) + [rs[|rs| - 1].model]
  }

  lemma ModelsNamedLast(model: string, rs: seq<Response>, r: Response)
    ensures FirstNonEmpty(ModelsNamed(model, rs + [r])) == NonEmpty(FirstNonEmpty(ModelsNamed(model, rs)), r.model)
  {
    assert (rs + [r])[..|rs|] == rs;
    FirstNonEmptyLast(ModelsNamed(model, rs), r.model);
  }

  /** The id and the model a message that begins now is given. */
  predicate NamedBy(s: C.Conv, model: string, rs: seq<Response>) {
    s.responseId == LastBy(rs, IdOf, "") && s.model == FirstNonEmpty(ModelsNamed(model, rs))
  }

  lemma CaptureNames(s: C.Conv, model: string, rs: seq<Response>, r: Response)
    requires NamedBy(s, model, rs)
    ensures NamedBy(C.CaptureMetadata(s, Some(r)), model, rs + [r])
  {
    LastByAppend(rs, r, IdOf, "");
    ModelsNamedLast(model, rs, r);
  }

  lemma StepNames(codec: Codec, s: C.Conv, model: string, rs: seq<Response>, e: StreamEvent)
    requires NamedBy(s, model, rs) && !s.terminal
    ensures NamedBy(C.CaptureMetadata(s, e.response), model,
                    rs + if e.response.Some? then [e.response.value] else [])
  {
    if e.response.Some? {
      CaptureNames(s, model, rs, e.response.value);
    } else {
      Regroup(rs, [], []);
    }
  }

  lemma {:induction false} NamesSoFar(codec: Codec, model: string, es: seq<StreamEvent>)
    requires !ConverterAfter(codec, model, es).terminal
    ensures NamedBy(ConverterAfter(codec, model, es), model, CarriedByAny(es))
  {
    if es != [] {
      var n := |es| - 1;
      var s := ConverterAfter(codec, model, es[..n]);
      assert !s.terminal;
      NamesSoFar(codec, model, es[..n]);
      StepNames(codec, s, model, CarriedByAny(es[..n]), es[n]);
      HandleKeepsNames(codec, C.CaptureMetadata(s, es[n].response), es[n]);
    }
  }

  lemma OpeningKeepsNames(s: C.Conv, b: C.ActiveBlock, start: ContentBlock)
    ensures SameNames(s, C.Open(s, b, start).state)
  {
  }

  lemma AddedKeepsNames(s: C.Conv, e: StreamEvent)
    ensures SameNames(s, C.ItemAddedStep(s, e).state)
  {
    if e.item.Some? {
      var item := e.item.value;
      var b := C.NewBlock(e.outputIndex, C.ThinkingKind).(signature := item.encryptedContent);
      OpeningKeepsNames(s, b, ThinkingBlock("", ""));
      CallOpenKeepsNames(s, e.outputIndex, item, item.kind.CustomToolCall?);
      hide C.Open, C.OpenTool;
    }
  }

  lemma CallOpenKeepsNames(s: C.Conv, outputIndex: int, item: OutputItem, custom: bool)
    ensures SameNames(s, C.OpenTool(s, outputIndex, item, custom).state)
  {
    var b := C.NewBlock(outputIndex, C.ToolKind).(callId := item.callId, toolName := item.name, custom := custom);
    OpeningKeepsNames(s, b, ToolUseBlock(item.callId, item.name, "{}"));
    hide C.Open;
  }

  lemma TextKeepsNames(s: C.Conv, outputIndex: int, text: string)
    ensures SameNames(s, C.TextDeltaStep(s, outputIndex, text).state)
    ensures SameNames(s, C.ReasoningDeltaStep(s, outputIndex, text).state)
  {
    FragmentKeepsNames(s, C.TextKind, outputIndex, TextBlock(""), TextDelta(text));
    FragmentKeepsNames(s, C.ThinkingKind, outputIndex, ThinkingBlock("", ""), ThinkingDelta(text));
    hide C.FragmentStep;
  }

  lemma TextDoneKeepsNames(s: C.Conv, e: StreamEvent)
    ensures SameNames(s, C.TextDoneStep(s, e).state)
  {
    TextKeepsNames(s, e.outputIndex, e.text);
    hide C.TextDeltaStep;
  }

  lemma CallsKeepNames(codec: Codec, s: C.Conv, outputIndex: int, arguments: string, input: string, custom: bool)
    ensures SameNames(s, C.ToolDoneStep(codec, s, outputIndex, arguments, input, custom).state)
  {
  }

  lemma ItemDoneKeepsNames(codec: Codec, s: C.Conv, e: StreamEvent)
    ensures SameNames(s, C.ItemDoneStep(codec, s, e).state)
  {
    if e.item.Some? {
      CallsKeepNames(codec, s, e.outputIndex, e.item.value.arguments, "", false);
      CallsKeepNames(codec, s, e.outputIndex, "", e.item.value.input, true);
    }
  }

  lemma TerminalKeepsNames(codec: Codec, s: C.Conv, e: StreamEvent)
    ensures SameNames(s, C.TerminalStep(codec, s, e).state)
  {
  }

  lemma OthersKeepNames(s: C.Conv, e: StreamEvent)
    ensures SameNames(s, C.ToolDeltaStep(s, e, false).state) && SameNames(s, C.ToolDeltaStep(s, e, true).state)
    ensures SameNames(s, C.ReasoningDoneStep(s, e).state)
  {
    ToolKeepsNames(s, e, false);
    ToolKeepsNames(s, e, true);
    hide C.ToolDeltaStep;
  }

  lemma HandleKeepsNames(codec: Codec, s: C.Conv, e: StreamEvent)
    ensures SameNames(s, C.Handle(codec, s, e).state)
  {
    hide C.ItemAddedStep, C.TextDoneStep, C.ItemDoneStep, C.TerminalStep, C.TextDeltaStep, C.ReasoningDeltaStep,
      C.ToolDeltaStep, C.ToolDoneStep, C.ReasoningDoneStep;
    match e.kind
    case ItemAdded => AddedKeepsNames(s, e);
    case TextDeltaKind => TextKeepsNames(s, e.outputIndex, e.delta);
    case SummaryDelta => TextKeepsNames(s, e.outputIndex, e.delta);
    case ReasoningTextDelta => TextKeepsNames(s, e.outputIndex, e.delta);
    case TextDoneKind => TextDoneKeepsNames(s, e);
    case ArgumentsDone => CallsKeepNames(codec, s, e.outputIndex, e.arguments, "", false);
    case CustomInputDone => CallsKeepNames(codec, s, e.outputIndex, "", e.input, true);
    case ItemDone => ItemDoneKeepsNames(codec, s, e);
    case CompletedKind => TerminalKeepsNames(codec, s, e);
    case DoneKind => TerminalKeepsNames(codec, s, e);
    case IncompleteKind => TerminalKeepsNames(codec, s, e);
    case _ => OthersKeepNames(s, e);
  }

  /** A client that is still waiting sees its message begin exactly at such an event, with the
      last id that upstream has given and, unless the client has its own label, the first model. */
  lemma BeginsExactly(codec: Codec, model: string, es: seq<StreamEvent>, e: StreamEvent)
    requires !ConverterAfter(codec, model, es).terminal
    requires ConsumeAll(Waiting, C.Run(codec, C.Initial(model), es).events).Waiting?
    ensures var o := C.Step(codec, ConverterAfter(codec, model, es), e);
            var rs := CarriedByAny(es + [e]);
            && (!ConsumeAll(Waiting, C.Run(codec, C.Initial(model), es + [e]).events).Waiting? <==>
                Begins(e) && o.err.None?)
            && (Begins(e) && o.err.None? ==>
                  && o.events != []
                  && o.events[0] == MessageStart(MessageResponse(LastBy(rs, IdOf, ""),
                                                                 FirstNonEmpty(ModelsNamed(model, rs)),
                                                                 [], None, NO_TOKENS)))
  {
    var r := C.Run(codec, C.Initial(model), es);
    var s := C.CaptureMetadata(r.state, e.response);
    EveryRunTied(codec, model, es);
    NamesSoFar(codec, model, es);
    StepNames(codec, r.state, model, CarriedByAny(es), e);
    FirstHandled(codec, s, e);
    Grammar.StepKeeps(codec, r.state, Waiting, e);
    assert (es + [e])[..|es|] == es;
    ConsumeAllConcat(Waiting, r.events, C.Step(codec, r.state, e).events);
    hide C.Handle, LastBy, ModelsNamed, FirstNonEmpty, Begins, C.CaptureMetadata;
  }
}
