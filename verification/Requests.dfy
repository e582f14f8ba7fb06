/** Anthropic messages to Responses input items, on decoded content. */
module Requests {
  import opened Text

  datatype ImageSource = ImageSource(mediaType: string, data: string)

  /** A content block of a request. A field that is not an image or a tool input is text
      as decoded; a tool input is the JSON text itself. */
  datatype Block =
    | Text(text: string)
    | Image(source: Option<ImageSource>)
    | Thinking(thinking: string, signature: string)
    | ToolUse(id: string, name: string, input: string)
    | ToolResult(toolUseId: string, content: Content, isError: bool)
    | OtherBlock(kind: string)

  /** What a content field holds: nothing, a string, a list of blocks or something else. */
  datatype Content = Absent | Plain(text: string) | Blocks(blocks: seq<Block>) | Malformed

  datatype Role = User | Assistant | OtherRole(name: string)

  datatype Message = Message(role: Role, content: Content)

  datatype Part = InputText(text: string) | OutputText(text: string) | InputImage(url: string)

  datatype InputItem =
    | MessageItem(role: string, content: seq<Part>)
    | ReasoningItem(encryptedContent: string)
    | CallItem(callId: string, name: string, arguments: string)
    | OutputItem(callId: string, output: string)

  datatype ConvertError = BadSystem | BadContent(message: nat) | UnsupportedRole(message: nat)

  const EMPTY_OUTPUT := "(empty)"
  const BILLING_HEADER := "x-anthropic-billing-header: "
  const BLANK_LINE := "\n\n"

  // ---- What the conversions give ---------------------------------------------------

  function ImageDataUri(source: Option<ImageSource>): string {
    if source.None? || source.value.data == "" then ""
    else "data:" + NonEmpty(source.value.mediaType, "image/png") + ";base64," + source.value.data
  }

  function FormatToolResult(output: string, isError: bool): string {
    if !isError then output
    else if output == EMPTY_OUTPUT || IsBlank(output)
        then "[tool_error]\nTool execution failed without an error message."
    else "[tool_error]\n" + output
  }

  /** The non-empty texts of text blocks. */
  function TextsOf(blocks: seq<Block>): seq<string> {
    if blocks == [] then []
    else
      var last := blocks[|blocks| - 1];
      TextsOf(blocks[..|blocks| - 1]) + (if last.Text? && last.text != "" then [last.text] else [])
  }

  function ImagesOf(blocks: seq<Block>): seq<Part> {
    if blocks == [] then []
    else
      var last := blocks[|blocks| - 1];
      ImagesOf(blocks[..|blocks| - 1]) +
      (if last.Image? && ImageDataUri(last.source) != "" then [InputImage(ImageDataUri(last.source))] else [])
  }

  function ResultText(content: Content): string {
    match content
    case Plain(text) => NonEmpty(text, EMPTY_OUTPUT)
    case Blocks(blocks) => NonEmpty(Join(TextsOf(blocks), BLANK_LINE), EMPTY_OUTPUT)
    case _ => EMPTY_OUTPUT
  }

  function ResultImages(content: Content): seq<Part> {
    if content.Blocks? then ImagesOf(content.blocks) else []
  }

  function ResultItem(block: Block): seq<InputItem> {
    if block.ToolResult? then [OutputItem(block.toolUseId, FormatToolResult(ResultText(block.content), block.isError))]
    else []
  }

  function ResultItems(blocks: seq<Block>): seq<InputItem> {
    if blocks == [] then []
    else ResultItems(blocks[..|blocks| - 1]) + ResultItem(blocks[|blocks| - 1])
  }

  function AllResultImages(blocks: seq<Block>): seq<Part> {
    if blocks == [] then []
    else
      var last := blocks[|blocks| - 1];
      AllResultImages(blocks[..|blocks| - 1]) + (if last.ToolResult? then ResultImages(last.content) else [])
  }

  function UserPart(block: Block): seq<Part> {
    if block.Text? && block.text != "" then [InputText(block.text)]
    else if block.Image? && ImageDataUri(block.source) != "" then [InputImage(ImageDataUri(block.source))]
    else []
  }

  function UserParts(blocks: seq<Block>): seq<Part> {
    if blocks == [] then []
    else UserParts(blocks[..|blocks| - 1]) + UserPart(blocks[|blocks| - 1])
  }

  /** Tool results first, then everything else as one message. */
  function UserItems(blocks: seq<Block>): seq<InputItem> {
    var parts := UserParts(blocks) + AllResultImages(blocks);
    ResultItems(blocks) + if parts != [] then [MessageItem("user", parts)] else []
  }

  function ReasoningItems(blocks: seq<Block>): seq<InputItem> {
    if blocks == [] then []
    else
      var last := blocks[|blocks| - 1];
      ReasoningItems(blocks[..|blocks| - 1]) +
      (if last.Thinking? && !IsBlank(last.signature) then [ReasoningItem(last.signature)] else [])
  }

  function CallItemOf(block: Block): seq<InputItem> {
    if block.ToolUse? then [CallItem(block.id, block.name, if IsBlank(block.input) then "{}" else block.input)] else []
  }

  function CallItems(blocks: seq<Block>): seq<InputItem> {
    if blocks == [] then []
    else CallItems(blocks[..|blocks| - 1]) + CallItemOf(blocks[|blocks| - 1])
  }

  function TextItem(texts: seq<string>): seq<InputItem> {
    if texts == [] then [] else [MessageItem("assistant", [OutputText(Join(texts, BLANK_LINE))])]
  }

  /** Reasoning, then the text as one message, then the calls. */
  function AssistantItems(blocks: seq<Block>): seq<InputItem> {
    ReasoningItems(blocks) + TextItem(TextsOf(blocks)) + CallItems(blocks)
  }

  function MessageItems(message: Message, at: nat): Result<seq<InputItem>, ConvertError> {
    match message.role
    case User =>
      (match message.content
       case Plain(text) => Ok([MessageItem("user", [InputText(text)])])
       case Blocks(blocks) => Ok(UserItems(blocks))
       case _ => Err(BadContent(at)))
    case Assistant =>
      (match message.content
       case Plain(text) => Ok([MessageItem("assistant", [OutputText(text)])])
       case Blocks(blocks) => Ok(AssistantItems(blocks))
       case _ => Err(BadContent(at)))
    case OtherRole(_) => Err(UnsupportedRole(at))
  }

  function SystemPart(block: Block): seq<Part> {
    if block.Text? && block.text != "" && !(BILLING_HEADER <= block.text) then [InputText(block.text)] else []
  }

  function SystemParts(blocks: seq<Block>): seq<Part> {
    if blocks == [] then []
    else SystemParts(blocks[..|blocks| - 1]) + SystemPart(blocks[|blocks| - 1])
  }

  function DeveloperItem(parts: seq<Part>): seq<InputItem> {
    if parts == [] then [] else [MessageItem("developer", parts)]
  }

  function SystemItems(system: Content): Result<seq<InputItem>, ConvertError> {
    match system
    case Absent => Ok([])
    case Plain(text) => Ok(DeveloperItem(SystemPart(Text(text))))
    case Blocks(blocks) => Ok(DeveloperItem(SystemParts(blocks)))
    case Malformed => Err(BadSystem)
  }

  /** All input items, or the error of the first part that has one. */
  function InputItems(system: Content, messages: seq<Message>): Result<seq<InputItem>, ConvertError> {
    if messages == [] then SystemItems(system)
    else
      var front := InputItems(system, messages[..|messages| - 1]);
      if front.Err? then front
      else
        var last := MessageItems(messages[|messages| - 1], |messages| - 1);
        if last.Err? then last else Ok(front.value + last.value)
  }

  // ---- The conversions ----------------------------------------------------------------

  method ConvertToolResult(content: Content, isError: bool) returns (output: string, images: seq<Part>)
    ensures output == FormatToolResult(ResultText(content), isError)
    ensures images == ResultImages(content)
  {
    match content {
      case Plain(text) =>
        return FormatToolResult(NonEmpty(text, EMPTY_OUTPUT), isError), [];
      case Blocks(blocks) =>
        var textParts;
        textParts, images := CollectResult(blocks);
        output := Join(textParts, BLANK_LINE);
        if output == "" {
          output := EMPTY_OUTPUT;
        }
        output := FormatToolResult(output, isError);
      case _ =>
        return FormatToolResult(EMPTY_OUTPUT, isError), [];
    }
  }

  method CollectResult(blocks: seq<Block>) returns (textParts: seq<string>, images: seq<Part>)
    ensures textParts == TextsOf(blocks) && images == ImagesOf(blocks)
  {
    textParts, images := [], [];
    for i := 0 to |blocks|
      invariant textParts == TextsOf(blocks[..i]) && images == ImagesOf(blocks[..i])
    {
      assert blocks[..i + 1][..i] == blocks[..i];
      match blocks[i] {
        case Text(text) =>
          if text != "" {
            textParts := textParts + [text];
          }
        case Image(source) =>
          var url := ImageDataUri(source);
          if url != "" {
            images := images + [InputImage(url)];
          }
        case _ =>
      }
    }
    assert blocks[..|blocks|] == blocks;
  }

  method ConvertUserBlocks(blocks: seq<Block>) returns (out: seq<InputItem>)
    ensures out == UserItems(blocks)
  {
    out := [];
    var resultImages: seq<Part> := [];
    for i := 0 to |blocks|
      invariant out == ResultItems(blocks[..i]) && resultImages == AllResultImages(blocks[..i])
    {
      assert blocks[..i + 1][..i] == blocks[..i];
      if blocks[i].ToolResult? {
        var output, images := ConvertToolResult(blocks[i].content, blocks[i].isError);
        out := out + [OutputItem(blocks[i].toolUseId, output)];
        resultImages := resultImages + images;
      }
    }
    assert blocks[..|blocks|] == blocks;
    var parts := CollectUserParts(blocks);
    parts := parts + resultImages;
    if |parts| > 0 {
      out := out + [MessageItem("user", parts)];
    }
  }

  method CollectUserParts(blocks: seq<Block>) returns (parts: seq<Part>)
    ensures parts == UserParts(blocks)
  {
    parts := [];
    for i := 0 to |blocks|
      invariant parts == UserParts(blocks[..i])
    {
      assert blocks[..i + 1][..i] == blocks[..i];
      match blocks[i] {
        case Text(text) =>
          if text != "" {
            parts := parts + [InputText(text)];
          }
        case Image(source) =>
          var url := ImageDataUri(source);
          if url != "" {
            parts := parts + [InputImage(url)];
          }
        case _ =>
      }
    }
    assert blocks[..|blocks|] == blocks;
  }

  method ConvertAssistantBlocks(blocks: seq<Block>) returns (out: seq<InputItem>)
    ensures out == AssistantItems(blocks)
  {
    out := CollectReasoning(blocks);
    var textParts := CollectTexts(blocks);
    if |textParts| > 0 {
      out := out + [MessageItem("assistant", [OutputText(Join(textParts, BLANK_LINE))])];
    }
    out := AppendCalls(out, blocks);
  }

  method AppendCalls(items: seq<InputItem>, blocks: seq<Block>) returns (out: seq<InputItem>)
    ensures out == items + CallItems(blocks)
  {
    out := items;
    for i := 0 to |blocks|
      invariant out == items + CallItems(blocks[..i])
    {
      assert blocks[..i + 1][..i] == blocks[..i];
      Regroup(items, CallItems(blocks[..i]), CallItemOf(blocks[i]));
      if blocks[i].ToolUse? {
        var arguments := "{}";
        if !IsBlank(blocks[i].input) {
          arguments := blocks[i].input;
        }
        out := out + [CallItem(blocks[i].id, blocks[i].name, arguments)];
      }
    }
    assert blocks[..|blocks|] == blocks;
  }

  method CollectReasoning(blocks: seq<Block>) returns (out: seq<InputItem>)
    ensures out == ReasoningItems(blocks)
  {
    out := [];
    for i := 0 to |blocks|
      invariant out == ReasoningItems(blocks[..i])
    {
      assert blocks[..i + 1][..i] == blocks[..i];
      if blocks[i].Thinking? && !IsBlank(blocks[i].signature) {
        out := out + [ReasoningItem(blocks[i].signature)];
      }
    }
    assert blocks[..|blocks|] == blocks;
  }

  method CollectTexts(blocks: seq<Block>) returns (texts: seq<string>)
    ensures texts == TextsOf(blocks)
  {
    texts := [];
    for i := 0 to |blocks|
      invariant texts == TextsOf(blocks[..i])
    {
      assert blocks[..i + 1][..i] == blocks[..i];
      if blocks[i].Text? && blocks[i].text != "" {
        texts := texts + [blocks[i].text];
      }
    }
    assert blocks[..|blocks|] == blocks;
  }

  method ConvertSystem(system: Content) returns (r: Result<seq<Part>, ConvertError>)
    ensures SystemItems(system) == if r.Ok? then Ok(DeveloperItem(r.value)) else Err(r.error)
  {
    match system {
      case Absent => return Ok([]);
      case Malformed => return Err(BadSystem);
      case Plain(text) =>
        if text == "" || BILLING_HEADER <= text {
          return Ok([]);
        }
        return Ok([InputText(text)]);
      case Blocks(blocks) =>
        var parts: seq<Part> := [];
        for i := 0 to |blocks|
          invariant parts == SystemParts(blocks[..i])
        {
          assert blocks[..i + 1][..i] == blocks[..i];
          if blocks[i].Text? && blocks[i].text != "" && !(BILLING_HEADER <= blocks[i].text) {
            parts := parts + [InputText(blocks[i].text)];
          }
        }
        assert blocks[..|blocks|] == blocks;
        return Ok(parts);
    }
  }

  method ConvertMessage(message: Message, at: nat) returns (r: Result<seq<InputItem>, ConvertError>)
    ensures r == MessageItems(message, at)
  {
    match message.role {
      case User =>
        match message.content {
          case Plain(text) => return Ok([MessageItem("user", [InputText(text)])]);
          case Blocks(blocks) =>
            var items := ConvertUserBlocks(blocks);
            return Ok(items);
          case _ => return Err(BadContent(at));
        }
      case Assistant =>
        match message.content {
          case Plain(text) => return Ok([MessageItem("assistant", [OutputText(text)])]);
          case Blocks(blocks) =>
            var items := ConvertAssistantBlocks(blocks);
            return Ok(items);
          case _ => return Err(BadContent(at));
        }
      case OtherRole(_) => return Err(UnsupportedRole(at));
    }
  }

  method ConvertInput(system: Content, messages: seq<Message>) returns (r: Result<seq<InputItem>, ConvertError>)
    ensures r == InputItems(system, messages)
  {
    var parts := ConvertSystem(system);
    if parts.Err? {
      ErrorIsFirst(system, messages, 0);
      return Err(parts.error);
    }
    var out := DeveloperItem(parts.value);
    for i := 0 to |messages|
      invariant InputItems(system, messages[..i]) == Ok(out)
    {
      assert messages[..i + 1][..i] == messages[..i];
      var items := ConvertMessage(messages[i], i);
      if items.Err? {
        ErrorIsFirst(system, messages, i + 1);
        return items;
      }
      out := out + items.value;
    }
    assert messages[..|messages|] == messages;
    return Ok(out);
  }

  lemma {:induction false} ErrorIsFirst(system: Content, messages: seq<Message>, n: nat)
    requires n <= |messages| && InputItems(system, messages[..n]).Err?
    ensures InputItems(system, messages) == InputItems(system, messages[..n])
    decreases |messages|
  {
    if n < |messages| {
      assert messages[..|messages| - 1][..n] == messages[..n];
      ErrorIsFirst(system, messages[..|messages| - 1], n);
    } else {
      assert messages[..n] == messages;
    }
  }

  // ---- Nothing a user says is lost ------------------------------------------------------

  function TextsIn(parts: seq<Part>): seq<string> {
    if parts == [] then []
    else
      var last := parts[|parts| - 1];
      TextsIn(parts[..|parts| - 1]) + (if last.InputText? then [last.text] else [])
  }

  function ImagesIn(parts: seq<Part>): seq<Part> {
    if parts == [] then []
    else
      var last := parts[|parts| - 1];
      ImagesIn(parts[..|parts| - 1]) + (if last.InputImage? then [last] else [])
  }

  /** The parts of all messages among the items. */
  function MessageParts(items: seq<InputItem>): seq<Part> {
    if items == [] then []
    else
      var last := items[|items| - 1];
      MessageParts(items[..|items| - 1]) + (if last.MessageItem? then last.content else [])
  }

  lemma {:induction false} PartsAppend(a: seq<Part>, b: seq<Part>)
    ensures TextsIn(a + b) == TextsIn(a) + TextsIn(b)
    ensures ImagesIn(a + b) == ImagesIn(a) + ImagesIn(b)
  {
    if b == [] {
      assert a + b == a;
    } else {
      var n := |b| - 1;
      PartsAppend(a, b[..n]);
      assert (a + b)[..|a + b| - 1] == a + b[..n] && (a + b)[|a + b| - 1] == b[n];
    }
  }

  lemma AtMostOne(parts: seq<Part>)
    requires |parts| <= 1
    ensures TextsIn(parts) == if parts != [] && parts[0].InputText? then [parts[0].text] else []
    ensures ImagesIn(parts) == if parts != [] && parts[0].InputImage? then parts else []
  {
    if parts != [] {
      assert parts[..0] == [] && parts == [parts[0]];
    }
  }

  lemma {:induction false} UserTextsKept(blocks: seq<Block>)
    ensures TextsIn(UserParts(blocks)) == TextsOf(blocks)
  {
    if blocks != [] {
      var front, last := blocks[..|blocks| - 1], blocks[|blocks| - 1];
      UserTextsKept(front);
      assert UserParts(blocks) == UserParts(front) + UserPart(last);
      PartsAppend(UserParts(front), UserPart(last));
      TextOfPart(last);
    }
  }

  lemma {:induction false} UserImagesKept(blocks: seq<Block>)
    ensures ImagesIn(UserParts(blocks)) == ImagesOf(blocks)
  {
    if blocks != [] {
      var front, last := blocks[..|blocks| - 1], blocks[|blocks| - 1];
      UserImagesKept(front);
      assert UserParts(blocks) == UserParts(front) + UserPart(last);
      PartsAppend(UserParts(front), UserPart(last));
      ImageOfPart(last);
    }
  }

  lemma ImageOfPart(block: Block)
    ensures ImagesIn(UserPart(block)) ==
            if block.Image? && ImageDataUri(block.source) != "" then [InputImage(ImageDataUri(block.source))] else []
  {
    AtMostOne(UserPart(block));
  }

  lemma TextOfPart(block: Block)
    ensures TextsIn(UserPart(block)) == if block.Text? && block.text != "" then [block.text] else []
  {
    AtMostOne(UserPart(block));
  }

  lemma {:induction false} OnlyImages(parts: seq<Part>)
    requires forall i | 0 <= i < |parts| :: parts[i].InputImage?
    ensures TextsIn(parts) == [] && ImagesIn(parts) == parts
  {
    if parts != [] {
      var n := |parts| - 1;
      OnlyImages(parts[..n]);
      assert TextsIn(parts) == TextsIn(parts[..n]) + [];
      assert ImagesIn(parts) == ImagesIn(parts[..n]) + [parts[n]];
      assert parts == parts[..n] + [parts[n]];
    }
  }

  lemma {:induction false} ImagesAreImages(blocks: seq<Block>)
    ensures forall i | 0 <= i < |ImagesOf(blocks)| :: ImagesOf(blocks)[i].InputImage?
  {
    if blocks != [] {
      ImagesAreImages(blocks[..|blocks| - 1]);
    }
  }

  lemma {:induction false} ResultImagesAreImages(blocks: seq<Block>)
    ensures forall i | 0 <= i < |AllResultImages(blocks)| :: AllResultImages(blocks)[i].InputImage?
  {
    if blocks != [] {
      var last := blocks[|blocks| - 1];
      ResultImagesAreImages(blocks[..|blocks| - 1]);
      if last.ToolResult? && last.content.Blocks? {
        ImagesAreImages(last.content.blocks);
      }
    }
  }

  lemma {:induction false} ResultsAreNoMessages(blocks: seq<Block>)
    ensures MessageParts(ResultItems(blocks)) == []
  {
    if blocks != [] {
      var front, last := ResultItems(blocks[..|blocks| - 1]), ResultItem(blocks[|blocks| - 1]);
      ResultsAreNoMessages(blocks[..|blocks| - 1]);
      if last == [] {
        assert front + last == front;
      } else {
        assert (front + last)[..|front|] == front;
      }
    }
  }

  /** A user message keeps its texts in order, and its images followed by those of its
      tool results. */
  lemma UserMessageKeepsAll(blocks: seq<Block>)
    ensures var parts := MessageParts(UserItems(blocks));
            TextsIn(parts) == TextsOf(blocks) && ImagesIn(parts) == ImagesOf(blocks) + AllResultImages(blocks)
  {
    var own, images, results := UserParts(blocks), AllResultImages(blocks), ResultItems(blocks);
    ResultsAreNoMessages(blocks);
    UserTextsKept(blocks);
    UserImagesKept(blocks);
    ResultImagesAreImages(blocks);
    OnlyImages(images);
    PartsAppend(own, images);
    if own + images != [] {
      MessageLast(results, own + images);
    } else {
      assert UserItems(blocks) == results;
    }
  }

  lemma MessageLast(results: seq<InputItem>, parts: seq<Part>)
    requires MessageParts(results) == []
    ensures MessageParts(results + [MessageItem("user", parts)]) == parts
  {
    assert (results + [MessageItem("user", parts)])[..|results|] == results;
  }
}
