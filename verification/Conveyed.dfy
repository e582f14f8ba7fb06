/** What a request says, block by block from the front, and what its input items say: the
    same texts, pictures, results, calls and ciphertexts, in the same order. */
module Conveyed {
  import opened Text
  import opened Requests

  datatype Entry =
    | Said(role: string, text: string)
    | Answered(text: string)
    | Pictured(url: string)
    | Thought(ciphertext: string)
    | Called(id: string, name: string, arguments: string)
    | Returned(id: string, text: string)

  // ---- What items say -----------------------------------------------------------------

  /** An output text is an answer and belongs to the assistant; pictures to the user. */
  function PartSays(role: string, part: Part): seq<Entry> {
    match part
    case InputText(text) => [Said(role, text)]
    case OutputText(text) => if role == "assistant" then [Answered(text)] else []
    case InputImage(url) => if role == "user" then [Pictured(url)] else []
  }

  function PartsSay(role: string, parts: seq<Part>): seq<Entry> {
    if parts == [] then [] else PartSays(role, parts[0]) + PartsSay(role, parts[1..])
  }

  function ItemSays(item: InputItem): seq<Entry> {
    match item
    case MessageItem(role, content) => PartsSay(role, content)
    case ReasoningItem(ciphertext) => [Thought(ciphertext)]
    case CallItem(id, name, arguments) => [Called(id, name, arguments)]
    case OutputItem(id, output) => [Returned(id, output)]
  }

  function ItemsSay(items: seq<InputItem>): seq<Entry> {
    if items == [] then [] else ItemSays(items[0]) + ItemsSay(items[1..])
  }

  // ---- What a request says ------------------------------------------------------------

  function Gather(blocks: seq<Block>, says: Block -> seq<Entry>): seq<Entry> {
    if blocks == [] then [] else says(blocks[0]) + Gather(blocks[1..], says)
  }

  /** The non-empty texts. */
  function Texts(blocks: seq<Block>): seq<string> {
    if blocks == [] then []
    else (if blocks[0].Text? && blocks[0].text != "" then [blocks[0].text] else []) + Texts(blocks[1..])
  }

  /** Paragraphs with a blank line between each and the next. */
  function Paragraphs(texts: seq<string>): string {
    if texts == [] then "" else if |texts| == 1 then texts[0] else texts[0] + "\n\n" + Paragraphs(texts[1..])
  }

  function Picture(block: Block): seq<Entry> {
    match block
    case Image(Some(ImageSource(mediaType, data))) =>
      if data == "" then []
      else [Pictured("data:" + (if mediaType == "" then "image/png" else mediaType) + ";base64," + data)]
    case _ => []
  }

  function SystemSays(block: Block): seq<Entry> {
    match block
    case Text(text) => if text == "" || "x-anthropic-billing-header: " <= text then [] else [Said("developer", text)]
    case _ => []
  }

  function UserSays(block: Block): seq<Entry> {
    match block
    case Text(text) => if text == "" then [] else [Said("user", text)]
    case _ => Picture(block)
  }

  /** The text of a result: a string, or paragraphs. */
  function ResultSays(content: Content): string {
    match content
    case Plain(text) => text
    case Blocks(blocks) => Paragraphs(Texts(blocks))
    case _ => ""
  }

  function Result(block: Block): seq<Entry> {
    match block
    case ToolResult(id, content, isError) =>
      var text := ResultSays(content);
      if !isError then [Returned(id, if text == "" then "(empty)" else text)]
      else if IsBlank(text) || text == "(empty)" then
        [Returned(id, "[tool_error]\nTool execution failed without an error message.")]
      else [Returned(id, "[tool_error]\n" + text)]
    case _ => []
  }

  function ResultPictures(block: Block): seq<Entry> {
    if block.ToolResult? && block.content.Blocks? then Gather(block.content.blocks, Picture) else []
  }

  function AssistantThinks(block: Block): seq<Entry> {
    match block
    case Thinking(_, signature) => if IsBlank(signature) then [] else [Thought(signature)]
    case _ => []
  }

  function AssistantCalls(block: Block): seq<Entry> {
    match block
    case ToolUse(id, name, input) => [Called(id, name, if IsBlank(input) then "{}" else input)]
    case _ => []
  }

  function SystemEntries(system: Content): seq<Entry> {
    match system
    case Plain(text) => SystemSays(Text(text))
    case Blocks(blocks) => Gather(blocks, SystemSays)
    case _ => []
  }

  function UserEntries(content: Content): seq<Entry> {
    match content
    case Plain(text) => [Said("user", text)]
    case Blocks(blocks) => Gather(blocks, Result) + Gather(blocks, UserSays) + Gather(blocks, ResultPictures)
    case _ => []
  }

  function AssistantEntries(content: Content): seq<Entry> {
    match content
    case Plain(text) => [Answered(text)]
    case Blocks(blocks) =>
      Gather(blocks, AssistantThinks) +
      (if Texts(blocks) == [] then [] else [Answered(Paragraphs(Texts(blocks)))]) +
      Gather(blocks, AssistantCalls)
    case _ => []
  }

  function MessageEntries(message: Message): seq<Entry> {
    match message.role
    case User => UserEntries(message.content)
    case Assistant => AssistantEntries(message.content)
    case OtherRole(_) => []
  }

  function MessagesEntries(messages: seq<Message>): seq<Entry> {
    if messages == [] then [] else MessageEntries(messages[0]) + MessagesEntries(messages[1..])
  }

  function RequestEntries(system: Content, messages: seq<Message>): seq<Entry> {
    SystemEntries(system) + MessagesEntries(messages)
  }

  // ---- Lists from either end ------------------------------------------------------------

  lemma {:induction false} PartsSayBoth(role: string, a: seq<Part>, b: seq<Part>)
    ensures PartsSay(role, a + b) == PartsSay(role, a) + PartsSay(role, b)
  {
    if a == [] {
      assert a + b == b;
    } else {
      PartsSayBoth(role, a[1..], b);
      assert (a + b)[1..] == a[1..] + b;
      Regroup(PartSays(role, a[0]), PartsSay(role, a[1..]), PartsSay(role, b));
    }
  }

  lemma {:induction false} ItemsSayBoth(a: seq<InputItem>, b: seq<InputItem>)
    ensures ItemsSay(a + b) == ItemsSay(a) + ItemsSay(b)
  {
    if a == [] {
      assert a + b == b;
    } else {
      ItemsSayBoth(a[1..], b);
      assert (a + b)[1..] == a[1..] + b;
      Regroup(ItemSays(a[0]), ItemsSay(a[1..]), ItemsSay(b));
    }
  }

  lemma OneSays(role: string, part: Part, item: InputItem)
    ensures PartsSay(role, [part]) == PartSays(role, part) && ItemsSay([item]) == ItemSays(item)
  {
    assert [part][1..] == [] && [item][1..] == [];
    Regroup(PartSays(role, part), [], []);
    Regroup(ItemSays(item), [], []);
  }

  lemma {:induction false} GatherLast(blocks: seq<Block>, last: Block, says: Block -> seq<Entry>)
    ensures Gather(blocks + [last], says) == Gather(blocks, says) + says(last)
  {
    if blocks == [] {
      assert ([] + [last])[1..] == [];
    } else {
      GatherLast(blocks[1..], last, says);
      assert (blocks + [last])[1..] == blocks[1..] + [last];
      Regroup(says(blocks[0]), Gather(blocks[1..], says), says(last));
    }
  }

  lemma {:induction false} TextsLast(blocks: seq<Block>, last: Block)
    ensures Texts(blocks + [last]) == Texts(blocks) + if last.Text? && last.text != "" then [last.text] else []
  {
    if blocks == [] {
      assert ([] + [last])[1..] == [];
    } else {
      TextsLast(blocks[1..], last);
      assert (blocks + [last])[1..] == blocks[1..] + [last];
    }
  }

  lemma {:induction false} TextsAgree(blocks: seq<Block>)
    ensures Texts(blocks) == TextsOf(blocks)
  {
    if blocks != [] {
      var n := |blocks| - 1;
      var front, last := blocks[..n], blocks[n];
      TextsAgree(front);
      TextsLast(front, last);
      assert blocks == front + [last];
    }
  }

  lemma {:induction false} ParagraphsLast(texts: seq<string>, last: string)
    requires texts != []
    ensures Paragraphs(texts + [last]) == Paragraphs(texts) + "\n\n" + last
  {
    if |texts| == 1 {
      assert (texts + [last])[1..] == [last];
    } else {
      ParagraphsLast(texts[1..], last);
      assert (texts + [last])[1..] == texts[1..] + [last];
      Regroup(texts[0] + "\n\n", Paragraphs(texts[1..]), "\n\n" + last);
      Regroup(Paragraphs(texts[1..]), "\n\n", last);
      Regroup(texts[0] + "\n\n" + Paragraphs(texts[1..]), "\n\n", last);
    }
  }

  lemma {:induction false} ParagraphsJoin(texts: seq<string>)
    ensures Paragraphs(texts) == Join(texts, BLANK_LINE)
  {
    if |texts| > 1 {
      var front, last := texts[..|texts| - 1], texts[|texts| - 1];
      ParagraphsJoin(front);
      ParagraphsLast(front, last);
      assert texts == front + [last];
    }
  }

  // ---- Block by block -------------------------------------------------------------------

  /** What the parts of a list of blocks say, when every block adds its own. */
  lemma PartsStep(role: string, parts: seq<Part>, front: seq<Part>, more: seq<Part>, blocks: seq<Block>, n: nat,
                  says: Block -> seq<Entry>)
    requires |blocks| == n + 1 && parts == front + more
    requires PartsSay(role, front) == Gather(blocks[..n], says) && PartsSay(role, more) == says(blocks[n])
    ensures PartsSay(role, parts) == Gather(blocks, says)
  {
    hide *;
    assert blocks == blocks[..n] + [blocks[n]];
    PartsSayBoth(role, front, more);
    GatherLast(blocks[..n], blocks[n], says);
  }

  lemma ItemsStep(items: seq<InputItem>, front: seq<InputItem>, more: seq<InputItem>, blocks: seq<Block>, n: nat,
                  says: Block -> seq<Entry>)
    requires |blocks| == n + 1 && items == front + more
    requires ItemsSay(front) == Gather(blocks[..n], says) && ItemsSay(more) == says(blocks[n])
    ensures ItemsSay(items) == Gather(blocks, says)
  {
    hide *;
    assert blocks == blocks[..n] + [blocks[n]];
    ItemsSayBoth(front, more);
    GatherLast(blocks[..n], blocks[n], says);
  }

  lemma {:induction false} PicturesSay(blocks: seq<Block>)
    ensures PartsSay("user", ImagesOf(blocks)) == Gather(blocks, Picture)
  {
    if blocks != [] {
      var n := |blocks| - 1;
      var front, last := blocks[..n], blocks[n];
      var url := if last.Image? then ImageDataUri(last.source) else "";
      var more := if url != "" then [InputImage(url)] else [];
      PicturesSay(front);
      PictureSays(last, more);
      PartsStep("user", ImagesOf(blocks), ImagesOf(front), more, blocks, n, Picture);
    }
  }

  lemma PictureSays(block: Block, parts: seq<Part>)
    requires parts ==
             if block.Image? && ImageDataUri(block.source) != "" then [InputImage(ImageDataUri(block.source))] else []
    ensures PartsSay("user", parts) == Picture(block)
  {
    OneSays("user", InputImage(if block.Image? then ImageDataUri(block.source) else ""), ReasoningItem(""));
  }

  lemma {:induction false} UserPartsSay(blocks: seq<Block>)
    ensures PartsSay("user", UserParts(blocks)) == Gather(blocks, UserSays)
  {
    if blocks != [] {
      var n := |blocks| - 1;
      var front, last := blocks[..n], blocks[n];
      UserPartsSay(front);
      if last.Text? {
        OneSays("user", InputText(last.text), ReasoningItem(""));
      } else {
        PictureSays(last, UserPart(last));
      }
      PartsStep("user", UserParts(blocks), UserParts(front), UserPart(last), blocks, n, UserSays);
    }
  }

  lemma {:induction false} SystemPartsSay(blocks: seq<Block>)
    ensures PartsSay("developer", SystemParts(blocks)) == Gather(blocks, SystemSays)
  {
    if blocks != [] {
      var n := |blocks| - 1;
      var front, last := blocks[..n], blocks[n];
      SystemPartsSay(front);
      SystemPartSays(last);
      PartsStep("developer", SystemParts(blocks), SystemParts(front), SystemPart(last), blocks, n, SystemSays);
    }
  }

  lemma SystemPartSays(block: Block)
    ensures PartsSay("developer", SystemPart(block)) == SystemSays(block)
  {
    if block.Text? {
      OneSays("developer", InputText(block.text), ReasoningItem(""));
    }
  }

  lemma {:induction false} ResultPicturesSay(blocks: seq<Block>)
    ensures PartsSay("user", AllResultImages(blocks)) == Gather(blocks, ResultPictures)
  {
    if blocks != [] {
      var n := |blocks| - 1;
      var front, last := blocks[..n], blocks[n];
      var more := if last.ToolResult? then ResultImages(last.content) else [];
      ResultPicturesSay(front);
      if last.ToolResult? && last.content.Blocks? {
        PicturesSay(last.content.blocks);
      }
      PartsStep("user", AllResultImages(blocks), AllResultImages(front), more, blocks, n, ResultPictures);
    }
  }

  lemma ResultTextSays(content: Content)
    ensures ResultText(content) == NonEmpty(ResultSays(content), EMPTY_OUTPUT)
  {
    if content.Blocks? {
      TextsAgree(content.blocks);
      ParagraphsJoin(Texts(content.blocks));
    }
  }

  lemma ResultItemSays(block: Block)
    ensures ItemsSay(ResultItem(block)) == Result(block)
  {
    if block.ToolResult? {
      ResultTextSays(block.content);
      OneSays("", InputText(""), ResultItem(block)[0]);
    }
  }

  lemma {:induction false} ResultItemsSay(blocks: seq<Block>)
    ensures ItemsSay(ResultItems(blocks)) == Gather(blocks, Result)
  {
    if blocks != [] {
      var n := |blocks| - 1;
      var front, last := blocks[..n], blocks[n];
      ResultItemsSay(front);
      ResultItemSays(last);
      ItemsStep(ResultItems(blocks), ResultItems(front), ResultItem(last), blocks, n, Result);
    }
  }

  lemma ReasoningSays(block: Block, items: seq<InputItem>)
    requires items == if block.Thinking? && !IsBlank(block.signature) then [ReasoningItem(block.signature)] else []
    ensures ItemsSay(items) == AssistantThinks(block)
  {
    if items != [] {
      OneSays("", InputText(""), items[0]);
    }
  }

  lemma {:induction false} ReasoningItemsSay(blocks: seq<Block>)
    ensures ItemsSay(ReasoningItems(blocks)) == Gather(blocks, AssistantThinks)
  {
    if blocks != [] {
      var n := |blocks| - 1;
      var front, last := blocks[..n], blocks[n];
      var more := if last.Thinking? && !IsBlank(last.signature) then [ReasoningItem(last.signature)] else [];
      ReasoningItemsSay(front);
      ReasoningSays(last, more);
      ItemsStep(ReasoningItems(blocks), ReasoningItems(front), more, blocks, n, AssistantThinks);
    }
  }

  lemma CallSays(block: Block)
    ensures ItemsSay(CallItemOf(block)) == AssistantCalls(block)
  {
    if block.ToolUse? {
      OneSays("", InputText(""), CallItemOf(block)[0]);
    }
  }

  lemma {:induction false} CallItemsSay(blocks: seq<Block>)
    ensures ItemsSay(CallItems(blocks)) == Gather(blocks, AssistantCalls)
  {
    if blocks != [] {
      var n := |blocks| - 1;
      var front, last := blocks[..n], blocks[n];
      CallItemsSay(front);
      CallSays(last);
      ItemsStep(CallItems(blocks), CallItems(front), CallItemOf(last), blocks, n, AssistantCalls);
    }
  }

  // ---- Message by message ---------------------------------------------------------------

  lemma UserItemsSay(blocks: seq<Block>)
    ensures ItemsSay(UserItems(blocks)) == UserEntries(Blocks(blocks))
  {
    var parts := UserParts(blocks) + AllResultImages(blocks);
    var rest := if parts != [] then [MessageItem("user", parts)] else [];
    ResultItemsSay(blocks);
    UserPartsSay(blocks);
    ResultPicturesSay(blocks);
    PartsSayBoth("user", UserParts(blocks), AllResultImages(blocks));
    ItemsSayBoth(ResultItems(blocks), rest);
    OneSays("", InputText(""), MessageItem("user", parts));
    Regroup(Gather(blocks, Result), Gather(blocks, UserSays), Gather(blocks, ResultPictures));
  }

  lemma AssistantItemsSay(blocks: seq<Block>)
    ensures ItemsSay(AssistantItems(blocks)) == AssistantEntries(Blocks(blocks))
  {
    var thoughts, text, calls := ReasoningItems(blocks), TextItem(TextsOf(blocks)), CallItems(blocks);
    ReasoningItemsSay(blocks);
    CallItemsSay(blocks);
    TextsAgree(blocks);
    ParagraphsJoin(Texts(blocks));
    TextItemSays(Texts(blocks));
    ItemsSayBoth(thoughts, text);
    ItemsSayBoth(thoughts + text, calls);
  }

  lemma TextItemSays(texts: seq<string>)
    ensures ItemsSay(TextItem(texts)) == if texts == [] then [] else [Answered(Join(texts, BLANK_LINE))]
  {
    var part := OutputText(Join(texts, BLANK_LINE));
    OneSays("assistant", part, MessageItem("assistant", [part]));
  }

  lemma MessageSays(message: Message, at: nat)
    ensures MessageItems(message, at).Ok? ==> ItemsSay(MessageItems(message, at).value) == MessageEntries(message)
  {
    match message.content
    case Plain(text) =>
      OneSays("user", InputText(text), MessageItem("user", [InputText(text)]));
      OneSays("assistant", OutputText(text), MessageItem("assistant", [OutputText(text)]));
    case Blocks(blocks) =>
      UserItemsSay(blocks);
      AssistantItemsSay(blocks);
    case _ =>
  }

  lemma SystemItemsSay(system: Content)
    ensures SystemItems(system).Ok? ==> ItemsSay(SystemItems(system).value) == SystemEntries(system)
  {
    match system
    case Plain(text) =>
      SystemPartSays(Text(text));
      DeveloperSays(SystemPart(Text(text)));
    case Blocks(blocks) =>
      SystemPartsSay(blocks);
      DeveloperSays(SystemParts(blocks));
    case _ =>
  }

  lemma DeveloperSays(parts: seq<Part>)
    ensures ItemsSay(DeveloperItem(parts)) == PartsSay("developer", parts)
  {
    OneSays("", InputText(""), MessageItem("developer", parts));
  }

  lemma {:induction false} MessagesEntriesLast(messages: seq<Message>, last: Message)
    ensures MessagesEntries(messages + [last]) == MessagesEntries(messages) + MessageEntries(last)
  {
    if messages == [] {
      assert ([] + [last])[1..] == [];
    } else {
      MessagesEntriesLast(messages[1..], last);
      assert (messages + [last])[1..] == messages[1..] + [last];
      Regroup(MessageEntries(messages[0]), MessagesEntries(messages[1..]), MessageEntries(last));
    }
  }

  lemma InputItemsLast(system: Content, messages: seq<Message>, n: nat)
    requires |messages| == n + 1 && InputItems(system, messages).Ok?
    ensures InputItems(system, messages[..n]).Ok? && MessageItems(messages[n], n).Ok?
    ensures InputItems(system, messages).value ==
            InputItems(system, messages[..n]).value + MessageItems(messages[n], n).value
  {
  }

  lemma RequestStep(system: Content, messages: seq<Message>, n: nat, items: seq<InputItem>, before: seq<InputItem>,
                    more: seq<InputItem>)
    requires |messages| == n + 1 && items == before + more
    requires ItemsSay(before) == SystemEntries(system) + MessagesEntries(messages[..n])
    requires ItemsSay(more) == MessageEntries(messages[n])
    ensures ItemsSay(items) == SystemEntries(system) + MessagesEntries(messages)
  {
    hide *;
    assert messages == messages[..n] + [messages[n]];
    ItemsSayBoth(before, more);
    MessagesEntriesLast(messages[..n], messages[n]);
    Regroup(SystemEntries(system), MessagesEntries(messages[..n]), MessageEntries(messages[n]));
  }

  /** The input items say what the request says: every text with its role, strings and
      blocks alike, every picture, ciphertext, call and result, in order. */
  lemma {:induction false} ItemsSayRequest(system: Content, messages: seq<Message>)
    requires InputItems(system, messages).Ok?
    ensures ItemsSay(InputItems(system, messages).value) == RequestEntries(system, messages)
  {
    hide ItemsSay, MessageItems, MessageEntries, SystemEntries, SystemItems;
    if messages == [] {
      SystemItemsSay(system);
      Regroup(SystemEntries(system), [], []);
    } else {
      var n := |messages| - 1;
      InputItemsLast(system, messages, n);
      ItemsSayRequest(system, messages[..n]);
      MessageSays(messages[n], n);
      RequestStep(system, messages, n, InputItems(system, messages).value, InputItems(system, messages[..n]).value,
                  MessageItems(messages[n], n).value);
    }
  }

  // ---- What cannot be converted -----------------------------------------------------------

  /** What is wrong with a message. */
  function Fault(message: Message, at: nat): Option<ConvertError> {
    if message.role.OtherRole? then Some(UnsupportedRole(at))
    else if message.content.Plain? || message.content.Blocks? then None
    else Some(BadContent(at))
  }

  /** The first fault of the messages from a position on. */
  function FirstFault(messages: seq<Message>, at: nat): Option<ConvertError>
    requires at <= |messages|
    decreases |messages| - at
  {
    if at == |messages| then None
    else if Fault(messages[at], at).Some? then Fault(messages[at], at)
    else FirstFault(messages, at + 1)
  }

  lemma {:induction false} FirstFaultLast(messages: seq<Message>, last: Message, at: nat)
    requires at <= |messages|
    ensures FirstFault(messages + [last], at) ==
            if FirstFault(messages, at).Some? then FirstFault(messages, at) else Fault(last, |messages|)
    decreases |messages| - at
  {
    var all := messages + [last];
    if at < |messages| {
      FirstFaultLast(messages, last, at + 1);
    } else {
      assert FirstFault(all, |all|) == None;
    }
  }

  /** Conversion fails exactly at the first fault, the system's before any message's. */
  lemma {:induction false} FailsAtFirstFault(system: Content, messages: seq<Message>)
    ensures var items := InputItems(system, messages);
            if system.Malformed? then items == Err(BadSystem)
            else match FirstFault(messages, 0)
                 case Some(fault) => items == Err(fault)
                 case None => items.Ok?
  {
    if messages != [] {
      var n := |messages| - 1;
      FailsAtFirstFault(system, messages[..n]);
      FirstFaultLast(messages[..n], messages[n], 0);
      assert messages == messages[..n] + [messages[n]];
    }
  }
}
