/** The agent loop: an upstream output shown to the client as content blocks and sent
    back by it as an assistant message. */
module Replay {
  import opened Text
  import P = Protocol
  import B = Blocks
  import R = Requests

  /** A content block as the client sends it back. */
  function Returned(block: P.ContentBlock): R.Block {
    match block
    case TextBlock(text) => R.Text(text)
    case ThinkingBlock(thinking, signature) => R.Thinking(thinking, signature)
    case ToolUseBlock(id, name, input) => R.ToolUse(id, name, input)
  }

  function AllReturned(blocks: seq<P.ContentBlock>): seq<R.Block> {
    seq(|blocks|, i requires 0 <= i < |blocks| => Returned(blocks[i]))
  }

  /** The non-blank reasoning ciphertexts of an output. */
  function Ciphertexts(output: seq<P.OutputItem>): seq<R.InputItem> {
    if output == [] then []
    else
      var last := output[|output| - 1];
      Ciphertexts(output[..|output| - 1]) +
      (if last.kind.Reasoning? && !IsBlank(last.encryptedContent) then [R.ReasoningItem(last.encryptedContent)] else [])
  }

  /** The calls of an output: a custom tool's input is wrapped, blank arguments are {}. */
  function Calls(codec: P.Codec, output: seq<P.OutputItem>): seq<R.InputItem> {
    if output == [] then []
    else
      var last := output[|output| - 1];
      Calls(codec, output[..|output| - 1]) +
      (match last.kind
       case FunctionCall => [R.CallItem(last.callId, last.name,
           if IsBlank(last.arguments) then "{}" else last.arguments)]
       case CustomToolCall => [R.CallItem(last.callId, last.name, B.CustomToolInput(codec, last.input))]
       case _ => [])
  }

  function PartTexts(content: seq<P.ContentPart>): seq<string> {
    if content == [] then []
    else
      var last := content[|content| - 1];
      PartTexts(content[..|content| - 1]) + (if last.kind.OutputText? && last.text != "" then [last.text] else [])
  }

  /** The non-empty output texts. */
  function OutputTexts(output: seq<P.OutputItem>): seq<string> {
    if output == [] then []
    else
      var last := output[|output| - 1];
      OutputTexts(output[..|output| - 1]) + (if last.kind.Message? then PartTexts(last.content) else [])
  }

  // ---- The three readings of a block list add up -------------------------------------

  lemma {:induction false} ReasoningAppend(a: seq<R.Block>, b: seq<R.Block>)
    ensures R.ReasoningItems(a + b) == R.ReasoningItems(a) + R.ReasoningItems(b)
  {
    if b == [] {
      assert a + b == a;
    } else {
      var n := |b| - 1;
      ReasoningAppend(a, b[..n]);
      assert (a + b)[..|a + b| - 1] == a + b[..n] && (a + b)[|a + b| - 1] == b[n];
    }
  }

  lemma {:induction false} CallsAppend(a: seq<R.Block>, b: seq<R.Block>)
    ensures R.CallItems(a + b) == R.CallItems(a) + R.CallItems(b)
  {
    if b == [] {
      assert a + b == a;
    } else {
      var n := |b| - 1;
      CallsAppend(a, b[..n]);
      assert (a + b)[..|a + b| - 1] == a + b[..n] && (a + b)[|a + b| - 1] == b[n];
    }
  }

  lemma {:induction false} TextsAppend(a: seq<R.Block>, b: seq<R.Block>)
    ensures R.TextsOf(a + b) == R.TextsOf(a) + R.TextsOf(b)
  {
    if b == [] {
      assert a + b == a;
    } else {
      var n := |b| - 1;
      TextsAppend(a, b[..n]);
      assert (a + b)[..|a + b| - 1] == a + b[..n] && (a + b)[|a + b| - 1] == b[n];
    }
  }

  lemma ReadingsAppend(a: seq<R.Block>, b: seq<R.Block>)
    ensures R.ReasoningItems(a + b) == R.ReasoningItems(a) + R.ReasoningItems(b)
    ensures R.CallItems(a + b) == R.CallItems(a) + R.CallItems(b)
    ensures R.TextsOf(a + b) == R.TextsOf(a) + R.TextsOf(b)
  {
    ReasoningAppend(a, b);
    CallsAppend(a, b);
    TextsAppend(a, b);
  }

  lemma OneBlock(block: R.Block)
    ensures R.ReasoningItems([block]) ==
            if block.Thinking? && !IsBlank(block.signature) then [R.ReasoningItem(block.signature)] else []
    ensures R.CallItems([block]) == R.CallItemOf(block)
    ensures R.TextsOf([block]) == if block.Text? && block.text != "" then [block.text] else []
  {
    assert [block][..0] == [];
  }

  lemma ReturnedAppend(a: seq<P.ContentBlock>, b: seq<P.ContentBlock>)
    ensures AllReturned(a + b) == AllReturned(a) + AllReturned(b)
  {
  }

  lemma {:induction false} TextBlocksReturned(content: seq<P.ContentPart>)
    ensures var back := AllReturned(B.TextBlocksOf(content));
            R.TextsOf(back) == PartTexts(content) && R.ReasoningItems(back) == [] && R.CallItems(back) == []
  {
    if content != [] {
      var front, last := content[..|content| - 1], content[|content| - 1];
      TextBlocksReturned(front);
      if last.kind.OutputText? && last.text != "" {
        ReturnedAppend(B.TextBlocksOf(front), [P.TextBlock(last.text)]);
        assert AllReturned([P.TextBlock(last.text)]) == [R.Text(last.text)];
        OneBlock(R.Text(last.text));
        ReadingsAppend(AllReturned(B.TextBlocksOf(front)), [R.Text(last.text)]);
      } else {
        assert B.TextBlocksOf(content) == B.TextBlocksOf(front);
      }
    }
  }

  lemma CustomInputIsNotBlank(codec: P.Codec, input: string)
    ensures !IsBlank(B.CustomToolInput(codec, input))
  {
    assert B.CustomToolInput(codec, input)[0] == '{';
  }

  /** What one item's blocks become. */
  lemma ItemReturned(codec: P.Codec, item: P.OutputItem)
    requires B.ItemBlocks(codec, item).Some?
    ensures var back := AllReturned(B.ItemBlocks(codec, item).value);
            && R.ReasoningItems(back) == Ciphertexts([item])
            && R.CallItems(back) == Calls(codec, [item])
            && R.TextsOf(back) == OutputTexts([item])
  {
    OneOutput(codec, item);
    match item.kind
    case Message => TextBlocksReturned(item.content);
    case FunctionCall => FunctionReturned(codec, item);
    case CustomToolCall =>
      CustomInputIsNotBlank(codec, item.input);
      OneReturned(P.ToolUseBlock(item.callId, item.name, B.CustomToolInput(codec, item.input)));
    case Reasoning => OneReturned(P.ThinkingBlock(B.SummaryTextOf(item.summary), item.encryptedContent));
    case _ =>
  }

  lemma FunctionReturned(codec: P.Codec, item: P.OutputItem)
    requires item.kind.FunctionCall? && B.ItemBlocks(codec, item).Some?
    ensures var back := AllReturned(B.ItemBlocks(codec, item).value);
            && R.ReasoningItems(back) == [] && R.TextsOf(back) == []
            && R.CallItems(back) ==
               [R.CallItem(item.callId, item.name, if IsBlank(item.arguments) then "{}" else item.arguments)]
  {
    var input := B.FunctionToolInput(codec, item.arguments).value;
    OneReturned(P.ToolUseBlock(item.callId, item.name, input));
    assert IsBlank(item.arguments) ==>
        input == "{}" && R.CallItemOf(R.ToolUse(item.callId, item.name, input))[0].arguments == "{}";
  }

  lemma OneOutput(codec: P.Codec, item: P.OutputItem)
    ensures Ciphertexts([item]) ==
            if item.kind.Reasoning? && !IsBlank(item.encryptedContent)
            then [R.ReasoningItem(item.encryptedContent)] else []
    ensures Calls(codec, [item]) ==
            match item.kind
            case FunctionCall =>
              [R.CallItem(item.callId, item.name, if IsBlank(item.arguments) then "{}" else item.arguments)]
            case CustomToolCall => [R.CallItem(item.callId, item.name, B.CustomToolInput(codec, item.input))]
            case _ => []
    ensures OutputTexts([item]) == if item.kind.Message? then PartTexts(item.content) else []
  {
    assert [item][..0] == [];
  }

  lemma OneReturned(block: P.ContentBlock)
    ensures var back := Returned(block);
            && R.ReasoningItems(AllReturned([block])) ==
               (if back.Thinking? && !IsBlank(back.signature) then [R.ReasoningItem(back.signature)] else [])
            && R.CallItems(AllReturned([block])) == R.CallItemOf(back)
            && R.TextsOf(AllReturned([block])) == if back.Text? && back.text != "" then [back.text] else []
  {
    assert AllReturned([block]) == [Returned(block)];
    OneBlock(Returned(block));
  }

  lemma OutputReadingsLast(codec: P.Codec, output: seq<P.OutputItem>)
    requires output != []
    ensures var front, last := output[..|output| - 1], output[|output| - 1];
            && Ciphertexts(output) == Ciphertexts(front) + Ciphertexts([last])
            && Calls(codec, output) == Calls(codec, front) + Calls(codec, [last])
            && OutputTexts(output) == OutputTexts(front) + OutputTexts([last])
  {
    assert [output[|output| - 1]][..0] == [];
  }

  lemma {:induction false} BlocksReturned(codec: P.Codec, output: seq<P.OutputItem>)
    requires B.OutputBlocks(codec, output).Ok?
    ensures var back := AllReturned(B.OutputBlocks(codec, output).value);
            && R.ReasoningItems(back) == Ciphertexts(output)
            && R.CallItems(back) == Calls(codec, output)
            && R.TextsOf(back) == OutputTexts(output)
  {
    if output != [] {
      var front, last := output[..|output| - 1], output[|output| - 1];
      var inFront, inLast := B.OutputBlocks(codec, front).value, B.ItemBlocks(codec, last).value;
      BlocksReturned(codec, front);
      ItemReturned(codec, last);
      ReturnedAppend(inFront, inLast);
      ReadingsAppend(AllReturned(inFront), AllReturned(inLast));
      OutputReadingsLast(codec, output);
    }
  }

  /** A whole turn: what upstream said goes back to it, ciphertexts and calls item by
      item, and the text joined by blank lines. */
  lemma TurnIsReplayed(codec: P.Codec, response: P.Response, model: string)
    ensures var message := B.ToAnthropic(codec, Some(response), model);
            message.Ok? ==>
              R.AssistantItems(AllReturned(message.value.content)) ==
              Ciphertexts(response.output) + R.TextItem(OutputTexts(response.output)) + Calls(codec, response.output)
  {
    var message := B.ToAnthropic(codec, Some(response), model);
    if message.Ok? {
      BlocksReturned(codec, response.output);
      var blocks := B.OutputBlocks(codec, response.output).value;
      if blocks == [] {
        assert AllReturned([P.TextBlock("")]) == [R.Text("")];
        OneBlock(R.Text(""));
      }
    }
  }
}
