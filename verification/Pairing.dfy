/** Tool calls and their results from the client's messages to the request sent upstream. */
module Pairing {
  import opened Text
  import R = Requests
  import opened Transform
  import N = Normalisation

  // ---- Identifiers in order -------------------------------------------------------

  function CallIdsOf(blocks: seq<R.Block>): seq<string> {
    if blocks == [] then []
    else
      var last := blocks[|blocks| - 1];
      CallIdsOf(blocks[..|blocks| - 1]) + (if last.ToolUse? then [last.id] else [])
  }

  function ResultIdsOf(blocks: seq<R.Block>): seq<string> {
    if blocks == [] then []
    else
      var last := blocks[|blocks| - 1];
      ResultIdsOf(blocks[..|blocks| - 1]) + (if last.ToolResult? then [last.toolUseId] else [])
  }

  /** The tool calls and tool results that a message makes, by their identifiers. */
  function CallsIn(message: R.Message): seq<string> {
    if message.role == R.Assistant && message.content.Blocks? then CallIdsOf(message.content.blocks) else []
  }

  function ResultsIn(message: R.Message): seq<string> {
    if message.role == R.User && message.content.Blocks? then ResultIdsOf(message.content.blocks) else []
  }

  function AllCalls(messages: seq<R.Message>): seq<string> {
    if messages == [] then []
    else AllCalls(messages[..|messages| - 1]) + CallsIn(messages[|messages| - 1])
  }

  function AllResults(messages: seq<R.Message>): seq<string> {
    if messages == [] then []
    else AllResults(messages[..|messages| - 1]) + ResultsIn(messages[|messages| - 1])
  }

  function ItemCalls(items: seq<R.InputItem>): seq<string> {
    if items == [] then []
    else
      var last := items[|items| - 1];
      ItemCalls(items[..|items| - 1]) + (if last.CallItem? then [last.callId] else [])
  }

  function ItemOutputs(items: seq<R.InputItem>): seq<string> {
    if items == [] then []
    else
      var last := items[|items| - 1];
      ItemOutputs(items[..|items| - 1]) + (if last.OutputItem? then [last.callId] else [])
  }

  lemma {:induction false} ItemsAppend(a: seq<R.InputItem>, b: seq<R.InputItem>)
    ensures ItemCalls(a + b) == ItemCalls(a) + ItemCalls(b)
    ensures ItemOutputs(a + b) == ItemOutputs(a) + ItemOutputs(b)
  {
    if b == [] {
      assert a + b == a;
    } else {
      ItemsAppend(a, b[..|b| - 1]);
      assert (a + b)[..|a + b| - 1] == a + b[..|b| - 1];
    }
  }

  lemma OneItem(item: R.InputItem)
    ensures ItemCalls([item]) == if item.CallItem? then [item.callId] else []
    ensures ItemOutputs([item]) == if item.OutputItem? then [item.callId] else []
  {
    assert [item][..0] == [];
  }

  lemma {:induction false} CallItemsInOrder(blocks: seq<R.Block>)
    ensures ItemCalls(R.CallItems(blocks)) == CallIdsOf(blocks) && ItemOutputs(R.CallItems(blocks)) == []
  {
    if blocks != [] {
      var front, last := R.CallItems(blocks[..|blocks| - 1]), R.CallItemOf(blocks[|blocks| - 1]);
      CallItemsInOrder(blocks[..|blocks| - 1]);
      ItemsAppend(front, last);
      if last != [] {
        OneItem(last[0]);
      }
    }
  }

  lemma {:induction false} ResultItemsInOrder(blocks: seq<R.Block>)
    ensures ItemOutputs(R.ResultItems(blocks)) == ResultIdsOf(blocks) && ItemCalls(R.ResultItems(blocks)) == []
  {
    if blocks != [] {
      var front, last := R.ResultItems(blocks[..|blocks| - 1]), R.ResultItem(blocks[|blocks| - 1]);
      ResultItemsInOrder(blocks[..|blocks| - 1]);
      ItemsAppend(front, last);
      if last != [] {
        OneItem(last[0]);
      }
    }
  }

  lemma {:induction false} ReasoningIsNeither(blocks: seq<R.Block>)
    ensures ItemCalls(R.ReasoningItems(blocks)) == [] && ItemOutputs(R.ReasoningItems(blocks)) == []
  {
    if blocks != [] {
      ReasoningIsNeither(blocks[..|blocks| - 1]);
      var all := R.ReasoningItems(blocks);
      if all != R.ReasoningItems(blocks[..|blocks| - 1]) {
        assert all[..|all| - 1] == R.ReasoningItems(blocks[..|blocks| - 1]);
      }
    }
  }

  lemma MessageInOrder(message: R.Message, at: nat)
    ensures var items := R.MessageItems(message, at);
            items.Ok? ==> ItemCalls(items.value) == CallsIn(message) && ItemOutputs(items.value) == ResultsIn(message)
  {
    if message.content.Blocks? {
      var blocks := message.content.blocks;
      UserInOrder(blocks);
      AssistantInOrder(blocks);
    } else if message.content.Plain? {
      OneItem(R.MessageItem("user", [R.InputText(message.content.text)]));
      OneItem(R.MessageItem("assistant", [R.OutputText(message.content.text)]));
    }
  }

  lemma AtMostOneMessage(items: seq<R.InputItem>)
    requires items == [] || (|items| == 1 && items[0].MessageItem?)
    ensures ItemCalls(items) == [] == ItemOutputs(items)
  {
    if items != [] {
      assert items == [items[0]];
      OneItem(items[0]);
    }
  }

  lemma UserInOrder(blocks: seq<R.Block>)
    ensures ItemCalls(R.UserItems(blocks)) == []
    ensures ItemOutputs(R.UserItems(blocks)) == ResultIdsOf(blocks)
  {
    var parts := R.UserParts(blocks) + R.AllResultImages(blocks);
    var rest := if parts != [] then [R.MessageItem("user", parts)] else [];
    ResultItemsInOrder(blocks);
    AtMostOneMessage(rest);
    ItemsAppend(R.ResultItems(blocks), rest);
  }

  lemma AssistantInOrder(blocks: seq<R.Block>)
    ensures ItemCalls(R.AssistantItems(blocks)) == CallIdsOf(blocks)
    ensures ItemOutputs(R.AssistantItems(blocks)) == []
  {
    var reasoning, texts, calls := R.ReasoningItems(blocks), R.TextItem(R.TextsOf(blocks)), R.CallItems(blocks);
    ReasoningIsNeither(blocks);
    AtMostOneMessage(texts);
    CallItemsInOrder(blocks);
    ItemsAppend(reasoning, texts);
    ItemsAppend(reasoning + texts, calls);
  }

  /** Every call and every result becomes one item, in the order of the messages. */
  lemma {:induction false} ItemsInOrder(system: R.Content, messages: seq<R.Message>)
    ensures var items := R.InputItems(system, messages);
            items.Ok? ==>
              ItemCalls(items.value) == AllCalls(messages) && ItemOutputs(items.value) == AllResults(messages)
  {
    var items := R.InputItems(system, messages);
    if items.Ok? {
      if messages == [] {
        AtMostOneMessage(items.value);
      } else {
        var front, at := messages[..|messages| - 1], |messages| - 1;
        ItemsInOrder(system, front);
        MessageInOrder(messages[at], at);
        ItemsAppend(R.InputItems(system, front).value, R.MessageItems(messages[at], at).value);
      }
    }
  }

  // ---- Every result after its call ---------------------------------------------------

  /** Each tool result names a tool call of an earlier message. */
  ghost predicate ResultsFollowCalls(messages: seq<R.Message>) {
    forall j, id | 0 <= j < |messages| && id in ResultsIn(messages[j]) :: id in AllCalls(messages[..j])
  }

  ghost predicate OutputsFollowCalls(items: seq<R.InputItem>) {
    forall n | 0 <= n < |items| && items[n].OutputItem? :: items[n].callId in ItemCalls(items[..n])
  }

  lemma {:induction false} OutputIsListed(items: seq<R.InputItem>, n: nat)
    requires n < |items| && items[n].OutputItem?
    ensures items[n].callId in ItemOutputs(items)
    decreases |items|
  {
    if n < |items| - 1 {
      OutputIsListed(items[..|items| - 1], n);
    }
  }

  lemma {:induction false} ListedIsOutput(items: seq<R.InputItem>, id: string) returns (n: nat)
    requires id in ItemOutputs(items)
    ensures n < |items| && items[n].OutputItem? && items[n].callId == id
  {
    n := |items| - 1;
    if !items[n].OutputItem? || items[n].callId != id {
      n := ListedIsOutput(items[..|items| - 1], id);
    }
  }

  /** The calls seen before the n-th of some further items that make none themselves,
      or of which none is an output. */
  lemma CallsBefore(front: seq<R.InputItem>, last: seq<R.InputItem>, n: nat)
    requires |front| <= n <= |front + last|
    ensures ItemCalls((front + last)[..n]) == ItemCalls(front) + ItemCalls(last[..n - |front|])
    ensures ItemCalls(last) == [] ==> ItemCalls(last[..n - |front|]) == []
  {
    var m := n - |front|;
    assert (front + last)[..n] == front + last[..m];
    ItemsAppend(front, last[..m]);
    assert last == last[..m] + last[m..];
    ItemsAppend(last[..m], last[m..]);
  }

  lemma FollowAppend(front: seq<R.InputItem>, last: seq<R.InputItem>)
    requires ItemCalls(last) == [] || ItemOutputs(last) == []
    ensures OutputsFollowCalls(front + last) <==>
            OutputsFollowCalls(front) && forall id | id in ItemOutputs(last) :: id in ItemCalls(front)
  {
    var all := front + last;
    forall n | 0 <= n < |front|
      ensures all[..n] == front[..n] && all[n] == front[n]
    {
    }
    forall n | |front| <= n < |all| && all[n].OutputItem?
      ensures ItemCalls(all[..n]) == ItemCalls(front) && all[n].callId in ItemOutputs(last)
    {
      OutputIsListed(last, n - |front|);
      CallsBefore(front, last, n);
    }
    if OutputsFollowCalls(all) {
      assert forall n | 0 <= n < |front| && front[n].OutputItem? :: all[n].OutputItem?;
      forall id | id in ItemOutputs(last)
        ensures id in ItemCalls(front)
      {
        var m := ListedIsOutput(last, id);
        assert all[|front| + m] == last[m];
      }
    }
  }

  lemma FollowLast(messages: seq<R.Message>)
    requires messages != []
    ensures var front, last := messages[..|messages| - 1], messages[|messages| - 1];
            ResultsFollowCalls(messages) <==>
            ResultsFollowCalls(front) && forall id | id in ResultsIn(last) :: id in AllCalls(front)
  {
    var front, last := messages[..|messages| - 1], messages[|messages| - 1];
    assert forall j | 0 <= j < |front| :: front[..j] == messages[..j] && front[j] == messages[j];
    if ResultsFollowCalls(messages) {
      assert messages[|front|] == last;
    }
  }

  /** The items pair exactly as the messages do. */
  lemma {:induction false} PairedAlike(system: R.Content, messages: seq<R.Message>)
    requires R.InputItems(system, messages).Ok?
    ensures OutputsFollowCalls(R.InputItems(system, messages).value) <==> ResultsFollowCalls(messages)
  {
    if messages == [] {
      NoOutputs(R.InputItems(system, messages).value);
    } else {
      PairedAlike(system, messages[..|messages| - 1]);
      PairedStep(system, messages);
    }
  }

  lemma NoOutputs(items: seq<R.InputItem>)
    requires items == [] || (|items| == 1 && items[0].MessageItem?)
    ensures OutputsFollowCalls(items)
  {
  }

  lemma PairedStep(system: R.Content, messages: seq<R.Message>)
    requires messages != [] && R.InputItems(system, messages).Ok?
    requires var front := messages[..|messages| - 1];
             OutputsFollowCalls(R.InputItems(system, front).value) <==> ResultsFollowCalls(front)
    ensures OutputsFollowCalls(R.InputItems(system, messages).value) <==> ResultsFollowCalls(messages)
  {
    var front, at := messages[..|messages| - 1], |messages| - 1;
    ItemsInOrder(system, front);
    MessageInOrder(messages[at], at);
    PairedByLast(messages, R.InputItems(system, messages).value, R.InputItems(system, front).value,
                 R.MessageItems(messages[at], at).value);
  }

  lemma PairedByLast(messages: seq<R.Message>, items: seq<R.InputItem>, before: seq<R.InputItem>,
                     last: seq<R.InputItem>)
    requires messages != [] && items == before + last
    requires var front, m := messages[..|messages| - 1], messages[|messages| - 1];
             && (OutputsFollowCalls(before) <==> ResultsFollowCalls(front))
             && ItemCalls(before) == AllCalls(front)
             && ItemCalls(last) == CallsIn(m) && ItemOutputs(last) == ResultsIn(m)
    ensures OutputsFollowCalls(items) <==> ResultsFollowCalls(messages)
  {
    FollowAppend(before, last);
    FollowLast(messages);
  }

  // ---- On the wire ---------------------------------------------------------------------

  const CALL := "function_call"
  const OUTPUT := "function_call_output"

  /** A string field that is left out when it is empty. */
  function WithText(fields: Fields, key: Key, text: string): Fields {
    if text == "" then fields else fields[key := Str(text)]
  }

  function PartJson(part: R.Part): Json {
    match part
    case InputText(text) => Obj(WithText(map[Type := Str("input_text")], PartText, text))
    case OutputText(text) => Obj(WithText(map[Type := Str("output_text")], PartText, text))
    case InputImage(url) => Obj(WithText(map[Type := Str("input_image")], ImageUrl, url))
  }

  function PartsJson(parts: seq<R.Part>): seq<Json> {
    seq(|parts|, i requires 0 <= i < |parts| => PartJson(parts[i]))
  }

  function ItemJson(item: R.InputItem): Fields {
    match item
    case MessageItem(role, content) =>
      var fields := WithText(map[Type := Str("message")], Role, role);
      if content == [] then fields else fields[Content := Arr(PartsJson(content))]
    case ReasoningItem(encrypted) => WithText(map[Type := Str(REASONING)], EncryptedContent, encrypted)
    case CallItem(callId, name, arguments) =>
      WithText(WithText(WithText(map[Type := Str(CALL)], CallId, callId), Name, name), Arguments, arguments)
    case OutputItem(callId, output) =>
      WithText(WithText(map[Type := Str(OUTPUT)], CallId, callId), Output, output)
  }

  function ItemsJson(items: seq<R.InputItem>): seq<Json> {
    seq(|items|, i requires 0 <= i < |items| => Obj(ItemJson(items[i])))
  }

  /** No items at all are written as null. */
  function InputJson(items: seq<R.InputItem>): Json {
    if items == [] then Null else Arr(ItemsJson(items))
  }

  /** The identifier a call or result is sent with. */
  function SentId(hash: string -> Digest, id: string): Option<string> {
    if id == "" then None else if IsBlank(id) then Some(id) else Some(Compact(hash, TrimSpace(id)))
  }

  function WireId(item: Json): Option<string> {
    if item.Obj? && CallId in item.fields && item.fields[CallId].Str? then Some(item.fields[CallId].text) else None
  }

  function KindOf(item: R.InputItem): string {
    match item
    case MessageItem(_, _) => "message"
    case ReasoningItem(_) => REASONING
    case CallItem(_, _, _) => CALL
    case OutputItem(_, _) => OUTPUT
  }

  lemma KindIsTrimmed(item: R.InputItem)
    ensures TrimSpace(KindOf(item)) == KindOf(item)
    ensures IsToolCallItem(KindOf(item)) <==> item.CallItem? || item.OutputItem?
    ensures KindOf(item) == CALL <==> item.CallItem?
    ensures KindOf(item) == OUTPUT <==> item.OutputItem?
  {
    assert |CALL| == 13 && |OUTPUT| == 20 && |REASONING| == 9 && |"message"| == 7;
    match item
    case MessageItem(_, _) =>
      N.MessageIsNoCall();
      WordIsTrimmed("message");
    case ReasoningItem(_) =>
      N.ReasoningIsNoCall();
      WordIsTrimmed(REASONING);
    case CallItem(_, _, _) => WordIsTrimmed(CALL);
    case OutputItem(_, _) => WordIsTrimmed(OUTPUT);
  }

  lemma WordIsTrimmed(word: string)
    requires word != "" && !IsSpace(word[0]) && !IsSpace(word[|word| - 1])
    ensures TrimSpace(word) == word
  {
    TrimSpaceIsTrimmed(word);
  }

  lemma ItemJsonFields(item: R.InputItem)
    ensures StringAt(ItemJson(item), Type) == KindOf(item)
    ensures Id !in ItemJson(item)
    ensures item.CallItem? || item.OutputItem? ==>
              ListText(ItemJson(item), CallId) == if item.callId == "" then None else Some(item.callId)
  {
    KindIsTrimmed(item);
    TypeOfJson(item);
  }

  lemma TypeOfJson(item: R.InputItem)
    ensures Type in ItemJson(item) && ItemJson(item)[Type] == Str(KindOf(item)) && Id !in ItemJson(item)
  {
  }

  function ListText(fields: Fields, key: Key): Option<string> {
    if key in fields && fields[key].Str? then Some(fields[key].text) else None
  }

  /** Normalised, an item keeps its type, and a call or result the identifier it is sent with. */
  lemma ItemOnWire(hash: string -> Digest, item: R.InputItem)
    ensures var sent := NormalItem(hash, ItemJson(item));
            && StringAt(sent, Type) == KindOf(item)
            && (item.CallItem? || item.OutputItem? ==> WireId(Obj(sent)) == SentId(hash, item.callId))
  {
    var fields := ItemJson(item);
    ItemJsonFields(item);
    N.ItemByStages(hash, fields);
    TypeStays(fields, NormalItem(hash, fields));
    if item.CallItem? || item.OutputItem? {
      TrimSpaceIsTrimmed(item.callId);
      CallOnWire(hash, KindOf(item), fields, item.callId);
    }
  }

  lemma TypeStays(before: Fields, after: Fields)
    requires N.Agree(before, after, {Id, Summary, CallId, Name})
    ensures StringAt(after, Type) == StringAt(before, Type)
  {
  }

  lemma CallOnWire(hash: string -> Digest, kind: string, fields: Fields, id: string)
    requires kind == CALL || kind == OUTPUT
    requires StringAt(fields, Type) == kind && Id !in fields
    requires ListText(fields, CallId) == if id == "" then None else Some(id)
    requires (TrimSpace(id) == "") == IsBlank(id)
    ensures WireId(Obj(NormalItem(hash, fields))) == SentId(hash, id)
  {
    assert CALL[0] == 'f' && OUTPUT[0] == 'f' && REASONING[0] == 'r';
    var called := WithCallId(hash, kind, fields);
    assert WithSummary(kind, fields) == fields;
    assert WireId(Obj(called)) == SentId(hash, id);
    N.NameByStage(kind, called);
  }

  /** The identifiers sent with the items of one type, in order. */
  function WireIds(items: seq<Json>, kind: string): seq<Option<string>> {
    if items == [] then []
    else
      var last := items[|items| - 1];
      WireIds(items[..|items| - 1], kind) + (if HasType(last, kind) then [WireId(last)] else [])
  }

  function SentIds(hash: string -> Digest, ids: seq<string>): seq<Option<string>> {
    seq(|ids|, i requires 0 <= i < |ids| => SentId(hash, ids[i]))
  }

  function Wire(hash: string -> Digest, items: seq<R.InputItem>): seq<Json> {
    NormalItems(hash, ItemsJson(items))
  }

  /** The last item adds its identifier to those of its own type. */
  lemma WireIdsOfLast(hash: string -> Digest, items: seq<R.InputItem>, kind: string)
    requires items != [] && (kind == CALL || kind == OUTPUT)
    ensures var n := |items| - 1;
            WireIds(Wire(hash, items), kind) ==
            WireIds(Wire(hash, items[..n]), kind) +
            (if KindOf(items[n]) == kind then [WireId(Wire(hash, items)[n])] else [])
  {
    var wire, n := Wire(hash, items), |items| - 1;
    assert wire[..n] == Wire(hash, items[..n]);
    ItemOnWire(hash, items[n]);
  }

  lemma SentIdsAppend(hash: string -> Digest, ids: seq<string>, more: seq<string>)
    requires |more| <= 1
    ensures SentIds(hash, ids + more) == SentIds(hash, ids) + if more == [] then [] else [SentId(hash, more[0])]
  {
  }

  lemma {:induction false} WireInOrder(hash: string -> Digest, items: seq<R.InputItem>)
    ensures WireIds(Wire(hash, items), CALL) == SentIds(hash, ItemCalls(items))
    ensures WireIds(Wire(hash, items), OUTPUT) == SentIds(hash, ItemOutputs(items))
  {
    if items != [] {
      var n := |items| - 1;
      var front, last := items[..n], items[n];
      WireInOrder(hash, front);
      WireIdsOfLast(hash, items, CALL);
      WireIdsOfLast(hash, items, OUTPUT);
      ItemOnWire(hash, last);
      KindIsTrimmed(last);
      SentIdsAppend(hash, ItemCalls(front), if last.CallItem? then [last.callId] else []);
      SentIdsAppend(hash, ItemOutputs(front), if last.OutputItem? then [last.callId] else []);
    }
  }

  /** Identifiers that name the same thing are sent alike; short ones that do not are not. */
  lemma SentIdsTell(hash: string -> Digest, a: string, b: string)
    requires !IsBlank(a) && !IsBlank(b)
    ensures TrimSpace(a) == TrimSpace(b) ==> SentId(hash, a) == SentId(hash, b)
    ensures ByteLen(TrimSpace(a)) <= CALL_ID_MAX_LENGTH && ByteLen(TrimSpace(b)) <= CALL_ID_MAX_LENGTH ==>
              (SentId(hash, a) == SentId(hash, b) <==> TrimSpace(a) == TrimSpace(b))
    ensures SentId(hash, a).Some? && ByteLen(SentId(hash, a).value) <= CALL_ID_MAX_LENGTH
  {
    TrimSpaceIsTrimmed(a);
    N.CompactFits(hash, TrimSpace(a));
  }

  lemma {:induction false} CallIsListed(items: seq<R.InputItem>, id: string) returns (m: nat)
    requires id in ItemCalls(items)
    ensures m < |items| && items[m].CallItem? && items[m].callId == id
  {
    m := |items| - 1;
    if !items[m].CallItem? || items[m].callId != id {
      m := CallIsListed(items[..|items| - 1], id);
    }
  }

  /** On the wire every output has an earlier call with the same identifier. */
  ghost predicate WirePaired(wire: seq<Json>) {
    forall n | 0 <= n < |wire| && HasType(wire[n], OUTPUT) ::
      exists m :: 0 <= m < n && HasType(wire[m], CALL) && WireId(wire[m]) == WireId(wire[n])
  }

  lemma PairedOnWire(hash: string -> Digest, items: seq<R.InputItem>)
    requires OutputsFollowCalls(items)
    ensures WirePaired(Wire(hash, items))
  {
    var wire := Wire(hash, items);
    forall n | 0 <= n < |wire| && HasType(wire[n], OUTPUT)
      ensures exists m :: 0 <= m < n && HasType(wire[m], CALL) && WireId(wire[m]) == WireId(wire[n])
    {
      ItemOnWire(hash, items[n]);
      KindIsTrimmed(items[n]);
      var m := CallIsListed(items[..n], items[n].callId);
      ItemOnWire(hash, items[m]);
      assert HasType(wire[m], CALL) && WireId(wire[m]) == WireId(wire[n]);
    }
  }

  /** The stages before the last leave the input alone. */
  lemma InputReachesLastStage(hash: string -> Digest, f: Fields)
    requires Input in f
    ensures var g := Normal(hash, f); Input in g && g[Input] == NormalInput(hash, f[Input])
  {
    var p := Prepared(f);
    InputFixed(f);
    N.PreparedRetains(WithFixed(f));
    N.ToolsByStage(p);
    N.ChoiceByStage(WithTools(p));
    InputFrom(hash, f, WithFixed(f), p, WithTools(p), WithToolChoice(WithTools(p)));
  }

  lemma InputFixed(f: Fields)
    requires Input in f
    ensures Input in WithFixed(f) && WithFixed(f)[Input] == f[Input]
  {
  }

  lemma InputFrom(hash: string -> Digest, f: Fields, a: Fields, p: Fields, t: Fields, c: Fields)
    requires Input in f && Input in a && a[Input] == f[Input]
    requires N.Agree(a, p, {Instructions, Include, Functions, FunctionCall, Tools, ToolChoice})
    requires N.Agree(p, t, {Tools}) && N.Agree(t, c, {ToolChoice})
    ensures WithInput(hash, c)[Input] == NormalInput(hash, f[Input])
  {
  }

  /** From the client's messages to the request sent upstream: calls and results keep
      their number, order and identity, and results named after earlier calls stay so. */
  lemma EndToEnd(hash: string -> Digest, system: R.Content, messages: seq<R.Message>, rest: Fields)
    requires R.InputItems(system, messages).Ok?
    ensures var request := rest[Input := InputJson(R.InputItems(system, messages).value)];
            var sent := Normal(hash, request);
            && Input in sent && sent[Input].Arr?
            && WireIds(sent[Input].items, CALL) == SentIds(hash, AllCalls(messages))
            && WireIds(sent[Input].items, OUTPUT) == SentIds(hash, AllResults(messages))
            && (ResultsFollowCalls(messages) ==> WirePaired(sent[Input].items))
  {
    var items := R.InputItems(system, messages).value;
    var request := rest[Input := InputJson(items)];
    InputReachesLastStage(hash, request);
    ItemsInOrder(system, messages);
    WireInOrder(hash, items);
    PairedAlike(system, messages);
    WireOfInput(hash, items);
    if ResultsFollowCalls(messages) {
      PairedOnWire(hash, items);
    }
  }

  lemma WireOfInput(hash: string -> Digest, items: seq<R.InputItem>)
    ensures NormalInput(hash, InputJson(items)) == Arr(Wire(hash, items))
  {
  }
}
