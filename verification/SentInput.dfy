/** The input of the request sent upstream, read back from its JSON: it says what the
    client's request says, with identifiers and names in the form they are sent in. */
module SentInput {
  import opened Text
  import opened Transform
  import opened Pairing
  import opened Conveyed
  import R = Requests
  import N = Normalisation

  // ---- Reading items back ---------------------------------------------------------------

  /** A string field, empty when it is left out. */
  function TextAt(fields: Fields, key: Key): string {
    if key in fields && fields[key].Str? then fields[key].text else ""
  }

  function ReadPart(part: Json): Option<R.Part> {
    if !part.Obj? then None
    else
      var kind := TextAt(part.fields, Type);
      if kind == "input_text" then Some(R.InputText(TextAt(part.fields, PartText)))
      else if kind == "output_text" then Some(R.OutputText(TextAt(part.fields, PartText)))
      else if kind == "input_image" then Some(R.InputImage(TextAt(part.fields, ImageUrl)))
      else None
  }

  predicate PartsReadable(parts: seq<Json>) {
    forall i | 0 <= i < |parts| :: ReadPart(parts[i]).Some?
  }

  function ReadParts(parts: seq<Json>): seq<R.Part>
    requires PartsReadable(parts)
  {
    seq(|parts|, i requires 0 <= i < |parts| => ReadPart(parts[i]).value)
  }

  function ReadItem(item: Json): Option<R.InputItem> {
    if !item.Obj? then None
    else
      var f := item.fields;
      var kind := TextAt(f, Type);
      if kind == "reasoning" then Some(R.ReasoningItem(TextAt(f, EncryptedContent)))
      else if kind == "function_call" then Some(R.CallItem(TextAt(f, CallId), TextAt(f, Name), TextAt(f, Arguments)))
      else if kind == "function_call_output" then Some(R.OutputItem(TextAt(f, CallId), TextAt(f, Output)))
      else if kind == "message" then ReadMessage(f)
      else None
  }

  function ReadMessage(f: Fields): Option<R.InputItem> {
    if Content !in f then Some(R.MessageItem(TextAt(f, Role), []))
    else if f[Content].Arr? && PartsReadable(f[Content].items)
    then Some(R.MessageItem(TextAt(f, Role), ReadParts(f[Content].items)))
    else None
  }

  predicate Readable(items: seq<Json>) {
    forall i | 0 <= i < |items| :: ReadItem(items[i]).Some?
  }

  function ReadItems(items: seq<Json>): seq<R.InputItem>
    requires Readable(items)
  {
    seq(|items|, i requires 0 <= i < |items| => ReadItem(items[i]).value)
  }

  // ---- The form things are sent in --------------------------------------------------------

  /** An identifier is trimmed and, beyond 64 bytes, replaced by a digest; a blank one stays. */
  function IdSent(hash: string -> Digest, id: string): string {
    var trimmed := TrimSpace(id);
    if trimmed == "" then id
    else if ByteLen(trimmed) <= 64 then trimmed
    else "fc_" + hash("sub2api:codex-call-id:v1:" + trimmed)[..61]
  }

  function NameSent(name: string): string {
    if TrimSpace(name) == "" then "tool" else name
  }

  function ItemSent(hash: string -> Digest, item: R.InputItem): R.InputItem {
    match item
    case CallItem(id, name, arguments) => R.CallItem(IdSent(hash, id), NameSent(name), arguments)
    case OutputItem(id, output) => R.OutputItem(IdSent(hash, id), output)
    case _ => item
  }

  function EntrySent(hash: string -> Digest, entry: Entry): Entry {
    match entry
    case Called(id, name, arguments) => Called(IdSent(hash, id), NameSent(name), arguments)
    case Returned(id, text) => Returned(IdSent(hash, id), text)
    case _ => entry
  }

  function EntriesSent(hash: string -> Digest, entries: seq<Entry>): seq<Entry> {
    seq(|entries|, i requires 0 <= i < |entries| => EntrySent(hash, entries[i]))
  }

  // ---- One item ---------------------------------------------------------------------------

  lemma IdIsSent(hash: string -> Digest, id: string)
    ensures SentId(hash, id) == if id == "" then None else Some(IdSent(hash, id))
  {
    TrimSpaceIsTrimmed(id);
  }

  lemma PartRead(part: R.Part)
    ensures ReadPart(PartJson(part)) == Some(part)
  {
  }

  lemma PartsRead(parts: seq<R.Part>)
    ensures PartsReadable(PartsJson(parts)) && ReadParts(PartsJson(parts)) == parts
  {
    forall i | 0 <= i < |parts|
      ensures ReadPart(PartsJson(parts)[i]) == Some(parts[i])
    {
      PartRead(parts[i]);
    }
  }

  /** Fields the normalisation of items does not touch are read as before. */
  lemma SameText(a: Fields, b: Fields, key: Key)
    requires N.Agree(a, b, {Id, Summary, CallId, Name}) && key !in {Id, Summary, CallId, Name}
    ensures TextAt(a, key) == TextAt(b, key) && (key in a <==> key in b) && (key in a ==> a[key] == b[key])
  {
  }

  lemma MessageRead(hash: string -> Digest, item: R.InputItem, sent: Fields)
    requires item.MessageItem? && N.Agree(ItemJson(item), sent, {Id, Summary, CallId, Name})
    ensures ReadItem(Obj(sent)) == Some(item)
  {
    var f := ItemJson(item);
    SameText(f, sent, Type);
    SameText(f, sent, Role);
    SameText(f, sent, Content);
    PartsRead(item.content);
  }

  lemma NameOnWire(hash: string -> Digest, item: R.InputItem)
    requires item.CallItem?
    ensures TextAt(NormalItem(hash, ItemJson(item)), Name) == NameSent(item.name)
  {
    var f := ItemJson(item);
    ItemJsonFields(item);
    assert CALL[0] == 'f' && REASONING[0] == 'r';
    assert WithSummary(CALL, f) == f;
    var called := WithCallId(hash, CALL, f);
    NamedOnWire(called, item.name);
    assert NormalItem(hash, f) == WithName(CALL, called);
  }

  lemma NamedOnWire(called: Fields, name: string)
    requires ToolName !in called && Function !in called && TextAt(called, Name) == name
    requires Name in called ==> called[Name].Str?
    ensures TextAt(WithName(CALL, called), Name) == NameSent(name)
  {
  }

  lemma IdOnWire(hash: string -> Digest, item: R.InputItem)
    requires item.CallItem? || item.OutputItem?
    ensures TextAt(NormalItem(hash, ItemJson(item)), CallId) == IdSent(hash, item.callId)
  {
    ItemOnWire(hash, item);
    IdIsSent(hash, item.callId);
    TrimSpaceIsTrimmed(item.callId);
  }

  lemma TextsOnWire(item: R.InputItem, sent: Fields)
    requires N.Agree(ItemJson(item), sent, {Id, Summary, CallId, Name})
    ensures TextAt(sent, Type) == KindOf(item)
    ensures item.CallItem? ==> TextAt(sent, Arguments) == item.arguments
    ensures item.OutputItem? ==> TextAt(sent, Output) == item.output
  {
    SameText(ItemJson(item), sent, Type);
    SameText(ItemJson(item), sent, Arguments);
    SameText(ItemJson(item), sent, Output);
  }

  lemma CallRead(hash: string -> Digest, item: R.InputItem)
    requires item.CallItem? || item.OutputItem?
    ensures ReadItem(Obj(NormalItem(hash, ItemJson(item)))) == Some(ItemSent(hash, item))
  {
    var f, sent := ItemJson(item), NormalItem(hash, ItemJson(item));
    hide NormalItem, ItemJson, IdSent, NameSent, TextAt;
    N.ItemByStages(hash, f);
    TextsOnWire(item, sent);
    IdOnWire(hash, item);
    if item.CallItem? {
      NameOnWire(hash, item);
    }
  }

  lemma ItemRead(hash: string -> Digest, item: R.InputItem)
    ensures ReadItem(Obj(NormalItem(hash, ItemJson(item)))) == Some(ItemSent(hash, item))
  {
    var f, sent := ItemJson(item), NormalItem(hash, ItemJson(item));
    N.ItemByStages(hash, f);
    match item
    case MessageItem(_, _) => MessageRead(hash, item, sent);
    case ReasoningItem(_) =>
      SameText(f, sent, Type);
      SameText(f, sent, EncryptedContent);
    case _ => CallRead(hash, item);
  }

  // ---- All items --------------------------------------------------------------------------

  function ItemsSent(hash: string -> Digest, items: seq<R.InputItem>): seq<R.InputItem> {
    seq(|items|, i requires 0 <= i < |items| => ItemSent(hash, items[i]))
  }

  lemma ItemsRead(hash: string -> Digest, items: seq<R.InputItem>)
    ensures Readable(Wire(hash, items)) && ReadItems(Wire(hash, items)) == ItemsSent(hash, items)
  {
    forall i | 0 <= i < |items|
      ensures ReadItem(Wire(hash, items)[i]) == Some(ItemSent(hash, items[i]))
    {
      ItemRead(hash, items[i]);
    }
  }

  lemma EntriesSentBoth(hash: string -> Digest, a: seq<Entry>, b: seq<Entry>)
    ensures EntriesSent(hash, a + b) == EntriesSent(hash, a) + EntriesSent(hash, b)
  {
  }

  lemma {:induction false} PartsSentAsTheyAre(hash: string -> Digest, role: string, parts: seq<R.Part>)
    ensures EntriesSent(hash, PartsSay(role, parts)) == PartsSay(role, parts)
  {
    if parts != [] {
      PartsSentAsTheyAre(hash, role, parts[1..]);
      EntriesSentBoth(hash, PartSays(role, parts[0]), PartsSay(role, parts[1..]));
    }
  }

  lemma ItemSentSays(hash: string -> Digest, item: R.InputItem)
    ensures ItemSays(ItemSent(hash, item)) == EntriesSent(hash, ItemSays(item))
  {
    if item.MessageItem? {
      PartsSentAsTheyAre(hash, item.role, item.content);
    }
  }

  lemma {:induction false} ItemsSentSay(hash: string -> Digest, items: seq<R.InputItem>)
    ensures ItemsSay(ItemsSent(hash, items)) == EntriesSent(hash, ItemsSay(items))
  {
    if items != [] {
      ItemsSentSay(hash, items[1..]);
      ItemSentSays(hash, items[0]);
      assert ItemsSent(hash, items)[1..] == ItemsSent(hash, items[1..]);
      EntriesSentBoth(hash, ItemSays(items[0]), ItemsSay(items[1..]));
    }
  }

  /** Read back from the JSON sent upstream, the input says what the client's request says. */
  lemma SentSaysRequest(hash: string -> Digest, system: R.Content, messages: seq<R.Message>, rest: Fields)
    requires R.InputItems(system, messages).Ok?
    ensures var sent := Normal(hash, rest[Input := InputJson(R.InputItems(system, messages).value)]);
            && Input in sent && sent[Input].Arr? && Readable(sent[Input].items)
            && ItemsSay(ReadItems(sent[Input].items)) == EntriesSent(hash, RequestEntries(system, messages))
  {
    var items := R.InputItems(system, messages).value;
    InputReachesLastStage(hash, rest[Input := InputJson(items)]);
    WireOfInput(hash, items);
    ItemsRead(hash, items);
    ItemsSentSay(hash, items);
    ItemsSayRequest(system, messages);
  }
}
