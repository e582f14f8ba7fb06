/** What normalising a request achieves: its normal form, and when doing it again
    changes nothing. */
module Normalisation {
  import opened Text
  import opened Transform

  /** Two objects with the same fields but for some keys. */
  ghost predicate Agree(a: Fields, b: Fields, except: set<Key>) {
    forall k | k !in except :: (k in a <==> k in b) && (k in a ==> a[k] == b[k])
  }

  lemma AgreeChain(a: Fields, b: Fields, c: Fields, e: set<Key>, f: set<Key>)
    requires Agree(a, b, e) && Agree(b, c, f)
    ensures Agree(a, c, e + f)
  {
  }

  // ---- What each stage leaves ----------------------------------------------------

  predicate Fixed(f: Fields) {
    && Model in f && f[Model] == Str(MODEL)
    && Stream in f && f[Stream] == Bool(true)
    && Store in f && f[Store] == Bool(false)
    && forall k | k in UNSUPPORTED :: k !in f
  }

  predicate Instructed(f: Fields) {
    StringAt(f, Instructions) != ""
  }

  predicate Included(f: Fields) {
    var reasoning := ObjectAt(f, Reasoning);
    reasoning.Some? && reasoning.value != map[] ==>
      ListAt(f, Include).Some? && REASONING_INCLUDE in ListAt(f, Include).value
  }

  predicate Modern(f: Fields) {
    Functions !in f && FunctionCall !in f
  }

  /** The tools a request is taken to have: its legacy functions, if it has a list of those. */
  function ToolsSeen(f: Fields): Option<seq<Json>> {
    if ListAt(f, Functions).Some? then Some(Wrapped(ListAt(f, Functions).value)) else ListAt(f, Tools)
  }

  /** The fields set or removed whatever they were. */
  const ALWAYS_SET: set<Key> := (set k | k in UNSUPPORTED) + {Model, Stream, Store}

  lemma FixedByStage(f: Fields)
    ensures Fixed(WithFixed(f))
  {
  }

  lemma FixedRetains(f: Fields)
    ensures Agree(f, WithFixed(f), ALWAYS_SET)
  {
  }

  lemma FixedStays(f: Fields)
    requires Fixed(f)
    ensures WithFixed(f) == f
  {
  }

  lemma DefaultInstructions()
    ensures TrimSpace(DEFAULT_INSTRUCTIONS) != ""
  {
    TrimSpaceIsTrimmed(DEFAULT_INSTRUCTIONS);
    assert !IsSpace(DEFAULT_INSTRUCTIONS[0]);
  }

  predicate PreparedForm(f: Fields) {
    Fixed(f) && Instructed(f) && Included(f) && Modern(f)
  }

  lemma PreparedStays(f: Fields)
    requires PreparedForm(f)
    ensures Prepared(f) == f
  {
    FixedStays(f);
  }

  lemma PreparedIsPrepared(f: Fields)
    ensures PreparedForm(Prepared(f))
  {
    FixedByStage(f);
    InstructionsByStage(WithFixed(f));
    IncludeByStage(WithInstructions(WithFixed(f)));
    DropsBoth(WithInclude(WithInstructions(WithFixed(f))));
  }

  lemma InstructionsByStage(f: Fields)
    requires Fixed(f)
    ensures Fixed(WithInstructions(f)) && Instructed(WithInstructions(f))
  {
    DefaultInstructions();
  }

  lemma IncludeByStage(f: Fields)
    requires Fixed(f) && Instructed(f)
    ensures Fixed(WithInclude(f)) && Instructed(WithInclude(f)) && Included(WithInclude(f))
  {
  }

  lemma DropsBoth(f: Fields)
    requires Fixed(f) && Instructed(f) && Included(f)
    ensures PreparedForm(WithoutFunctionCall(WithoutFunctions(f)))
  {
    DropsFunctions(f);
    DropsFunctionCall(WithoutFunctions(f));
  }

  lemma DropsFunctions(f: Fields)
    requires Fixed(f) && Instructed(f) && Included(f)
    ensures var g := WithoutFunctions(f); Fixed(g) && Instructed(g) && Included(g) && Functions !in g
  {
    assert Agree(f, WithoutFunctions(f), {Functions, Tools});
    FormFrame(f, WithoutFunctions(f));
  }

  lemma DropsFunctionCall(f: Fields)
    requires Fixed(f) && Instructed(f) && Included(f) && Functions !in f
    ensures PreparedForm(WithoutFunctionCall(f))
  {
    FunctionCallDropped(f);
    FormFrame(f, WithoutFunctionCall(f));
  }

  lemma FunctionCallDropped(f: Fields)
    ensures Agree(f, WithoutFunctionCall(f), {FunctionCall, ToolChoice}) && FunctionCall !in WithoutFunctionCall(f)
  {
  }

  /** The first three properties do not depend on functions, tools, choice or input. */
  lemma FormFrame(a: Fields, b: Fields)
    requires Fixed(a) && Instructed(a) && Included(a)
    requires Agree(a, b, {Functions, FunctionCall, Tools, ToolChoice, Input})
    ensures Fixed(b) && Instructed(b) && Included(b)
  {
    SameReadings(a, b, Instructions);
    SameReadings(a, b, Include);
    SameReadings(a, b, Reasoning);
  }

  lemma SameReadings(a: Fields, b: Fields, key: Key)
    requires key in a <==> key in b
    requires key in a ==> a[key] == b[key]
    ensures StringAt(a, key) == StringAt(b, key) && ListAt(a, key) == ListAt(b, key)
            && ObjectAt(a, key) == ObjectAt(b, key)
  {
  }

  /** Only the tools seen decide the tools sent. */
  lemma PreparedTools(f: Fields)
    ensures ListAt(Prepared(f), Tools) == ToolsSeen(f)
  {
    FixedKeeps(f);
    EarlyStagesKeep(WithFixed(f));
    FunctionsBecomeTools(WithInclude(WithInstructions(WithFixed(f))));
  }

  lemma EarlyStagesKeep(a: Fields)
    ensures var c := WithInclude(WithInstructions(a));
            ListAt(c, Tools) == ListAt(a, Tools) && ListAt(c, Functions) == ListAt(a, Functions)
  {
  }

  lemma FixedKeeps(f: Fields)
    ensures ListAt(WithFixed(f), Tools) == ListAt(f, Tools) && ListAt(WithFixed(f), Functions) == ListAt(f, Functions)
  {
  }

  lemma FunctionsBecomeTools(c: Fields)
    ensures ListAt(WithoutFunctionCall(WithoutFunctions(c)), Tools) == ToolsSeen(c)
  {
    var d := WithoutFunctions(c);
    assert ListAt(d, Tools) == ToolsSeen(c);
  }

  // ---- Tools -----------------------------------------------------------------------

  /** A function tool with a name that is there but blank, beside a named nested function:
      it is kept, blank name and all, and nothing is left to name it by. */
  predicate KeepsBlankName(tool: Json) {
    && tool.Obj? && StringAt(tool.fields, Type) == FUNCTION
    && Name in tool.fields && StringAt(tool.fields, Name) == "" && NestedName(tool.fields) != ""
  }

  lemma FilledFields(tool: Fields, nested: Fields)
    ensures var r := Filled(tool, nested) - {Function};
            && Function !in r
            && StringAt(r, Type) == StringAt(tool, Type)
            && (Name in tool ==> StringAt(r, Name) == StringAt(tool, Name))
            && (Name !in tool && Name in nested ==> StringAt(r, Name) == StringAt(nested, Name))
  {
  }

  lemma NormalToolFacts(tool: Fields)
    ensures var r := NormalTool(tool);
            r.Some? ==>
              && StringAt(r.value, Type) == StringAt(tool, Type)
              && (StringAt(tool, Type) == FUNCTION ==> Function !in r.value)
              && (StringAt(tool, Type) == FUNCTION ==>
                    (StringAt(r.value, Name) == "" <==> KeepsBlankName(Obj(tool))))
  {
    if StringAt(tool, Type) == FUNCTION && StringAt(tool, Name) == "" && NestedName(tool) != "" {
      FilledFields(tool, tool[Function].fields);
    }
  }

  /** A kept tool is kept as it is the next time, unless its name stayed blank. */
  lemma KeptTwice(tool: Json)
    ensures |NormalTools(KeptTool(tool))| <= |KeptTool(tool)| <= 1
    ensures if KeepsBlankName(tool) then KeptTool(tool) != [] && NormalTools(KeptTool(tool)) == []
            else NormalTools(KeptTool(tool)) == KeptTool(tool)
  {
    if tool.Obj? && NormalTool(tool.fields).Some? {
      var r := NormalTool(tool.fields).value;
      NormalToolFacts(tool.fields);
      NormalTwice(r);
      OneTool(Obj(r));
    } else if !tool.Obj? {
      OneTool(tool);
    }
  }

  /** What a tool that has been normalised once becomes. */
  lemma NormalTwice(r: Fields)
    requires StringAt(r, Type) == FUNCTION ==> Function !in r
    ensures NormalTool(r) == if StringAt(r, Type) == FUNCTION && StringAt(r, Name) == "" then None else Some(r)
  {
    if StringAt(r, Type) == FUNCTION {
      assert r - {Function} == r;
    }
  }

  lemma OneTool(tool: Json)
    ensures NormalTools([tool]) == KeptTool(tool)
  {
    assert [tool][..0] == [];
  }

  lemma {:induction false} NormalToolsAppend(a: seq<Json>, b: seq<Json>)
    ensures NormalTools(a + b) == NormalTools(a) + NormalTools(b)
  {
    if b == [] {
      assert a + b == a;
    } else {
      var front, last := b[..|b| - 1], b[|b| - 1];
      NormalToolsAppend(a, front);
      assert (a + b)[..|a + b| - 1] == a + front && (a + b)[|a + b| - 1] == last;
      Regroup(NormalTools(a), NormalTools(front), KeptTool(last));
    }
  }

  predicate AnyKeepsBlankName(tools: seq<Json>) {
    exists i | 0 <= i < |tools| :: KeepsBlankName(tools[i])
  }

  lemma AnyOfLast(tools: seq<Json>)
    requires tools != []
    ensures AnyKeepsBlankName(tools) <==> AnyKeepsBlankName(tools[..|tools| - 1]) || KeepsBlankName(tools[|tools| - 1])
  {
    if AnyKeepsBlankName(tools[..|tools| - 1]) {
      var i :| 0 <= i < |tools| - 1 && KeepsBlankName(tools[..|tools| - 1][i]);
      assert KeepsBlankName(tools[i]);
    }
    if AnyKeepsBlankName(tools) {
      var i :| 0 <= i < |tools| && KeepsBlankName(tools[i]);
      if i < |tools| - 1 {
        assert KeepsBlankName(tools[..|tools| - 1][i]);
      }
    }
  }

  /** Normalising a tool list again drops exactly the tools kept with a blank name. */
  lemma {:induction false} ToolsTwice(tools: seq<Json>)
    ensures if AnyKeepsBlankName(tools) then |NormalTools(NormalTools(tools))| < |NormalTools(tools)|
            else NormalTools(NormalTools(tools)) == NormalTools(tools)
  {
    if tools != [] {
      var front, last := tools[..|tools| - 1], tools[|tools| - 1];
      ToolsTwice(front);
      AnyOfLast(tools);
      KeptTwice(last);
      NormalToolsAppend(NormalTools(front), KeptTool(last));
    }
  }

  // ---- Input items -----------------------------------------------------------------

  lemma {:induction false} ByteLenOfAscii(s: string)
    requires forall i | 0 <= i < |s| :: s[i] < '\U{80}'
    ensures ByteLen(s) == |s|
  {
    if s != "" {
      ByteLenOfAscii(s[..|s| - 1]);
    }
  }

  /** A compacted identifier fits, has no space around it and stays as it is. */
  lemma CompactFits(hash: string -> Digest, id: string)
    requires Trimmed(id) && id != ""
    ensures var c := Compact(hash, id);
            ByteLen(c) <= CALL_ID_MAX_LENGTH && Trimmed(c) && c != "" && Compact(hash, c) == c
  {
    if ByteLen(id) > CALL_ID_MAX_LENGTH {
      var digest: string := hash("sub2api:codex-call-id:v1:" + id);
      var c := "fc_" + digest[..61];
      assert c[0] == 'f' && c[63] == digest[60] && IsHex(digest[60]);
      forall i | 0 <= i < 64
        ensures c[i] < '\U{80}'
      {
        assert i < 3 || (c[i] == digest[i - 3] && IsHex(digest[i - 3]));
      }
      ByteLenOfAscii(c);
    }
  }

  lemma ReasoningIsNoCall()
    ensures !IsToolCallItem(REASONING) && !RequiresToolName(REASONING)
  {
    assert REASONING[0] == 'r';
  }

  lemma MessageIsNoCall()
    ensures !IsToolCallItem("message") && !RequiresToolName("message") && "message" != REASONING
  {
    assert "message"[0] == 'm' && |"message"| == 7;
  }

  /** What is true of a normalised item. */
  predicate ItemForm(item: Fields) {
    var kind := StringAt(item, Type);
    && (kind == REASONING ==> Id !in item && Summary in item && item[Summary] != Null)
    && (IsToolCallItem(kind) ==> CallIdForm(item))
    && (!IsToolCallItem(kind) ==> CallId !in item)
    && (RequiresToolName(kind) ==> StringAt(item, Name) != "")
  }

  /** Either there is no identifier at all or a trimmed one of at most 64 bytes. */
  predicate CallIdForm(item: Fields) {
    CallIdOf(item) != "" ==>
      && CallId in item && item[CallId].Str?
      && var id := item[CallId].text; id != "" && Trimmed(id) && ByteLen(id) <= CALL_ID_MAX_LENGTH
  }

  lemma CallIdByStage(hash: string -> Digest, kind: string, item: Fields)
    ensures var r := WithCallId(hash, kind, item);
            && (IsToolCallItem(kind) ==> CallIdForm(r))
            && (!IsToolCallItem(kind) ==> CallId !in r)
            && Agree(item, r, {CallId})
  {
    if IsToolCallItem(kind) && CallIdOf(item) != "" {
      TrimmedAt(item, CallId);
      TrimmedAt(item, Id);
      CompactFits(hash, CallIdOf(item));
    }
  }

  lemma TrimmedAt(item: Fields, key: Key)
    ensures Trimmed(StringAt(item, key))
  {
    if key in item && item[key].Str? {
      TrimSpaceIsTrimmed(item[key].text);
    }
  }

  lemma CallIdStays(hash: string -> Digest, kind: string, item: Fields)
    requires if IsToolCallItem(kind) then CallIdForm(item) else CallId !in item
    ensures WithCallId(hash, kind, item) == item
  {
    if IsToolCallItem(kind) && CallIdOf(item) != "" {
      var id := item[CallId].text;
      TrimSpaceIsTrimmed(id);
      assert Compact(hash, id) == id;
    }
  }

  lemma ToolNameIsNamed(item: Fields)
    ensures ToolNameOf(item) != "" && TrimSpace(ToolNameOf(item)) == ToolNameOf(item)
  {
    TrimmedAt(item, ToolName);
    if ObjectAt(item, Function).Some? {
      TrimmedAt(ObjectAt(item, Function).value, Name);
    }
    TrimSpaceIsTrimmed(ToolNameOf(item));
    assert Trimmed("tool") by {
      assert "tool"[0] == 't' && "tool"[3] == 'l';
    }
  }

  lemma NameByStage(kind: string, item: Fields)
    ensures var r := WithName(kind, item);
            && (RequiresToolName(kind) ==> StringAt(r, Name) != "")
            && Agree(item, r, {Name})
            && WithName(kind, r) == r
  {
    ToolNameIsNamed(item);
  }

  lemma SummaryByStage(kind: string, item: Fields)
    ensures var r := WithSummary(kind, item);
            && (kind == REASONING ==> Id !in r && Summary in r && r[Summary] != Null)
            && Agree(item, r, {Id, Summary})
            && WithSummary(kind, r) == r
  {
  }

  /** An item only gains or loses id, summary, call_id and name. */
  lemma ItemByStages(hash: string -> Digest, item: Fields)
    ensures ItemForm(NormalItem(hash, item))
    ensures Agree(item, NormalItem(hash, item), {Id, Summary, CallId, Name})
  {
    var kind := StringAt(item, Type);
    var a := WithSummary(kind, item);
    var b := WithCallId(hash, kind, a);
    SummaryByStage(kind, item);
    CallIdByStage(hash, kind, a);
    NameByStage(kind, b);
    AgreeChain(item, a, b, {Id, Summary}, {CallId});
    AgreeChain(item, b, WithName(kind, b), {Id, Summary, CallId}, {Name});
    FormByStages(kind, a, b, WithName(kind, b));
    assert {Id, Summary, CallId} + {Name} == {Id, Summary, CallId, Name};
  }

  lemma FormByStages(kind: string, a: Fields, b: Fields, c: Fields)
    requires kind == REASONING ==> Id !in a && Summary in a && a[Summary] != Null
    requires Agree(a, b, {CallId}) && Agree(b, c, {Name}) && kind == StringAt(a, Type)
    requires if IsToolCallItem(kind) then CallIdForm(b) else CallId !in b
    requires RequiresToolName(kind) ==> StringAt(c, Name) != ""
    ensures ItemForm(c)
  {
    assert StringAt(c, Type) == kind;
    SameCallId(b, c);
  }

  lemma SameCallId(a: Fields, b: Fields)
    requires CallId in a <==> CallId in b
    requires CallId in a ==> a[CallId] == b[CallId]
    requires Id in a <==> Id in b
    requires Id in a ==> a[Id] == b[Id]
    ensures CallIdForm(a) <==> CallIdForm(b)
    ensures CallIdOf(a) == CallIdOf(b)
  {
  }

  lemma ItemStays(hash: string -> Digest, item: Fields)
    requires ItemForm(item)
    ensures NormalItem(hash, item) == item
  {
    var kind := StringAt(item, Type);
    ReasoningIsNoCall();
    SummaryStays(kind, item);
    CallIdStays(hash, kind, item);
  }

  lemma SummaryStays(kind: string, item: Fields)
    requires kind == REASONING ==> Id !in item && Summary in item && item[Summary] != Null
    ensures WithSummary(kind, item) == item
  {
    if kind == REASONING {
      assert item - {Id} == item;
    }
  }

  predicate InputForm(input: Json) {
    match input
    case Str(_) => false
    case Null => false
    case Arr(items) => forall i | 0 <= i < |items| && items[i].Obj? :: ItemForm(items[i].fields)
    case _ => true
  }

  lemma InputIsNormal(hash: string -> Digest, input: Json)
    ensures InputForm(NormalInput(hash, input))
  {
    match input
    case Arr(items) =>
      forall i | 0 <= i < |items| && items[i].Obj?
        ensures ItemForm(NormalItem(hash, items[i].fields))
      {
        ItemByStages(hash, items[i].fields);
      }
    case Str(text) => UserMessageForm(text);
    case _ =>
  }

  lemma UserMessageForm(text: string)
    ensures ItemForm(UserMessage(text).fields)
  {
    MessageIsNoCall();
    var item := UserMessage(text).fields;
    TrimSpaceIsTrimmed("message");
    assert Trimmed("message") by {
      assert "message"[0] == 'm' && "message"[6] == 'e';
    }
    assert StringAt(item, Type) == "message";
  }

  lemma InputStays(hash: string -> Digest, input: Json)
    requires InputForm(input)
    ensures NormalInput(hash, input) == input
  {
    match input
    case Arr(items) =>
      forall i | 0 <= i < |items|
        ensures NormalItems(hash, items)[i] == items[i]
      {
        if items[i].Obj? {
          ItemStays(hash, items[i].fields);
        }
      }
      assert NormalItems(hash, items) == items;
    case _ =>
  }

  // ---- The tool choice ---------------------------------------------------------------

  /** A choice given as an object of some type names a tool of the request. */
  ghost predicate ChoiceForm(f: Fields) {
    var choice := ObjectAt(f, ToolChoice);
    choice.Some? && StringAt(choice.value, Type) != "" ==>
      if StringAt(choice.value, Type) == FUNCTION then
        exists name :: choice == Some(FunctionChoice(name).fields) && name != "" && Trimmed(name)
            && ContainsFunction(f, name)
      else ContainsType(f, StringAt(choice.value, Type))
  }

  lemma ChosenIsTrimmed(choice: Fields)
    ensures Trimmed(ChosenName(choice))
  {
    TrimmedAt(choice, Name);
    if ObjectAt(choice, Function).Some? {
      TrimmedAt(ObjectAt(choice, Function).value, Name);
    }
  }

  lemma FunctionIsTrimmed()
    ensures TrimSpace(FUNCTION) == FUNCTION && FUNCTION != ""
  {
    assert FUNCTION[0] == 'f' && FUNCTION[7] == 'n';
    TrimSpaceIsTrimmed(FUNCTION);
  }

  lemma SameTools(f: Fields, g: Fields, name: string)
    requires ListAt(f, Tools) == ListAt(g, Tools)
    ensures ContainsFunction(f, name) <==> ContainsFunction(g, name)
    ensures ContainsType(f, name) <==> ContainsType(g, name)
  {
  }

  lemma ChoiceByStage(f: Fields)
    ensures ChoiceForm(WithToolChoice(f))
    ensures Agree(f, WithToolChoice(f), {ToolChoice})
  {
    var choice := ObjectAt(f, ToolChoice);
    if choice.Some? && StringAt(choice.value, Type) == FUNCTION {
      FunctionIsTrimmed();
      ChosenIsTrimmed(choice.value);
      FunctionChoiceForm(f, ChosenName(choice.value));
    }
    AutoForm(f);
  }

  lemma FunctionChoiceForm(f: Fields, name: string)
    ensures name != "" && Trimmed(name) && ContainsFunction(f, name) ==>
            ChoiceForm(f[ToolChoice := FunctionChoice(name)])
  {
    var g := f[ToolChoice := FunctionChoice(name)];
    SameTools(f, g, name);
    FunctionIsTrimmed();
    assert ObjectAt(g, ToolChoice) == Some(FunctionChoice(name).fields);
  }

  lemma AutoForm(f: Fields)
    ensures ChoiceForm(f[ToolChoice := AUTO])
  {
  }

  lemma ChoiceStays(f: Fields)
    requires ChoiceForm(f)
    ensures WithToolChoice(f) == f
  {
    var choice := ObjectAt(f, ToolChoice);
    if choice.Some? && StringAt(choice.value, Type) == FUNCTION {
      FunctionIsTrimmed();
      var name :| choice == Some(FunctionChoice(name).fields) && name != "" && Trimmed(name)
          && ContainsFunction(f, name);
      TrimSpaceIsTrimmed(name);
      assert ChosenName(choice.value) == name;
      assert f[ToolChoice] == FunctionChoice(name);
    }
  }

  // ---- The whole request -----------------------------------------------------------

  /** The form of every request sent upstream. */
  ghost predicate NormalForm(f: Fields) {
    PreparedForm(f) && ChoiceForm(f) && Input in f && InputForm(f[Input])
  }

  lemma PreparedFrame(a: Fields, b: Fields)
    requires PreparedForm(a) && Agree(a, b, {Tools, ToolChoice, Input})
    ensures PreparedForm(b)
  {
    FormFrame(a, b);
  }

  lemma ChoiceFrame(a: Fields, b: Fields)
    requires ChoiceForm(a) && Agree(a, b, {Input})
    ensures ChoiceForm(b)
  {
    assert ObjectAt(b, ToolChoice) == ObjectAt(a, ToolChoice);
    var choice := ObjectAt(a, ToolChoice);
    if choice.Some? && StringAt(choice.value, Type) == FUNCTION {
      FunctionIsTrimmed();
      var name :| choice == Some(FunctionChoice(name).fields) && name != "" && Trimmed(name)
          && ContainsFunction(a, name);
      SameTools(a, b, name);
    } else if choice.Some? {
      SameTools(a, b, StringAt(choice.value, Type));
    }
  }

  lemma ToolsByStage(f: Fields)
    ensures Agree(f, WithTools(f), {Tools})
    ensures ListAt(WithTools(f), Tools) == Normalised(ListAt(f, Tools))
  {
  }

  function Normalised(tools: Option<seq<Json>>): Option<seq<Json>> {
    if tools.Some? then Some(NormalTools(tools.value)) else None
  }

  lemma InputByStage(hash: string -> Digest, f: Fields)
    ensures var g := WithInput(hash, f); Agree(f, g, {Input}) && Input in g && InputForm(g[Input])
  {
    InputIsNormal(hash, if Input in f then f[Input] else Null);
  }

  lemma LaterStages(hash: string -> Digest, p: Fields, t: Fields, c: Fields, i: Fields)
    requires t == WithTools(p) && c == WithToolChoice(t) && i == WithInput(hash, c)
    ensures PreparedForm(p) ==> NormalForm(i)
    ensures ListAt(i, Tools) == Normalised(ListAt(p, Tools))
    ensures Agree(p, i, {Tools, ToolChoice, Input})
  {
    ToolsByStage(p);
    ChoiceByStage(t);
    InputByStage(hash, c);
    ChoiceFrame(c, i);
    AgreeChain(p, t, c, {Tools}, {ToolChoice});
    AgreeChain(p, c, i, {Tools, ToolChoice}, {Input});
    if PreparedForm(p) {
      PreparedFrame(p, i);
    }
  }

  /** Normalising reaches the normal form, with the tools that have a name. */
  lemma NormalFormReached(hash: string -> Digest, f: Fields)
    ensures NormalForm(Normal(hash, f))
    ensures ListAt(Normal(hash, f), Tools) == Normalised(ToolsSeen(f))
  {
    var p := Prepared(f);
    PreparedIsPrepared(f);
    PreparedTools(f);
    LaterStages(hash, p, WithTools(p), WithToolChoice(WithTools(p)), Normal(hash, f));
  }

  lemma LaterStagesStay(hash: string -> Digest, g: Fields)
    requires NormalForm(g) && WithTools(g) == g
    ensures WithInput(hash, WithToolChoice(WithTools(g))) == g
  {
    ChoiceStays(g);
    InputStays(hash, g[Input]);
  }

  lemma NormalAgain(hash: string -> Digest, g: Fields)
    requires NormalForm(g)
    ensures Normal(hash, g) == g <==> Normalised(ListAt(g, Tools)) == ListAt(g, Tools)
  {
    PreparedStays(g);
    LaterStages(hash, g, WithTools(g), WithToolChoice(WithTools(g)), Normal(hash, g));
    if Normalised(ListAt(g, Tools)) == ListAt(g, Tools) {
      assert WithTools(g) == g;
      LaterStagesStay(hash, g);
    }
  }

  /** Normalising twice is normalising once, unless a tool is kept with a blank name. */
  lemma TwiceIsOnce(hash: string -> Digest, f: Fields)
    ensures Normal(hash, Normal(hash, f)) == Normal(hash, f) <==>
            !(ToolsSeen(f).Some? && AnyKeepsBlankName(ToolsSeen(f).value))
  {
    var g := Normal(hash, f);
    NormalFormReached(hash, f);
    NormalAgain(hash, g);
    if ToolsSeen(f).Some? {
      ToolsTwice(ToolsSeen(f).value);
    }
  }

  /** Legacy functions never make such a tool. */
  lemma LegacyFunctionsHaveNoName(functions: seq<Json>)
    ensures !AnyKeepsBlankName(Wrapped(functions))
  {
  }

  /** A request that normalising changes twice. */
  lemma BlankNameExample(hash: string -> Digest)
    ensures var tool := Obj(map[Type := Str(FUNCTION), Name := Str(" "), Function := Obj(map[Name := Str("f")])]);
            var f: Fields := map[Tools := Arr([tool])];
            Normal(hash, Normal(hash, f)) != Normal(hash, f)
  {
    var nested: Fields := map[Name := Str("f")];
    var tool := Obj(map[Type := Str(FUNCTION), Name := Str(" "), Function := Obj(nested)]);
    var f: Fields := map[Tools := Arr([tool])];
    FunctionIsTrimmed();
    TrimSpaceIsTrimmed(" ");
    TrimSpaceIsTrimmed("f");
    assert !IsSpace("f"[0]);
    assert KeepsBlankName(tool);
    assert ToolsSeen(f) == Some([tool]);
    assert KeepsBlankName([tool][0]);
    TwiceIsOnce(hash, f);
  }

  /** Fields the endpoint is not known to reject are retained as they are. */
  lemma OthersAreRetained(hash: string -> Digest, f: Fields)
    ensures Agree(f, Normal(hash, f),
                  ALWAYS_SET + {Instructions, Include, Functions, FunctionCall, Tools, ToolChoice, Input})
  {
    var a, p := WithFixed(f), Prepared(f);
    FixedRetains(f);
    PreparedRetains(a);
    LaterStages(hash, p, WithTools(p), WithToolChoice(WithTools(p)), Normal(hash, f));
    RetainedThrough(f, a, p, Normal(hash, f));
  }

  lemma RetainedThrough(f: Fields, a: Fields, p: Fields, n: Fields)
    requires Agree(f, a, ALWAYS_SET)
    requires Agree(a, p, {Instructions, Include, Functions, FunctionCall, Tools, ToolChoice})
    requires Agree(p, n, {Tools, ToolChoice, Input})
    ensures Agree(f, n, ALWAYS_SET + {Instructions, Include, Functions, FunctionCall, Tools, ToolChoice, Input})
  {
  }

  lemma PreparedRetains(a: Fields)
    ensures Agree(a, WithoutFunctionCall(WithoutFunctions(WithInclude(WithInstructions(a)))),
                  {Instructions, Include, Functions, FunctionCall, Tools, ToolChoice})
  {
    var c := WithInclude(WithInstructions(a));
    AgreeChain(a, WithInstructions(a), c, {Instructions}, {Include});
    LegacyRetains(c);
    AgreeChain(a, c, WithoutFunctionCall(WithoutFunctions(c)),
               {Instructions, Include}, {Functions, FunctionCall, Tools, ToolChoice});
    assert {Instructions, Include} + {Functions, FunctionCall, Tools, ToolChoice} ==
           {Instructions, Include, Functions, FunctionCall, Tools, ToolChoice};
  }

  lemma LegacyRetains(c: Fields)
    ensures Agree(c, WithoutFunctionCall(WithoutFunctions(c)), {Functions, FunctionCall, Tools, ToolChoice})
  {
    var d := WithoutFunctions(c);
    assert Agree(c, d, {Functions, Tools});
    assert Agree(d, WithoutFunctionCall(d), {FunctionCall, ToolChoice});
    AgreeChain(c, d, WithoutFunctionCall(d), {Functions, Tools}, {FunctionCall, ToolChoice});
  }
}
