/** The request sent upstream, field by field, each by its own name. */
module SentRequest {
  import opened Text
  import opened Transform
  import opened SentInput
  import N = Normalisation
  import P = Pairing

  /** A string field without the space around it. */
  function Word(fields: Fields, key: Key): string {
    TrimSpace(TextAt(fields, key))
  }

  lemma WordIs(fields: Fields, key: Key)
    ensures StringAt(fields, key) == Word(fields, key)
  {
  }

  /** A field and its value are the same in both, or missing in both. */
  predicate Same(a: Fields, b: Fields, key: Key) {
    (key in a <==> key in b) && (key in a ==> a[key] == b[key])
  }

  // ---- Fields set, removed and kept -------------------------------------------------------

  /** What is sent never has these fields. */
  predicate WithoutRejected(f: Fields) {
    && User !in f && Metadata !in f && PromptCacheKey !in f && PromptCacheRetention !in f
    && SafetyIdentifier !in f && StreamOptions !in f && MaxOutputTokens !in f && MaxCompletionTokens !in f
    && Temperature !in f && TopP !in f && FrequencyPenalty !in f && PresencePenalty !in f
    && Functions !in f && FunctionCall !in f
  }

  /** Every other field is sent as it is. */
  predicate IsKept(key: Key) {
    key !in {
      User, Metadata, PromptCacheKey, PromptCacheRetention, SafetyIdentifier, StreamOptions,
      MaxOutputTokens, MaxCompletionTokens, Temperature, TopP, FrequencyPenalty, PresencePenalty,
      Functions, FunctionCall, Model, Stream, Store, Instructions, Include, Tools, ToolChoice, Input}
  }

  lemma RejectedAreUnsupported(f: Fields)
    requires N.Fixed(f) && N.Modern(f)
    ensures WithoutRejected(f)
  {
    assert UNSUPPORTED[0] == User && UNSUPPORTED[1] == Metadata && UNSUPPORTED[2] == PromptCacheKey;
    assert UNSUPPORTED[3] == PromptCacheRetention && UNSUPPORTED[4] == SafetyIdentifier;
    assert UNSUPPORTED[5] == StreamOptions && UNSUPPORTED[6] == MaxOutputTokens;
    assert UNSUPPORTED[7] == MaxCompletionTokens && UNSUPPORTED[8] == Temperature && UNSUPPORTED[9] == TopP;
    assert UNSUPPORTED[10] == FrequencyPenalty && UNSUPPORTED[11] == PresencePenalty;
  }

  lemma KeptAreOthers(key: Key)
    requires IsKept(key)
    ensures key !in N.ALWAYS_SET + {Instructions, Include, Functions, FunctionCall, Tools, ToolChoice, Input}
  {
  }

  /** Three fields are set, the rejected and the legacy ones are gone, and all others are
      as they were. */
  ghost predicate FieldsFit(f: Fields, sent: Fields) {
    && WithoutRejected(sent)
    && Model in sent && sent[Model] == Str("gpt-5.6-sol")
    && Stream in sent && sent[Stream] == Bool(true) && Store in sent && sent[Store] == Bool(false)
    && forall key | IsKept(key) :: Same(f, sent, key)
  }

  lemma FieldsSent(hash: string -> Digest, f: Fields)
    ensures FieldsFit(f, Normal(hash, f))
  {
    var sent := Normal(hash, f);
    N.NormalFormReached(hash, f);
    RejectedAreUnsupported(sent);
    N.OthersAreRetained(hash, f);
    forall key | IsKept(key)
      ensures Same(f, sent, key)
    {
      KeptAreOthers(key);
    }
  }

  // ---- Instructions and includes ----------------------------------------------------------

  /** After the early stages instructions and includes are not touched again. */
  lemma EarlyFieldsStay(hash: string -> Digest, f: Fields)
    ensures var sent := Normal(hash, f);
            && Same(WithInstructions(WithFixed(f)), sent, Instructions)
            && Same(WithInclude(WithInstructions(WithFixed(f))), sent, Include)
  {
    var a := WithInstructions(WithFixed(f));
    var c, p := WithInclude(a), Prepared(f);
    hide WithInclude, WithInstructions, WithFixed, WithoutFunctions, WithoutFunctionCall;
    N.LegacyRetains(c);
    N.LaterStages(hash, p, WithTools(p), WithToolChoice(WithTools(p)), Normal(hash, f));
    IncludeLeaves(a);
    EarlyThrough(a, c, p, Normal(hash, f));
  }

  lemma IncludeLeaves(a: Fields)
    ensures N.Agree(a, WithInclude(a), {Include})
  {
  }

  lemma EarlyThrough(a: Fields, c: Fields, p: Fields, sent: Fields)
    requires N.Agree(a, c, {Include}) && N.Agree(c, p, {Functions, FunctionCall, Tools, ToolChoice})
    requires N.Agree(p, sent, {Tools, ToolChoice, Input})
    ensures Same(a, sent, Instructions) && Same(c, sent, Include)
  {
  }

  /** Instructions are the client's own unless they are blank or no text. */
  predicate InstructionsFit(f: Fields, sent: Fields) {
    && Instructions in sent
    && sent[Instructions] ==
       if IsBlank(TextAt(f, Instructions)) then Str("You are a helpful coding assistant.") else f[Instructions]
  }

  lemma InstructionsSent(hash: string -> Digest, f: Fields)
    ensures InstructionsFit(f, Normal(hash, f))
  {
    EarlyFieldsStay(hash, f);
    TrimSpaceIsTrimmed(TextAt(f, Instructions));
    FixedLeaves(f, Instructions);
    WordIs(WithFixed(f), Instructions);
  }

  lemma FixedLeaves(f: Fields, key: Key)
    requires key == Instructions || key == Include || key == Reasoning || key == FunctionCall || key == ToolChoice
    ensures Same(f, WithFixed(f), key) && TextAt(f, key) == TextAt(WithFixed(f), key)
  {
    hide WithFixed;
    N.FixedRetains(f);
    assert key !in N.ALWAYS_SET;
  }

  /** A request that reasons asks for the ciphertext too, once, beside what it asked for. */
  predicate IncludeFits(f: Fields, sent: Fields) {
    var wanted := Str("reasoning.encrypted_content");
    if Reasoning in f && f[Reasoning].Obj? && f[Reasoning].fields != map[] then
      && Include in sent && sent[Include].Arr?
      && sent[Include].items ==
         if Include !in f || !f[Include].Arr? then [wanted]
         else if wanted in f[Include].items then f[Include].items else f[Include].items + [wanted]
    else Same(f, sent, Include)
  }

  lemma IncludeSent(hash: string -> Digest, f: Fields)
    ensures IncludeFits(f, Normal(hash, f))
  {
    var a := WithInstructions(WithFixed(f));
    EarlyFieldsStay(hash, f);
    FixedLeaves(f, Include);
    FixedLeaves(f, Reasoning);
    InstructionsLeave(WithFixed(f));
    IncludeByStageFits(a);
    hide Normal, WithFixed, WithInstructions, WithInclude, IncludeFits;
    IncludeThrough(f, a, WithInclude(a), Normal(hash, f));
  }

  lemma IncludeByStageFits(a: Fields)
    ensures IncludeFits(a, WithInclude(a))
  {
  }

  lemma IncludeThrough(f: Fields, a: Fields, c: Fields, sent: Fields)
    requires Same(f, a, Include) && Same(f, a, Reasoning) && IncludeFits(a, c) && Same(c, sent, Include)
    ensures IncludeFits(f, sent)
  {
  }

  // ---- Tools --------------------------------------------------------------------------------

  /** The tools a request comes with: legacy functions, each wrapped, before any tools. */
  function ToolsGiven(f: Fields): Option<seq<Json>> {
    if Functions in f && f[Functions].Arr? then
      var functions := f[Functions].items;
      Some(seq(|functions|, i requires 0 <= i < |functions| =>
        Obj(map[Type := Str("function"), Function := functions[i]])))
    else if Tools in f && f[Tools].Arr? then Some(f[Tools].items)
    else None
  }

  /** The name of the function nested in a tool or a choice. */
  function NestedWord(tool: Fields): string {
    if Function in tool && tool[Function].Obj? then Word(tool[Function].fields, Name) else ""
  }

  /** Only a function tool without any name is dropped. */
  predicate Nameless(tool: Json) {
    && tool.Obj? && Word(tool.fields, Type) == "function"
    && Word(tool.fields, Name) == "" && NestedWord(tool.fields) == ""
  }

  /** How a tool that is kept is sent: a function tool without its nested function, which
      lends it what it lacks if it has no name. */
  ghost predicate ToolFits(tool: Json, sent: Json) {
    if !tool.Obj? || Word(tool.fields, Type) != "function" then sent == tool
    else
      && sent.Obj? && Function !in sent.fields
      && forall key | key != Function ::
        Same(if Lends(tool.fields, key) then tool.fields[Function].fields else tool.fields, sent.fields, key)
  }

  /** The nested function gives the field. */
  predicate Lends(tool: Fields, key: Key) {
    && Word(tool, Name) == "" && NestedWord(tool) != ""
    && (key == Name || key == Description || key == Parameters || key == Strict)
    && key !in tool
  }

  lemma NestedIs(tool: Fields)
    ensures NestedName(tool) == NestedWord(tool)
    ensures NestedWord(tool) != "" ==> Function in tool && tool[Function].Obj?
  {
  }

  lemma ToolSent(tool: Json)
    ensures Nameless(tool) ==> KeptTool(tool) == []
    ensures !Nameless(tool) ==> |KeptTool(tool)| == 1 && ToolFits(tool, KeptTool(tool)[0])
  {
    if tool.Obj? {
      WordIs(tool.fields, Type);
      WordIs(tool.fields, Name);
      NestedIs(tool.fields);
      if Word(tool.fields, Name) == "" && NestedWord(tool.fields) != "" {
        FilledByKey(tool.fields, tool.fields[Function].fields);
      }
    }
  }

  lemma FilledByKey(tool: Fields, nested: Fields)
    ensures var r := Filled(tool, nested);
            forall key ::
              if key !in tool && (key == Name || key == Description || key == Parameters || key == Strict)
              then Same(nested, r, key) else Same(tool, r, key)
  {
  }

  /** The tools of a list that are not nameless, from the front. */
  function Named(tools: seq<Json>): seq<Json> {
    if tools == [] then [] else (if Nameless(tools[0]) then [] else [tools[0]]) + Named(tools[1..])
  }

  ghost predicate ToolsFit(tools: seq<Json>, sent: seq<Json>) {
    |tools| == |sent| && forall i | 0 <= i < |tools| :: ToolFits(tools[i], sent[i])
  }

  lemma {:induction false} NamedLast(tools: seq<Json>, last: Json)
    ensures Named(tools + [last]) == Named(tools) + if Nameless(last) then [] else [last]
  {
    if tools == [] {
      assert ([] + [last])[1..] == [];
    } else {
      NamedLast(tools[1..], last);
      assert (tools + [last])[1..] == tools[1..] + [last];
      Regroup(if Nameless(tools[0]) then [] else [tools[0]], Named(tools[1..]), if Nameless(last) then [] else [last]);
    }
  }

  lemma {:induction false} ToolsListSent(tools: seq<Json>)
    ensures ToolsFit(Named(tools), NormalTools(tools))
  {
    if tools != [] {
      var n := |tools| - 1;
      ToolsListSent(tools[..n]);
      ToolSent(tools[n]);
      NamedLast(tools[..n], tools[n]);
      assert tools == tools[..n] + [tools[n]];
    }
  }

  /** The tools sent are those given that have a name anywhere, in order, each in its form. */
  ghost predicate AllToolsFit(f: Fields, sent: Fields) {
    match ToolsGiven(f)
    case Some(tools) => Tools in sent && sent[Tools].Arr? && ToolsFit(Named(tools), sent[Tools].items)
    case None => Same(f, sent, Tools)
  }

  lemma ToolsSent(hash: string -> Digest, f: Fields)
    ensures AllToolsFit(f, Normal(hash, f))
  {
    hide Normal, NormalTools, N.NormalForm;
    N.NormalFormReached(hash, f);
    GivenAreSeen(f);
    if ToolsGiven(f).Some? {
      ToolsListSent(ToolsGiven(f).value);
    } else {
      NoToolsSent(hash, f);
    }
  }

  lemma GivenAreSeen(f: Fields)
    ensures ToolsGiven(f) == N.ToolsSeen(f)
  {
    if Functions in f && f[Functions].Arr? {
      assert ToolsGiven(f).value == Wrapped(f[Functions].items);
    }
  }

  /** Without a list of tools or functions, tools stay as they are. */
  lemma NoToolsSent(hash: string -> Digest, f: Fields)
    requires ToolsGiven(f).None?
    ensures Same(f, Normal(hash, f), Tools)
  {
    var a := WithInstructions(WithFixed(f));
    var c, p := WithInclude(a), Prepared(f);
    GivenAreSeen(f);
    N.PreparedTools(f);
    assert !(Functions in f && f[Functions].Arr?);
    N.FixedRetains(f);
    InstructionsLeave(WithFixed(f));
    IncludeLeaves(a);
    hide WithFixed, WithInstructions, WithInclude, WithToolChoice, WithInput, ToolsGiven, N.ToolsSeen;
    ListsStay(f, WithFixed(f), a, c);
    NoFunctionsLeaveTools(c);
    N.ChoiceByStage(WithTools(p));
    N.InputByStage(hash, WithToolChoice(WithTools(p)));
  }

  lemma ListsStay(f: Fields, fixed: Fields, a: Fields, c: Fields)
    requires N.Agree(f, fixed, N.ALWAYS_SET) && N.Agree(fixed, a, {Instructions}) && N.Agree(a, c, {Include})
    ensures Same(f, c, Tools) && Same(f, c, Functions)
  {
    assert Tools !in N.ALWAYS_SET && Functions !in N.ALWAYS_SET;
  }

  lemma NoFunctionsLeaveTools(c: Fields)
    requires !(Functions in c && c[Functions].Arr?)
    ensures Same(c, WithoutFunctionCall(WithoutFunctions(c)), Tools)
  {
  }

  // ---- The tool choice ----------------------------------------------------------------------

  /** The choice a request comes with: a legacy call that says something, or else its own. */
  function ChoiceGiven(f: Fields): Option<Json> {
    if FunctionCall in f && f[FunctionCall].Str? then Some(f[FunctionCall])
    else if FunctionCall in f && f[FunctionCall].Obj? && Word(f[FunctionCall].fields, Name) != "" then
      Some(Obj(map[Type := Str("function"), Name := Str(Word(f[FunctionCall].fields, Name))]))
    else if ToolChoice in f then Some(f[ToolChoice])
    else None
  }

  /** Some tool sent is of this kind and, if a name is given, has that name. */
  predicate Offered(sent: Fields, kind: string, name: Option<string>) {
    && Tools in sent && sent[Tools].Arr?
    && var tools := sent[Tools].items;
       exists i | 0 <= i < |tools| ::
         && tools[i].Obj? && Word(tools[i].fields, Type) == kind
         && (name.Some? ==> Word(tools[i].fields, Name) == name.value)
  }

  /** A choice of a tool that is not offered becomes "auto"; one that is not of a tool stays. */
  predicate ChoiceFits(given: Json, sent: Fields, choice: Json) {
    if !given.Obj? || Word(given.fields, Type) == "" then choice == given
    else if Word(given.fields, Type) == "function" then
      var name := NonEmpty(Word(given.fields, Name), NestedWord(given.fields));
      choice == if name != "" && Offered(sent, "function", Some(name))
                then Obj(map[Type := Str("function"), Name := Str(name)]) else Str("auto")
    else choice == if Offered(sent, Word(given.fields, Type), None) then given else Str("auto")
  }

  lemma OffersAre(f: Fields, kind: string, name: string)
    ensures ContainsType(f, kind) <==> Offered(f, kind, None)
    ensures ContainsFunction(f, name) <==> Offered(f, "function", Some(name))
  {
    if Tools in f && f[Tools].Arr? {
      var tools := f[Tools].items;
      forall i | 0 <= i < |tools| && tools[i].Obj?
        ensures StringAt(tools[i].fields, Type) == Word(tools[i].fields, Type)
        ensures StringAt(tools[i].fields, Name) == Word(tools[i].fields, Name)
      {
        WordIs(tools[i].fields, Type);
        WordIs(tools[i].fields, Name);
      }
      SameOffers(tools, kind, name);
    }
  }

  lemma SameOffers(tools: seq<Json>, kind: string, name: string)
    requires forall i | 0 <= i < |tools| && tools[i].Obj? ::
               && StringAt(tools[i].fields, Type) == Word(tools[i].fields, Type)
               && StringAt(tools[i].fields, Name) == Word(tools[i].fields, Name)
    ensures (exists i | 0 <= i < |tools| :: HasType(tools[i], kind)) <==>
            exists i | 0 <= i < |tools| :: tools[i].Obj? && Word(tools[i].fields, Type) == kind
    ensures (exists i | 0 <= i < |tools| :: IsFunctionTool(tools[i], name)) <==>
            exists i | 0 <= i < |tools| ::
              tools[i].Obj? && Word(tools[i].fields, Type) == "function" && Word(tools[i].fields, Name) == name
  {
  }

  lemma ChoiceByTools(t: Fields)
    requires ToolChoice in t
    ensures var sent := WithToolChoice(t); ToolChoice in sent && ChoiceFits(t[ToolChoice], t, sent[ToolChoice])
  {
    if t[ToolChoice].Obj? {
      var choice := t[ToolChoice].fields;
      WordIs(choice, Type);
      WordIs(choice, Name);
      NestedIs(choice);
      OffersAre(t, Word(choice, Type), ChosenName(choice));
    }
  }

  lemma OffersStay(t: Fields, sent: Fields, given: Json, choice: Json)
    requires Same(t, sent, Tools)
    ensures ChoiceFits(given, t, choice) <==> ChoiceFits(given, sent, choice)
  {
  }

  lemma ChoiceReaches(f: Fields)
    ensures var p := Prepared(f);
            match ChoiceGiven(f)
            case Some(choice) => ToolChoice in p && p[ToolChoice] == choice
            case None => ToolChoice !in p
  {
    var a := WithInstructions(WithFixed(f));
    hide WithFixed, WithInstructions, WithInclude, WithoutFunctions, WithoutFunctionCall;
    FixedLeaves(f, FunctionCall);
    FixedLeaves(f, ToolChoice);
    InstructionsLeave(WithFixed(f));
    IncludeLeaves(a);
    FunctionsLeave(WithInclude(a));
    CallBecomesChoice(WithoutFunctions(WithInclude(a)));
  }

  lemma InstructionsLeave(f: Fields)
    ensures N.Agree(f, WithInstructions(f), {Instructions})
  {
  }

  lemma FunctionsLeave(f: Fields)
    ensures N.Agree(f, WithoutFunctions(f), {Functions, Tools})
  {
  }

  lemma CallBecomesChoice(d: Fields)
    ensures var p := WithoutFunctionCall(d);
            match ChoiceGiven(d)
            case Some(choice) => ToolChoice in p && p[ToolChoice] == choice
            case None => ToolChoice !in p
  {
    if FunctionCall in d && d[FunctionCall].Obj? {
      WordIs(d[FunctionCall].fields, Name);
    }
  }

  /** The tool choice sent, by the tools sent. */
  predicate SomeChoiceFits(f: Fields, sent: Fields) {
    match ChoiceGiven(f)
    case Some(given) => ToolChoice in sent && ChoiceFits(given, sent, sent[ToolChoice])
    case None => ToolChoice !in sent
  }

  lemma ChoiceSent(hash: string -> Digest, f: Fields)
    ensures SomeChoiceFits(f, Normal(hash, f))
  {
    var p := Prepared(f);
    var t := WithTools(p);
    var c := WithToolChoice(t);
    ChoiceReaches(f);
    N.ToolsByStage(p);
    N.ChoiceByStage(t);
    if ToolChoice in t {
      ChoiceByTools(t);
      assert Same(t, WithInput(hash, c), Tools);
      OffersStay(t, WithInput(hash, c), t[ToolChoice], c[ToolChoice]);
    }
  }

  // ---- The input ----------------------------------------------------------------------------

  /** The items that belong to a call by an identifier. */
  predicate CarriesId(kind: string) {
    kind in {
      "function_call", "tool_call", "local_shell_call", "tool_search_call", "custom_tool_call", "mcp_tool_call",
      "function_call_output", "mcp_tool_call_output", "custom_tool_call_output", "tool_search_output"}
  }

  predicate NeedsName(kind: string) {
    kind in {"function_call", "custom_tool_call", "mcp_tool_call"}
  }

  /** Reasoning is sent without id and with a summary. */
  predicate SummaryFits(item: Fields, sent: Fields) {
    if Word(item, Type) == "reasoning" then
      && Id !in sent && Summary in sent
      && sent[Summary] == if Summary in item && item[Summary] != Null then item[Summary] else Arr([])
    else Same(item, sent, Id) && Same(item, sent, Summary)
  }

  /** An item of a call has its own identifier, or else its id, in the form it is sent in;
      no other item has one. */
  predicate CallIdFits(hash: string -> Digest, item: Fields, sent: Fields) {
    var id := FirstNonEmpty([Word(item, CallId), Word(item, Id)]);
    if !CarriesId(Word(item, Type)) then CallId !in sent
    else if id == "" then Same(item, sent, CallId)
    else CallId in sent && sent[CallId] == Str(IdSent(hash, id))
  }

  predicate NameFits(item: Fields, sent: Fields) {
    if NeedsName(Word(item, Type)) && Word(item, Name) == "" then
      Name in sent && sent[Name] == Str(FirstNonEmpty([Word(item, ToolName), NestedWord(item), "tool"]))
    else Same(item, sent, Name)
  }

  ghost predicate ItemFits(hash: string -> Digest, item: Fields, sent: Fields) {
    && SummaryFits(item, sent) && CallIdFits(hash, item, sent) && NameFits(item, sent)
    && forall key | key !in {Id, Summary, CallId, Name} :: Same(item, sent, key)
  }

  lemma FirstWords(a: string, b: string, c: string)
    ensures FirstNonEmpty([a, b]) == NonEmpty(a, b)
    ensures FirstNonEmpty([a, b, c]) == NonEmpty(NonEmpty(a, b), c)
  {
    assert [a, b, c] == [a] + [b, c] && [b, c] == [b] + [c] && [a, b] == [a] + [b];
    FirstNonEmptyOf(a, [b, c]);
    FirstNonEmptyOf(b, [c]);
    FirstNonEmptyOf(a, [b]);
    FirstNonEmptyOf(b, []);
    FirstNonEmptyOf(c, []);
  }

  lemma SummaryByStageFits(item: Fields)
    ensures SummaryFits(item, WithSummary(Word(item, Type), item))
  {
  }

  lemma CallIdByStageFits(hash: string -> Digest, kind: string, item: Fields)
    ensures var sent := WithCallId(hash, kind, item);
            if !CarriesId(kind) then CallId !in sent
            else
              var id := FirstNonEmpty([Word(item, CallId), Word(item, Id)]);
              if id == "" then Same(item, sent, CallId) else CallId in sent && sent[CallId] == Str(IdSent(hash, id))
  {
    WordIs(item, CallId);
    WordIs(item, Id);
    FirstWords(Word(item, CallId), Word(item, Id), "");
    CompactIsSent(hash, TextAt(item, CallId));
    CompactIsSent(hash, TextAt(item, Id));
  }

  lemma CompactIsSent(hash: string -> Digest, text: string)
    ensures TrimSpace(text) != "" ==> Compact(hash, TrimSpace(text)) == IdSent(hash, TrimSpace(text))
  {
    TrimSpaceIsTrimmed(text);
  }

  lemma NameByStageFits(kind: string, item: Fields)
    ensures var sent := WithName(kind, item);
            if NeedsName(kind) && Word(item, Name) == "" then
              Name in sent && sent[Name] == Str(FirstNonEmpty([Word(item, ToolName), NestedWord(item), "tool"]))
            else Same(item, sent, Name)
  {
    WordIs(item, Name);
    WordIs(item, ToolName);
    NestedIs(item);
    FirstWords(Word(item, ToolName), NestedWord(item), "tool");
  }

  lemma KindsApart(kind: string)
    ensures kind == "reasoning" ==> !CarriesId(kind)
  {
    N.ReasoningIsNoCall();
  }

  lemma ItemIsSent(hash: string -> Digest, item: Fields)
    ensures ItemFits(hash, item, NormalItem(hash, item))
  {
    var kind := Word(item, Type);
    var a := WithSummary(kind, item);
    var b := WithCallId(hash, kind, a);
    WordIs(item, Type);
    SummaryByStageFits(item);
    CallIdByStageFits(hash, kind, a);
    NameByStageFits(kind, b);
    KindsApart(kind);
    N.SummaryByStage(kind, item);
    N.CallIdByStage(hash, kind, a);
    N.NameByStage(kind, b);
    SummaryThrough(item, a, b, WithName(kind, b));
    CallIdThrough(hash, item, a, b, WithName(kind, b));
    NameThrough(item, a, b, WithName(kind, b));
  }

  lemma SummaryThrough(item: Fields, a: Fields, b: Fields, c: Fields)
    requires N.Agree(item, a, {Id, Summary}) && N.Agree(a, b, {CallId}) && N.Agree(b, c, {Name})
    requires SummaryFits(item, a)
    ensures SummaryFits(item, c)
    ensures forall key | key !in {Id, Summary, CallId, Name} :: Same(item, c, key)
  {
  }

  lemma CallIdThrough(hash: string -> Digest, item: Fields, a: Fields, b: Fields, c: Fields)
    requires N.Agree(item, a, {Id, Summary}) && N.Agree(b, c, {Name})
    requires Word(item, Type) != "reasoning" ==> Same(item, a, Id)
    requires CarriesId(Word(item, Type)) ==> Word(item, Type) != "reasoning"
    requires if !CarriesId(Word(item, Type)) then CallId !in b
             else
               var id := FirstNonEmpty([Word(a, CallId), Word(a, Id)]);
               if id == "" then Same(a, b, CallId) else CallId in b && b[CallId] == Str(IdSent(hash, id))
    ensures CallIdFits(hash, item, c)
  {
    hide CarriesId, IdSent, FirstNonEmpty, TrimSpace;
  }

  lemma NameThrough(item: Fields, a: Fields, b: Fields, c: Fields)
    requires N.Agree(item, a, {Id, Summary}) && N.Agree(a, b, {CallId})
    requires if NeedsName(Word(item, Type)) && Word(b, Name) == "" then
               Name in c && c[Name] == Str(FirstNonEmpty([Word(b, ToolName), NestedWord(b), "tool"]))
             else Same(b, c, Name)
    ensures NameFits(item, c)
  {
    hide NeedsName, FirstNonEmpty, TrimSpace;
  }

  /** What an input is sent as. */
  ghost predicate InputFits(hash: string -> Digest, given: Option<Json>, sent: Json) {
    match given
    case None => sent == Arr([])
    case Some(Null) => sent == Arr([])
    case Some(Str(text)) =>
      sent == Arr(if TrimSpace(text) == "" then []
                  else [Obj(map[Type := Str("message"), Role := Str("user"), Content := Str(text)])])
    case Some(Arr(items)) =>
      && sent.Arr? && |sent.items| == |items|
      && forall i | 0 <= i < |items| ::
           if items[i].Obj? then sent.items[i].Obj? && ItemFits(hash, items[i].fields, sent.items[i].fields)
           else sent.items[i] == items[i]
    case Some(other) => sent == other
  }

  /** The input sent, item by item. */
  lemma InputSent(hash: string -> Digest, f: Fields)
    ensures var sent := Normal(hash, f);
            && Input in sent
            && InputFits(hash, if Input in f then Some(f[Input]) else None, sent[Input])
  {
    if Input in f {
      P.InputReachesLastStage(hash, f);
      match f[Input]
      case Str(text) => TrimSpaceIsTrimmed(text);
      case Arr(items) =>
        forall i | 0 <= i < |items| && items[i].Obj?
          ensures ItemFits(hash, items[i].fields, NormalItem(hash, items[i].fields))
        {
          ItemIsSent(hash, items[i].fields);
        }
      case _ =>
    } else {
      NoInput(hash, f);
    }
  }

  lemma NoInput(hash: string -> Digest, f: Fields)
    requires Input !in f
    ensures Input in Normal(hash, f) && Normal(hash, f)[Input] == Arr([])
  {
    var p := Prepared(f);
    hide WithFixed, WithInstructions, WithInclude, WithoutFunctions, WithoutFunctionCall, WithTools, WithToolChoice;
    N.FixedRetains(f);
    N.PreparedRetains(WithFixed(f));
    N.ToolsByStage(p);
    N.ChoiceByStage(WithTools(p));
    NoInputFrom(f, WithFixed(f), p, WithTools(p), WithToolChoice(WithTools(p)));
  }

  lemma NoInputFrom(f: Fields, a: Fields, p: Fields, t: Fields, c: Fields)
    requires Input !in f && N.Agree(f, a, N.ALWAYS_SET)
    requires N.Agree(a, p, {Instructions, Include, Functions, FunctionCall, Tools, ToolChoice})
    requires N.Agree(p, t, {Tools}) && N.Agree(t, c, {ToolChoice})
    ensures Input !in c
  {
    assert Input !in N.ALWAYS_SET;
  }

  // ---- The whole request --------------------------------------------------------------------

  /** Everything about a request as it is sent. */
  ghost predicate SentAs(hash: string -> Digest, f: Fields, sent: Fields) {
    && FieldsFit(f, sent) && InstructionsFit(f, sent) && IncludeFits(f, sent)
    && AllToolsFit(f, sent) && SomeChoiceFits(f, sent)
    && Input in sent && InputFits(hash, if Input in f then Some(f[Input]) else None, sent[Input])
  }

  /** A body is sent exactly when it is one JSON object and nothing more; what is sent is
      told field by field, and every other body has its own error. */
  lemma RequestSent(hash: string -> Digest, body: Body)
    ensures match body
            case Decoded(Obj(f), Nothing) =>
              var r := Transformed(hash, body); r.Ok? && r.value.Obj? && SentAs(hash, f, r.value.fields)
            case Decoded(Obj(_), AnotherValue) => Transformed(hash, body) == Err(MultipleValues)
            case Decoded(Obj(_), NotJson) => Transformed(hash, body) == Err(TrailingNotDecoded)
            case Decoded(Null, _) => Transformed(hash, body) == Err(NotAnObject)
            case _ => Transformed(hash, body) == Err(DecodeFailed)
  {
    hide Normal, SentAs, FieldsFit, InstructionsFit, IncludeFits, AllToolsFit, SomeChoiceFits, InputFits;
    if body.Decoded? && body.value.Obj? {
      var f := body.value.fields;
      IsSentAs(hash, f);
    }
  }

  lemma IsSentAs(hash: string -> Digest, f: Fields)
    ensures SentAs(hash, f, Normal(hash, f))
  {
    hide Normal, FieldsFit, InstructionsFit, IncludeFits, AllToolsFit, SomeChoiceFits, InputFits;
    FieldsSent(hash, f);
    InstructionsSent(hash, f);
    IncludeSent(hash, f);
    ToolsSent(hash, f);
    ChoiceSent(hash, f);
    InputSent(hash, f);
  }
}
