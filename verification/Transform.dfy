/** Normalisation of a Responses request for the Codex endpoint, on decoded JSON. */
module Transform {
  import opened Text

  /** Field names with a meaning here are constructors; any other name is Named. */
  datatype Key =
    | Model | Stream | Store | Instructions | Reasoning | Include | Functions | FunctionCall
    | Tools | ToolChoice | Input
    | User | Metadata | PromptCacheKey | PromptCacheRetention | SafetyIdentifier | StreamOptions
    | MaxOutputTokens | MaxCompletionTokens | Temperature | TopP | FrequencyPenalty | PresencePenalty
    | Type | Name | Function | Description | Parameters | Strict
    | Id | Summary | CallId | ToolName | Role | Content
    | EncryptedContent | Arguments | Output | PartText | ImageUrl
    | Named(name: string)

  datatype Json =
    | Null | Bool(value: bool) | Num(literal: string) | Str(text: string)
    | Arr(items: seq<Json>) | Obj(fields: map<Key, Json>)

  type Fields = map<Key, Json>

  /** A SHA-256 digest in hexadecimal. */
  predicate IsHex(c: char) {
    '0' <= c <= '9' || 'a' <= c <= 'f'
  }

  type Digest = s: string | |s| == 64 && forall i | 0 <= i < 64 :: IsHex(s[i]) witness seq(64, _ => '0')

  const MODEL := "gpt-5.6-sol"
  const DEFAULT_INSTRUCTIONS := "You are a helpful coding assistant."
  const REASONING_INCLUDE := Str("reasoning.encrypted_content")
  const FUNCTION := "function"
  const REASONING := "reasoning"
  const AUTO := Str("auto")
  const CALL_ID_MAX_LENGTH := 64

  const UNSUPPORTED: seq<Key> := [
    User, Metadata, PromptCacheKey, PromptCacheRetention, SafetyIdentifier, StreamOptions,
    MaxOutputTokens, MaxCompletionTokens, Temperature, TopP, FrequencyPenalty, PresencePenalty]

  // ---- Reading fields -----------------------------------------------------------

  /** stringValue of a field: its trimmed text, or "" when it is not a string. */
  function StringAt(m: Fields, key: Key): string {
    if key in m && m[key].Str? then TrimSpace(m[key].text) else ""
  }

  function ObjectAt(m: Fields, key: Key): Option<Fields> {
    if key in m && m[key].Obj? then Some(m[key].fields) else None
  }

  function ListAt(m: Fields, key: Key): Option<seq<Json>> {
    if key in m && m[key].Arr? then Some(m[key].items) else None
  }

  function NestedName(m: Fields): string {
    if ObjectAt(m, Function).Some? then StringAt(ObjectAt(m, Function).value, Name) else ""
  }

  // ---- The stages ---------------------------------------------------------------

  function WithFixed(f: Fields): Fields {
    f[Model := Str(MODEL)][Stream := Bool(true)][Store := Bool(false)] - set k | k in UNSUPPORTED
  }

  function WithInstructions(f: Fields): Fields {
    if StringAt(f, Instructions) == "" then f[Instructions := Str(DEFAULT_INSTRUCTIONS)] else f
  }

  function WithInclude(f: Fields): Fields {
    var reasoning := ObjectAt(f, Reasoning);
    if reasoning.None? || reasoning.value == map[] then f
    else
      match ListAt(f, Include)
      case None => f[Include := Arr([REASONING_INCLUDE])]
      case Some(items) => if REASONING_INCLUDE in items then f else f[Include := Arr(items + [REASONING_INCLUDE])]
  }

  function FunctionChoice(name: string): Json {
    Obj(map[Type := Str(FUNCTION), Name := Str(name)])
  }

  function Wrapped(functions: seq<Json>): seq<Json> {
    seq(|functions|, i requires 0 <= i < |functions| => Obj(map[Type := Str(FUNCTION), Function := functions[i]]))
  }

  function WithoutFunctions(f: Fields): Fields {
    if Functions !in f then f
    else if f[Functions].Arr? then f[Tools := Arr(Wrapped(f[Functions].items))] - {Functions}
    else f - {Functions}
  }

  function WithoutFunctionCall(f: Fields): Fields {
    if FunctionCall !in f then f
    else
      match f[FunctionCall]
      case Str(choice) => f[ToolChoice := Str(choice)] - {FunctionCall}
      case Obj(choice) =>
        if StringAt(choice, Name) != "" then f[ToolChoice := FunctionChoice(StringAt(choice, Name))] - {FunctionCall}
        else f - {FunctionCall}
      case _ => f - {FunctionCall}
  }

  function Copied(tool: Fields, nested: Fields, key: Key): Fields {
    if key !in tool && key in nested then tool[key := nested[key]] else tool
  }

  function Filled(tool: Fields, nested: Fields): Fields {
    Copied(Copied(Copied(Copied(tool, nested, Name), nested, Description), nested, Parameters), nested, Strict)
  }

  /** A function tool without a name takes its nested function's, or is dropped. */
  function NormalTool(tool: Fields): Option<Fields> {
    if StringAt(tool, Type) != FUNCTION then Some(tool)
    else if StringAt(tool, Name) != "" then Some(tool - {Function})
    else if NestedName(tool) == "" then None
    else Some(Filled(tool, tool[Function].fields) - {Function})
  }

  function NormalTools(tools: seq<Json>): seq<Json> {
    if tools == [] then []
    else NormalTools(tools[..|tools| - 1]) + KeptTool(tools[|tools| - 1])
  }

  function KeptTool(tool: Json): seq<Json> {
    if !tool.Obj? then [tool]
    else
      match NormalTool(tool.fields)
      case None => []
      case Some(fields) => [Obj(fields)]
  }

  function WithTools(f: Fields): Fields {
    match ListAt(f, Tools)
    case None => f
    case Some(tools) => f[Tools := Arr(NormalTools(tools))]
  }

  predicate ContainsFunction(f: Fields, name: string) {
    var tools := ListAt(f, Tools);
    tools.Some? && exists i | 0 <= i < |tools.value| :: IsFunctionTool(tools.value[i], name)
  }

  predicate IsFunctionTool(tool: Json, name: string) {
    tool.Obj? && StringAt(tool.fields, Type) == FUNCTION && StringAt(tool.fields, Name) == name
  }

  predicate ContainsType(f: Fields, kind: string) {
    var tools := ListAt(f, Tools);
    tools.Some? && exists i | 0 <= i < |tools.value| :: HasType(tools.value[i], kind)
  }

  predicate HasType(tool: Json, kind: string) {
    tool.Obj? && StringAt(tool.fields, Type) == kind
  }

  function ChosenName(choice: Fields): string {
    NonEmpty(StringAt(choice, Name), NestedName(choice))
  }

  /** A choice that names no tool of the request becomes "auto". */
  function WithToolChoice(f: Fields): Fields {
    var choice := ObjectAt(f, ToolChoice);
    if choice.None? || StringAt(choice.value, Type) == "" then f
    else if StringAt(choice.value, Type) == FUNCTION then
      var name := ChosenName(choice.value);
      if name == "" || !ContainsFunction(f, name) then f[ToolChoice := AUTO]
      else f[ToolChoice := FunctionChoice(name)]
    else if !ContainsType(f, StringAt(choice.value, Type)) then f[ToolChoice := AUTO]
    else f
  }

  predicate IsToolCallItem(kind: string) {
    || kind == "function_call" || kind == "tool_call" || kind == "local_shell_call"
    || kind == "tool_search_call" || kind == "custom_tool_call" || kind == "mcp_tool_call"
    || kind == "function_call_output" || kind == "mcp_tool_call_output"
    || kind == "custom_tool_call_output" || kind == "tool_search_output"
  }

  predicate RequiresToolName(kind: string) {
    kind == "function_call" || kind == "custom_tool_call" || kind == "mcp_tool_call"
  }

  function Compact(hash: string -> Digest, id: string): string {
    if ByteLen(id) <= CALL_ID_MAX_LENGTH then id
    else "fc_" + hash("sub2api:codex-call-id:v1:" + id)[..61]
  }

  function WithSummary(kind: string, item: Fields): Fields {
    if kind != REASONING then item
    else
      var bare := item - {Id};
      if Summary !in bare || bare[Summary] == Null then bare[Summary := Arr([])] else bare
  }

  function CallIdOf(item: Fields): string {
    NonEmpty(StringAt(item, CallId), StringAt(item, Id))
  }

  function WithCallId(hash: string -> Digest, kind: string, item: Fields): Fields {
    if !IsToolCallItem(kind) then item - {CallId}
    else if CallIdOf(item) != "" then item[CallId := Str(Compact(hash, CallIdOf(item)))]
    else item
  }

  function ToolNameOf(item: Fields): string {
    NonEmpty(NonEmpty(StringAt(item, ToolName), NestedName(item)), "tool")
  }

  function WithName(kind: string, item: Fields): Fields {
    if RequiresToolName(kind) && StringAt(item, Name) == "" then item[Name := Str(ToolNameOf(item))] else item
  }

  function NormalItem(hash: string -> Digest, item: Fields): Fields {
    var kind := StringAt(item, Type);
    WithName(kind, WithCallId(hash, kind, WithSummary(kind, item)))
  }

  function NormalItems(hash: string -> Digest, items: seq<Json>): seq<Json> {
    seq(|items|, i requires 0 <= i < |items| =>
      if items[i].Obj? then Obj(NormalItem(hash, items[i].fields)) else items[i])
  }

  function UserMessage(text: string): Json {
    Obj(map[Type := Str("message"), Role := Str("user"), Content := Str(text)])
  }

  function NormalInput(hash: string -> Digest, input: Json): Json {
    match input
    case Str(text) => if IsBlank(text) then Arr([]) else Arr([UserMessage(text)])
    case Arr(items) => Arr(NormalItems(hash, items))
    case Null => Arr([])
    case _ => input
  }

  function WithInput(hash: string -> Digest, f: Fields): Fields {
    f[Input := NormalInput(hash, if Input in f then f[Input] else Null)]
  }

  /** The request before its tools are looked at. */
  function Prepared(f: Fields): Fields {
    WithoutFunctionCall(WithoutFunctions(WithInclude(WithInstructions(WithFixed(f)))))
  }

  function Normal(hash: string -> Digest, f: Fields): Fields {
    WithInput(hash, WithToolChoice(WithTools(Prepared(f))))
  }

  // ---- The body -----------------------------------------------------------------

  /** What decoding a body gives: nothing, or its first value and what follows it. */
  datatype Body = Undecodable | Decoded(value: Json, trailing: Trailing)

  /** What is left of the body after its first value. */
  datatype Trailing = Nothing | AnotherValue | NotJson

  datatype TransformError = DecodeFailed | NotAnObject | MultipleValues | TrailingNotDecoded

  function Transformed(hash: string -> Digest, body: Body): Result<Json, TransformError> {
    if body.Undecodable? || (!body.value.Null? && !body.value.Obj?) then Err(DecodeFailed)
    else if body.value.Null? then Err(NotAnObject)
    else if body.trailing.AnotherValue? then Err(MultipleValues)
    else if body.trailing.NotJson? then Err(TrailingNotDecoded)
    else Ok(Obj(Normal(hash, body.value.fields)))
  }

  // ---- The program: stages that change one request object --------------------------

  class Request {
    var fields: Fields

    constructor (fields: Fields)
      ensures this.fields == fields
    {
      this.fields := fields;
    }

    method SetFixedFields()
      modifies this
      ensures fields == WithFixed(old(fields))
    {
      fields := fields[Model := Str(MODEL)];
      fields := fields[Stream := Bool(true)];
      fields := fields[Store := Bool(false)];
      ghost var all := fields;
      for i := 0 to |UNSUPPORTED|
        invariant fields == all - set k | k in UNSUPPORTED[..i]
      {
        assert UNSUPPORTED[..i + 1] == UNSUPPORTED[..i] + [UNSUPPORTED[i]];
        fields := fields - {UNSUPPORTED[i]};
      }
      assert UNSUPPORTED[..|UNSUPPORTED|] == UNSUPPORTED;
    }

    method NormalizeInstructions()
      modifies this
      ensures fields == WithInstructions(old(fields))
    {
      if StringAt(fields, Instructions) == "" {
        fields := fields[Instructions := Str(DEFAULT_INSTRUCTIONS)];
      }
    }

    method EnsureReasoningInclude()
      modifies this
      ensures fields == WithInclude(old(fields))
    {
      var reasoning := ObjectAt(fields, Reasoning);
      if reasoning.None? || |reasoning.value| == 0 {
        return;
      }
      var include_ := ListAt(fields, Include);
      if include_.None? {
        fields := fields[Include := Arr([REASONING_INCLUDE])];
        return;
      }
      var items := include_.value;
      for i := 0 to |items|
        invariant REASONING_INCLUDE !in items[..i]
        invariant fields == old(fields)
      {
        if items[i] == REASONING_INCLUDE {
          return;
        }
        assert items[..i + 1] == items[..i] + [items[i]];
      }
      assert items[..|items|] == items;
      fields := fields[Include := Arr(items + [REASONING_INCLUDE])];
    }

    method NormalizeLegacyFunctions()
      modifies this
      ensures fields == WithoutFunctionCall(WithoutFunctions(old(fields)))
    {
      if Functions in fields {
        if fields[Functions].Arr? {
          var tools := WrapFunctions(fields[Functions].items);
          fields := fields[Tools := Arr(tools)];
        }
        fields := fields - {Functions};
      }
      if FunctionCall in fields {
        match fields[FunctionCall] {
          case Str(choice) => fields := fields[ToolChoice := Str(choice)];
          case Obj(choice) =>
            var name := StringAt(choice, Name);
            if name != "" {
              fields := fields[ToolChoice := FunctionChoice(name)];
            }
          case _ =>
        }
        fields := fields - {FunctionCall};
      }
    }

    method NormalizeTools()
      modifies this
      ensures fields == WithTools(old(fields))
    {
      var tools := ListAt(fields, Tools);
      if tools.None? {
        return;
      }
      var list := tools.value;
      var normalized: seq<Json> := [];
      for i := 0 to |list|
        invariant normalized == NormalTools(list[..i])
        invariant fields == old(fields)
      {
        assert list[..i + 1][..i] == list[..i];
        var kept := NormalizeTool(list[i]);
        normalized := normalized + kept;
      }
      assert list[..|list|] == list;
      fields := fields[Tools := Arr(normalized)];
    }

    method NormalizeToolChoice()
      modifies this
      ensures fields == WithToolChoice(old(fields))
    {
      var choice := ObjectAt(fields, ToolChoice);
      if choice.None? {
        return;
      }
      var choiceType := StringAt(choice.value, Type);
      if choiceType == "" {
        return;
      }
      if choiceType == FUNCTION {
        var name := StringAt(choice.value, Name);
        if name == "" {
          name := NestedName(choice.value);
        }
        if name == "" || !ContainsFunction(fields, name) {
          fields := fields[ToolChoice := AUTO];
          return;
        }
        fields := fields[ToolChoice := FunctionChoice(name)];
        return;
      }
      if !ContainsType(fields, choiceType) {
        fields := fields[ToolChoice := AUTO];
      }
    }

    method NormalizeInput(hash: string -> Digest)
      modifies this
      ensures fields == WithInput(hash, old(fields))
    {
      if Input !in fields || fields[Input].Null? {
        fields := fields[Input := Arr([])];
        return;
      }
      var raw := fields[Input];
      assert fields == fields[Input := raw];
      match raw {
        case Str(text) =>
          fields := fields[Input := if IsBlank(text) then Arr([]) else Arr([UserMessage(text)])];
        case Arr(input) =>
          var items := input;
          for index := 0 to |input|
            invariant |items| == |input| && fields == old(fields)
            invariant items[..index] == NormalItems(hash, input)[..index] && items[index..] == input[index..]
          {
            if items[index].Obj? {
              var item := NormalizeItem(hash, items[index].fields);
              items := items[index := Obj(item)];
            }
          }
          assert items == items[..|input|] == NormalItems(hash, input)[..|input|] == NormalItems(hash, input);
          fields := fields[Input := Arr(items)];
        case _ =>
      }
    }
  }

  method WrapFunctions(functions: seq<Json>) returns (tools: seq<Json>)
    ensures tools == Wrapped(functions)
  {
    tools := [];
    for i := 0 to |functions|
      invariant tools == Wrapped(functions)[..i]
    {
      tools := tools + [Obj(map[Type := Str(FUNCTION), Function := functions[i]])];
    }
  }

  method NormalizeTool(rawTool: Json) returns (kept: seq<Json>)
    ensures kept == KeptTool(rawTool)
  {
    if !rawTool.Obj? {
      return [rawTool];
    }
    var tool := rawTool.fields;
    if StringAt(tool, Type) != FUNCTION {
      return [rawTool];
    }
    if StringAt(tool, Name) == "" {
      var nested := ObjectAt(tool, Function);
      if nested.None? || StringAt(nested.value, Name) == "" {
        return [];
      }
      tool := FillFromNested(tool, nested.value);
    }
    tool := tool - {Function};
    return [Obj(tool)];
  }

  method FillFromNested(tool: Fields, nested: Fields) returns (r: Fields)
    ensures r == Filled(tool, nested)
  {
    r := tool;
    var copied := [Name, Description, Parameters, Strict];
    for i := 0 to 4
      invariant r == CopiedFirst(tool, nested, copied, i)
    {
      if copied[i] !in r && copied[i] in nested {
        r := r[copied[i] := nested[copied[i]]];
      }
    }
    assert CopiedFirst(tool, nested, copied, 2) == Copied(Copied(tool, nested, Name), nested, Description);
  }

  ghost function CopiedFirst(tool: Fields, nested: Fields, keys: seq<Key>, i: nat): Fields
    requires i <= |keys|
  {
    if i == 0 then tool else Copied(CopiedFirst(tool, nested, keys, i - 1), nested, keys[i - 1])
  }

  method NormalizeItem(hash: string -> Digest, raw: Fields) returns (item: Fields)
    ensures item == NormalItem(hash, raw)
  {
    item := raw;
    var itemType := StringAt(item, Type);
    if itemType == REASONING {
      item := item - {Id};
      if Summary !in item || item[Summary] == Null {
        item := item[Summary := Arr([])];
      }
    }
    if IsToolCallItem(itemType) {
      var callId := StringAt(item, CallId);
      if callId == "" {
        callId := StringAt(item, Id);
      }
      if callId != "" {
        item := item[CallId := Str(Compact(hash, callId))];
      }
    } else {
      item := item - {CallId};
    }
    if RequiresToolName(itemType) && StringAt(item, Name) == "" {
      var name := StringAt(item, ToolName);
      if name == "" {
        name := NestedName(item);
      }
      if name == "" {
        name := "tool";
      }
      item := item[Name := Str(name)];
    }
  }

  /** The whole transformation, stage after stage on one request. */
  method TransformBody(hash: string -> Digest, body: Body) returns (r: Result<Json, TransformError>)
    ensures r == Transformed(hash, body)
  {
    if body.Undecodable? || (!body.value.Null? && !body.value.Obj?) {
      return Err(DecodeFailed);
    }
    if body.value.Null? {
      return Err(NotAnObject);
    }
    match body.trailing {
      case AnotherValue => return Err(MultipleValues);
      case NotJson => return Err(TrailingNotDecoded);
      case Nothing =>
    }
    var request := new Request(body.value.fields);
    request.SetFixedFields();
    request.NormalizeInstructions();
    request.EnsureReasoningInclude();
    request.NormalizeLegacyFunctions();
    request.NormalizeTools();
    request.NormalizeToolChoice();
    request.NormalizeInput(hash);
    return Ok(Obj(request.fields));
  }
}
