/** The accumulator: it rebuilds the terminal response from its events, for a
    client that asked for no stream. */
module Accumulator {
  import opened Text
  import opened Protocol
  import opened Blocks

  datatype Acc = Acc(response: Response, items: map<int, OutputItem>, terminal: bool, err: Option<Error>)

  const EMPTY_ACC := Acc(EMPTY_RESPONSE, map[], false, None)

  datatype AccOutcome = AccOutcome(state: Acc, err: Option<Error>)

  predicate IsTextKind(kind: EventKind) {
    kind.TextDeltaKind? || kind.TextDoneKind?
  }

  /** The events that touch nothing but the item of their own output index. */
  predicate IsItemKind(kind: EventKind) {
    || kind.ItemAdded? || kind.ItemDone? || IsTextKind(kind)
    || kind.ArgumentsDelta? || kind.ArgumentsDone? || kind.CustomInputDelta? || kind.CustomInputDone?
    || IsReasoningDelta(kind) || IsReasoningDone(kind)
  }

  /** A negative part index makes the source index a slice out of range, which
      ends the run. */
  predicate Panics(e: StreamEvent) {
    || (IsTextKind(e.kind) && e.contentIndex < 0)
    || ((IsReasoningDelta(e.kind) || IsReasoningDone(e.kind)) && e.summaryIndex < 0)
  }

  // ---- One item ------------------------------------------------------------

  function Typed(current: Option<OutputItem>, kind: ItemKind): OutputItem {
    if current.None? then EMPTY_ITEM.(kind := kind)
    else if current.value.kind.Untyped? then current.value.(kind := kind)
    else current.value
  }

  function PadContent(content: seq<ContentPart>, index: nat): (r: seq<ContentPart>)
    ensures index < |r|
    decreases index - |content|
  {
    if |content| <= index then PadContent(content + [ContentPart(OutputText, "")], index) else content
  }

  function ContentWith(content: seq<ContentPart>, index: nat): (r: seq<ContentPart>)
    ensures index < |r|
  {
    var padded := PadContent(content, index);
    if padded[index].kind.NoPartKind? then padded[index := padded[index].(kind := OutputText)] else padded
  }

  function PadSummary(summary: seq<SummaryPart>, index: nat): (r: seq<SummaryPart>)
    ensures index < |r|
    decreases index - |summary|
  {
    if |summary| <= index then PadSummary(summary + [SummaryPart(SummaryText, "")], index) else summary
  }

  function SummaryWith(summary: seq<SummaryPart>, index: nat): (r: seq<SummaryPart>)
    ensures index < |r|
  {
    var padded := PadSummary(summary, index);
    if padded[index].kind.NoSummaryKind? then padded[index := padded[index].(kind := SummaryText)] else padded
  }

  function CallMetadata(item: OutputItem, e: StreamEvent): OutputItem {
    item.(callId := NonEmpty(e.callId, item.callId), name := NonEmpty(e.name, item.name))
  }

  function Merge(current: OutputItem, done: OutputItem): OutputItem {
    OutputItem(
      if done.kind.Untyped? then current.kind else done.kind,
      NonEmpty(done.id, current.id), NonEmpty(done.role, current.role), NonEmpty(done.status, current.status),
      if done.content != [] then done.content else current.content,
      NonEmpty(done.encryptedContent, current.encryptedContent),
      if done.summary != [] then done.summary else current.summary,
      NonEmpty(done.callId, current.callId), NonEmpty(done.name, current.name),
      NonEmpty(done.arguments, current.arguments), NonEmpty(done.input, current.input))
  }

  /** What an item event makes of the item at its output index. */
  function ItemStep(current: Option<OutputItem>, e: StreamEvent): Option<OutputItem> {
    if Panics(e) then current else match e.kind
    case ItemAdded => if e.item.Some? then e.item else current
    case ItemDone =>
      if e.item.None? then current else Some(Merge(Typed(current, e.item.value.kind), e.item.value))
    case TextDeltaKind => Some(TextItem(Typed(current, Message), e.contentIndex, e.delta, false))
    case TextDoneKind => Some(TextItem(Typed(current, Message), e.contentIndex, e.text, true))
    case ArgumentsDelta =>
      var item := Typed(current, FunctionCall);
      Some(CallMetadata(item.(arguments := item.arguments + e.delta), e))
    case ArgumentsDone =>
      var item := Typed(current, FunctionCall);
      Some(CallMetadata(item.(arguments := NonEmpty(e.arguments, item.arguments)), e))
    case CustomInputDelta =>
      var item := Typed(current, CustomToolCall);
      Some(CallMetadata(item.(input := item.input + e.delta), e))
    case CustomInputDone =>
      var item := Typed(current, CustomToolCall);
      Some(CallMetadata(item.(input := NonEmpty(e.input, item.input)), e))
    case SummaryDelta => Some(SummaryItem(Typed(current, Reasoning), e.summaryIndex, e.delta, false))
    case ReasoningTextDelta => Some(SummaryItem(Typed(current, Reasoning), e.summaryIndex, e.delta, false))
    case SummaryDone => Some(SummaryItem(Typed(current, Reasoning), e.summaryIndex, e.text, true))
    case ReasoningTextDone => Some(SummaryItem(Typed(current, Reasoning), e.summaryIndex, e.text, true))
    case _ => current
  }

  /** A done text replaces what was collected; a delta extends it. */
  function Written(before: string, text: string, replace: bool): string {
    if replace then NonEmpty(text, before) else before + text
  }

  function TextItem(item: OutputItem, index: nat, text: string, replace: bool): OutputItem {
    var content := ContentWith(item.content, index);
    item.(content := content[index := content[index].(text := Written(content[index].text, text, replace))])
  }

  function SummaryItem(item: OutputItem, index: nat, text: string, replace: bool): OutputItem {
    var summary := SummaryWith(item.summary, index);
    item.(summary := summary[index := summary[index].(text := Written(summary[index].text, text, replace))])
  }

  // ---- The whole response --------------------------------------------------

  function Find(items: map<int, OutputItem>, index: int): Option<OutputItem> {
    if index in items then Some(items[index]) else None
  }

  function Store(items: map<int, OutputItem>, index: int, item: Option<OutputItem>): map<int, OutputItem> {
    if item.Some? then items[index := item.value] else items
  }

  function Capture(current: Response, response: Option<Response>, terminal: bool): Response {
    if response.None? then current
    else
      var r := response.value;
      Response(
        NonEmpty(r.id, current.id), NonEmpty(r.object_, current.object_), NonEmpty(r.model, current.model),
        if r.status.NoStatus? then current.status else r.status,
        if terminal && r.output != [] then r.output else current.output,
        if r.usage.Some? then r.usage else current.usage,
        if r.incompleteReason.Some? then r.incompleteReason else current.incompleteReason,
        if r.error.Some? then r.error else current.error)
  }

  function Fail(a: Acc, err: Error): AccOutcome {
    AccOutcome(a.(terminal := true, err := Some(err)), Some(err))
  }

  /** The response a terminal event completes. */
  ghost function CompletedResponse(a: Acc, e: StreamEvent): Response {
    var r := Capture(a.response, e.response, true);
    r.(status := if !r.status.NoStatus? then r.status else if e.kind.IncompleteKind? then Incomplete else Completed,
       usage := if r.usage.Some? then r.usage else e.usage,
       output := if r.output == [] then SortedItems(a.items) else r.output)
  }

  ghost function Step(a: Acc, e: StreamEvent): AccOutcome {
    if a.terminal then AccOutcome(a, a.err)
    else if e.kind.ErrorKind? then Fail(a, ErrorOf(e))
    else if e.kind.FailedKind? then Fail(a, FailureOf(e))
    else if e.kind.CreatedKind? then AccOutcome(a.(response := Capture(a.response, e.response, false)), None)
    else if IsTerminal(e.kind) then
      if ReportsFailure(e)
      then Fail(a, ResponseError(e.response.value.error))
      else AccOutcome(a.(response := CompletedResponse(a, e), terminal := true), None)
    else if Panics(e) then Fail(a, IndexOutOfRange)
    else AccOutcome(a.(items := Store(a.items, e.outputIndex, ItemStep(Find(a.items, e.outputIndex), e))), None)
  }

  ghost function Run(a: Acc, es: seq<StreamEvent>): Acc {
    if es == [] then a else Step(Run(a, es[..|es| - 1]), es[|es| - 1]).state
  }

  function Final(a: Acc): Result<Response, Error> {
    if a.err.Some? then Err(a.err.value)
    else if !a.terminal then Err(MissingTerminal)
    else Ok(a.response)
  }

  // ---- Output in index order -----------------------------------------------

  predicate Increasing(xs: seq<int>) {
    forall i, j | 0 <= i < j < |xs| :: xs[i] < xs[j]
  }

  lemma SomeKey(keys: set<int>)
    requires keys != {}
    ensures exists k :: k in keys
  {
    if forall k :: k !in keys {
      assert false;
    }
  }

  ghost function Largest(keys: set<int>): (m: int)
    requires keys != {}
    ensures m in keys && forall k | k in keys :: k <= m
  {
    SomeKey(keys);
    var k :| k in keys;
    if keys == {k} then k
    else
      var m := Largest(keys - {k});
      assert forall x | x in keys :: x == k || x in keys - {k};
      if m < k then k else m
  }

  ghost function SortedKeys(keys: set<int>): seq<int> {
    if keys == {} then [] else SortedKeys(keys - {Largest(keys)}) + [Largest(keys)]
  }

  ghost function SortedItems(items: map<int, OutputItem>): seq<OutputItem> {
    if items == map[] then []
    else
      var last := Largest(items.Keys);
      SortedItems(items - {last}) + [items[last]]
  }

  lemma {:induction false} SortedKeysSpec(keys: set<int>)
    ensures Increasing(SortedKeys(keys))
    ensures forall k :: k in keys <==> k in SortedKeys(keys)
  {
    if keys != {} {
      var m := Largest(keys);
      SortedKeysSpec(keys - {m});
      var front := SortedKeys(keys - {m});
      assert forall i | 0 <= i < |front| :: front[i] in front && front[i] in keys - {m};
    }
  }

  /** An increasing sequence is determined by its elements. */
  lemma {:induction false} IncreasingUnique(xs: seq<int>, keys: set<int>)
    requires Increasing(xs) && forall k :: k in keys <==> k in xs
    ensures xs == SortedKeys(keys)
    decreases |xs|
  {
    if xs == [] {
      assert keys == {};
    } else {
      var n := |xs| - 1;
      LastIsLargest(xs, keys);
      IncreasingUnique(xs[..n], keys - {xs[n]});
      LargestLast(xs, keys);
    }
  }

  lemma LargestLast(xs: seq<int>, keys: set<int>)
    requires xs != [] && keys != {} && Largest(keys) == xs[|xs| - 1]
    requires xs[..|xs| - 1] == SortedKeys(keys - {xs[|xs| - 1]})
    ensures xs == SortedKeys(keys)
  {
    assert xs == xs[..|xs| - 1] + [xs[|xs| - 1]];
  }

  lemma LastIsLargest(xs: seq<int>, keys: set<int>)
    requires xs != [] && Increasing(xs) && forall k :: k in keys <==> k in xs
    ensures keys != {} && Largest(keys) == xs[|xs| - 1]
    ensures forall k :: k in keys && k != xs[|xs| - 1] <==> k in xs[..|xs| - 1]
  {
    var n := |xs| - 1;
    assert xs[n] in xs;
    assert xs[n] in keys;
    assert Largest(keys) in xs;
    assert xs == xs[..n] + [xs[n]];
    assert xs[n] !in xs[..n];
  }

  lemma {:induction false} SortedItemsByKey(items: map<int, OutputItem>)
    ensures |SortedItems(items)| == |SortedKeys(items.Keys)|
    ensures forall i | 0 <= i < |SortedItems(items)| ::
              SortedKeys(items.Keys)[i] in items && SortedItems(items)[i] == items[SortedKeys(items.Keys)[i]]
    decreases |items|
  {
    if items != map[] {
      var last := Largest(items.Keys);
      assert (items - {last}).Keys == items.Keys - {last};
      assert |items - {last}| < |items|;
      SortedItemsByKey(items - {last});
    } else {
      assert items.Keys == {};
    }
  }

  // ---- The accumulator itself ----------------------------------------------

  class ResponseAccumulator {
    var response: Response
    var items: map<int, OutputItem>
    var terminal: bool
    var err: Option<Error>

    constructor ()
      ensures State() == EMPTY_ACC
    {
      response, items, terminal, err := EMPTY_RESPONSE, map[], false, None;
    }

    function State(): Acc
      reads this
    {
      Acc(response, items, terminal, err)
    }

    method Process(event: StreamEvent) returns (error: Option<Error>)
      modifies this
      ensures AccOutcome(State(), error) == Step(old(State()), event)
    {
      if terminal {
        return err;
      }
      match event.kind {
        case ErrorKind => error := RecordFailure(ErrorOf(event));
        case FailedKind => error := RecordFailure(FailureOf(event));
        case CreatedKind =>
          CaptureResponse(event.response, false);
          error := None;
        case CompletedKind => error := Complete(event);
        case DoneKind => error := Complete(event);
        case IncompleteKind => error := Complete(event);
        case _ =>
          if Panics(event) {
            error := RecordFailure(IndexOutOfRange);
          } else {
            error := None;
            ProcessItem(event);
          }
      }
    }

    method ProcessItem(event: StreamEvent)
      requires !Panics(event)
      modifies this`items
      ensures items == Store(old(items), event.outputIndex, ItemStep(Find(old(items), event.outputIndex), event))
    {
      var index := event.outputIndex;
      match event.kind {
        case ItemAdded =>
          if event.item.Some? {
            items := items[index := event.item.value];
          }
        case ItemDone =>
          if event.item.Some? {
            var current := Item(index, event.item.value.kind);
            var merged := MergeOutput(current, event.item.value);
            items := items[index := merged];
          }
        case TextDeltaKind => WriteContent(index, event.contentIndex, event.delta, false);
        case TextDoneKind => WriteContent(index, event.contentIndex, event.text, true);
        case ArgumentsDelta =>
          var item := Item(index, FunctionCall);
          item := CaptureCallMetadata(item.(arguments := item.arguments + event.delta), event);
          items := items[index := item];
        case ArgumentsDone =>
          var item := Item(index, FunctionCall);
          if event.arguments != "" {
            item := item.(arguments := event.arguments);
          }
          item := CaptureCallMetadata(item, event);
          items := items[index := item];
        case CustomInputDelta =>
          var item := Item(index, CustomToolCall);
          item := CaptureCallMetadata(item.(input := item.input + event.delta), event);
          items := items[index := item];
        case CustomInputDone =>
          var item := Item(index, CustomToolCall);
          if event.input != "" {
            item := item.(input := event.input);
          }
          item := CaptureCallMetadata(item, event);
          items := items[index := item];
        case SummaryDelta => WriteSummary(index, event.summaryIndex, event.delta, false);
        case ReasoningTextDelta => WriteSummary(index, event.summaryIndex, event.delta, false);
        case SummaryDone => WriteSummary(index, event.summaryIndex, event.text, true);
        case ReasoningTextDone => WriteSummary(index, event.summaryIndex, event.text, true);
        case _ => NothingStored(items, index);
      }
      NothingStored(old(items), index);
    }

    /** The item at an index, created or typed on first use. */
    method Item(index: int, kind: ItemKind) returns (item: OutputItem)
      modifies this`items
      ensures item == Typed(Find(old(items), index), kind) && items == old(items)[index := item]
    {
      if index !in items {
        items := items[index := EMPTY_ITEM.(kind := kind)];
      } else if items[index].kind.Untyped? {
        items := items[index := items[index].(kind := kind)];
      }
      item := items[index];
      assert items == old(items)[index := item];
    }

    method WriteContent(index: int, part: nat, text: string, replace: bool)
      modifies this`items
      ensures items == old(items)[index := TextItem(Typed(Find(old(items), index), Message), part, text, replace)]
    {
      var item := Item(index, Message);
      var content := EnsureContentPart(item.content, part);
      content := content[part := content[part].(text := Written(content[part].text, text, replace))];
      items := items[index := item.(content := content)];
    }

    method WriteSummary(index: int, part: nat, text: string, replace: bool)
      modifies this`items
      ensures items == old(items)[index := SummaryItem(Typed(Find(old(items), index), Reasoning), part, text, replace)]
    {
      var item := Item(index, Reasoning);
      var summary := EnsureSummaryPart(item.summary, part);
      summary := summary[part := summary[part].(text := Written(summary[part].text, text, replace))];
      items := items[index := item.(summary := summary)];
    }

    method CaptureResponse(captured: Option<Response>, terminal: bool)
      modifies this`response
      ensures response == Capture(old(response), captured, terminal)
    {
      if captured.None? {
        return;
      }
      var r := captured.value;
      CaptureNames(r);
      if r.usage.Some? {
        response := response.(usage := r.usage);
      }
      if r.incompleteReason.Some? {
        response := response.(incompleteReason := r.incompleteReason);
      }
      if r.error.Some? {
        response := response.(error := r.error);
      }
      if terminal && |r.output| > 0 {
        response := response.(output := r.output);
      }
    }

    /** The first half of CaptureResponse. */
    method CaptureNames(r: Response)
      modifies this`response
      ensures response == old(response).(
                id := NonEmpty(r.id, old(response).id), object_ := NonEmpty(r.object_, old(response).object_),
                model := NonEmpty(r.model, old(response).model),
                status := if r.status.NoStatus? then old(response).status else r.status)
    {
      if r.id != "" {
        response := response.(id := r.id);
      }
      if r.object_ != "" {
        response := response.(object_ := r.object_);
      }
      if r.model != "" {
        response := response.(model := r.model);
      }
      if !r.status.NoStatus? {
        response := response.(status := r.status);
      }
    }

    method RecordFailure(e: Error) returns (error: Option<Error>)
      modifies this`terminal, this`err
      ensures AccOutcome(State(), error) == Fail(old(State()), e)
    {
      terminal, err := true, Some(e);
      return err;
    }

    method Complete(event: StreamEvent) returns (error: Option<Error>)
      requires !terminal && IsTerminal(event.kind)
      modifies this
      ensures AccOutcome(State(), error) == Step(old(State()), event)
    {
      if ReportsFailure(event) {
        error := RecordFailure(ResponseError(event.response.value.error));
        return;
      }
      CaptureResponse(event.response, true);
      if response.status.NoStatus? {
        response := response.(status := if event.kind.IncompleteKind? then Incomplete else Completed);
      }
      if response.usage.None? {
        response := response.(usage := event.usage);
      }
      if response.output == [] {
        var output := SortedOutput();
        response := response.(output := output);
      }
      terminal := true;
      error := None;
    }

    /** The items in ascending index order. */
    method SortedOutput() returns (output: seq<OutputItem>)
      ensures output == SortedItems(items)
    {
      var indices := SortIndices(items.Keys);
      SortedKeysSpec(items.Keys);
      SortedItemsByKey(items);
      output := ItemsAt(items, indices, SortedItems(items));
    }

    method Finalize() returns (result: Result<Response, Error>)
      ensures result == Final(State())
    {
      if err.Some? {
        return Err(err.value);
      }
      if !terminal {
        return Err(MissingTerminal);
      }
      return Ok(response);
    }
  }

  method CaptureCallMetadata(current: OutputItem, event: StreamEvent) returns (item: OutputItem)
    ensures item == CallMetadata(current, event)
  {
    item := current;
    if event.callId != "" {
      item := item.(callId := event.callId);
    }
    if event.name != "" {
      item := item.(name := event.name);
    }
  }

  method MergeOutput(current: OutputItem, done: OutputItem) returns (item: OutputItem)
    ensures item == Merge(current, done)
  {
    item := current;
    if !done.kind.Untyped? {
      item := item.(kind := done.kind);
    }
    if done.id != "" {
      item := item.(id := done.id);
    }
    if done.role != "" {
      item := item.(role := done.role);
    }
    if done.status != "" {
      item := item.(status := done.status);
    }
    assert item == current.(
      kind := if done.kind.Untyped? then current.kind else done.kind,
      id := NonEmpty(done.id, current.id), role := NonEmpty(done.role, current.role),
      status := NonEmpty(done.status, current.status));
    item := MergeContents(item, done);
  }

  /** The second half of MergeOutput. */
  method MergeContents(current: OutputItem, done: OutputItem) returns (item: OutputItem)
    ensures item == current.(
              content := if done.content != [] then done.content else current.content,
              encryptedContent := NonEmpty(done.encryptedContent, current.encryptedContent),
              summary := if done.summary != [] then done.summary else current.summary,
              callId := NonEmpty(done.callId, current.callId), name := NonEmpty(done.name, current.name),
              arguments := NonEmpty(done.arguments, current.arguments), input := NonEmpty(done.input, current.input))
  {
    item := current;
    if |done.content| > 0 {
      item := item.(content := done.content);
    }
    if done.encryptedContent != "" {
      item := item.(encryptedContent := done.encryptedContent);
    }
    if |done.summary| > 0 {
      item := item.(summary := done.summary);
    }
    assert item == current.(
      content := if done.content != [] then done.content else current.content,
      encryptedContent := NonEmpty(done.encryptedContent, current.encryptedContent),
      summary := if done.summary != [] then done.summary else current.summary);
    if done.callId != "" {
      item := item.(callId := done.callId);
    }
    if done.name != "" {
      item := item.(name := done.name);
    }
    if done.arguments != "" {
      item := item.(arguments := done.arguments);
    }
    if done.input != "" {
      item := item.(input := done.input);
    }
  }

  lemma NothingStored(items: map<int, OutputItem>, index: int)
    ensures Store(items, index, Find(items, index)) == items
  {
    assert index in items ==> items[index := items[index]] == items;
  }

  method EnsureContentPart(content: seq<ContentPart>, index: nat) returns (r: seq<ContentPart>)
    ensures r == ContentWith(content, index)
  {
    r := content;
    while |r| <= index
      invariant PadContent(r, index) == PadContent(content, index)
      decreases index - |r|
    {
      r := r + [ContentPart(OutputText, "")];
    }
    if r[index].kind.NoPartKind? {
      r := r[index := r[index].(kind := OutputText)];
    }
  }

  method EnsureSummaryPart(summary: seq<SummaryPart>, index: nat) returns (r: seq<SummaryPart>)
    ensures r == SummaryWith(summary, index)
  {
    r := summary;
    while |r| <= index
      invariant PadSummary(r, index) == PadSummary(summary, index)
      decreases index - |r|
    {
      r := r + [SummaryPart(SummaryText, "")];
    }
    if r[index].kind.NoSummaryKind? {
      r := r[index := r[index].(kind := SummaryText)];
    }
  }

  /** The keys of a map come in no fixed order and are put in ascending order. */
  method ItemsAt(items: map<int, OutputItem>, indices: seq<int>, ghost sorted: seq<OutputItem>)
    returns (output: seq<OutputItem>)
    requires |sorted| == |indices|
    requires forall i | 0 <= i < |indices| :: indices[i] in items && sorted[i] == items[indices[i]]
    ensures output == sorted
  {
    output := [];
    for i := 0 to |indices|
      invariant output == sorted[..i]
    {
      output := output + [items[indices[i]]];
    }
  }

  method SortIndices(keys: set<int>) returns (indices: seq<int>)
    ensures indices == SortedKeys(keys)
  {
    indices := [];
    var rest := keys;
    while rest != {}
      invariant rest <= keys && Increasing(indices)
      invariant forall k :: k in indices <==> k in keys - rest
    {
      SomeKey(rest);
      var k :| k in rest;
      rest := rest - {k};
      indices := Insert(indices, k);
    }
    IncreasingUnique(indices, keys);
  }

  method Insert(xs: seq<int>, x: int) returns (r: seq<int>)
    requires Increasing(xs) && x !in xs
    ensures Increasing(r) && forall k :: k in r <==> k == x || k in xs
  {
    var i := |xs|;
    while i > 0 && x < xs[i - 1]
      invariant 0 <= i <= |xs|
      invariant forall j | i <= j < |xs| :: x < xs[j]
    {
      i := i - 1;
    }
    assert i > 0 ==> xs[i - 1] < x;
    r := xs[..i] + ([x] + xs[i..]);
    InsertedIncreasing(xs, i, x);
    InsertedMembers(xs, i, x);
  }

  lemma InsertedIncreasing(xs: seq<int>, i: nat, x: int)
    requires Increasing(xs) && i <= |xs|
    requires i > 0 ==> xs[i - 1] < x
    requires i < |xs| ==> x < xs[i]
    ensures Increasing(xs[..i] + ([x] + xs[i..]))
  {
    var r := xs[..i] + ([x] + xs[i..]);
    forall a, b | 0 <= a < b < |r| ensures r[a] < r[b] {
      assert r[a] == if a < i then xs[a] else if a == i then x else xs[a - 1];
      assert r[b] == if b < i then xs[b] else if b == i then x else xs[b - 1];
    }
  }

  lemma InsertedMembers(xs: seq<int>, i: nat, x: int)
    requires i <= |xs|
    ensures forall k :: k in xs[..i] + ([x] + xs[i..]) <==> k == x || k in xs
  {
    assert xs == xs[..i] + xs[i..];
  }
}
