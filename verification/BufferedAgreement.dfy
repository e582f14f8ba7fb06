/** The accumulated response of a well-formed lifecycle converts to what the
    lifecycle means, and so the two pipelines agree. */
module BufferedAgreement {
  import opened Text
  import opened Protocol
  import opened Blocks
  import opened Accumulator
  import opened Lifecycle

  /** The stored item holds what the phase says. */
  predicate ItemIs(codec: Codec, p: Phase, item: OutputItem) {
    match p
    case Between => false
    case InReasoning(_, before, partText, part, signature) =>
      && item.kind.Reasoning? && item.encryptedContent == signature && |item.summary| == part + 1
      && (if part < 0 then before == "" && partText == ""
          else
            && item.summary[part] == SummaryPart(SummaryText, partText)
            && SummaryTextOf(item.summary[..part]) == before)
    case InMessage(_, texts, open, part) =>
      && item.kind.Message? && |item.content| == part + 1
      && (if open.None? then TextBlocksOf(item.content) == TextBlocks(texts)
          else part >= 0 && item.content[part] == ContentPart(OutputText, open.value)
               && TextBlocksOf(item.content[..part]) == TextBlocks(texts))
    case InFunction(_, id, name, arguments, finished) =>
      && item.kind.FunctionCall? && item.callId == id && item.name == name && item.arguments == arguments
      && (finished ==> GoodArguments(codec, arguments))
    case InCustom(_, id, name, input, _) =>
      item.kind.CustomToolCall? && item.callId == id && item.name == name && item.input == input
    case InOther(_) => item.kind.OtherItem?
  }

  /** Nothing but items and metadata has been collected. */
  predicate Collecting(a: Acc, m: Life) {
    && !a.terminal && a.err == None
    && a.response.output == [] && a.response.usage == None
    && a.response.error == None && a.response.incompleteReason == None
    && (a.response.status.NoStatus? || m.createdStatus)
  }

  ghost predicate BlocksAre(codec: Codec, items: map<int, OutputItem>, blocks: seq<ContentBlock>) {
    OutputBlocks(codec, SortedItems(items)) == Ok(blocks)
  }

  /** Finished items give the finished blocks; the current one, which has the
      largest index, holds its phase. */
  ghost predicate Holds(codec: Codec, items: map<int, OutputItem>, m: Life) {
    && (forall k | k in items :: m.last.Some? && k <= m.last.value)
    && (if m.phase.Between? then BlocksAre(codec, items, m.blocks)
        else
          && m.last == Some(m.phase.index) && m.phase.index in items
          && BlocksAre(codec, items - {m.phase.index}, m.blocks)
          && ItemIs(codec, m.phase, items[m.phase.index]))
  }

  ghost predicate Collects(codec: Codec, a: Acc, m: Life) {
    Collecting(a, m) && Holds(codec, a.items, m)
  }

  // ---- Items in index order ------------------------------------------------

  lemma LargestIs(keys: set<int>, index: int)
    requires index in keys && forall k | k in keys :: k <= index
    ensures Largest(keys) == index
  {
  }

  lemma LastItemLast(codec: Codec, items: map<int, OutputItem>, index: int, front: seq<ContentBlock>,
                     last: seq<ContentBlock>)
    requires index in items && forall k | k in items :: k <= index
    requires BlocksAre(codec, items - {index}, front)
    requires ItemBlocks(codec, items[index]) == Some(last)
    ensures BlocksAre(codec, items, front + last)
  {
    LargestIs(items.Keys, index);
    var sorted := SortedItems(items - {index});
    assert (sorted + [items[index]])[..|sorted|] == sorted;
  }

  /** An item that may be left converts to the blocks of its phase. */
  lemma LeftItemBlocks(codec: Codec, p: Phase, item: OutputItem)
    requires ItemIs(codec, p, item) && (CanLeave(p) || p.InMessage?)
    ensures ItemBlocks(codec, item) == Some(PhaseBlocks(codec, p))
  {
    match p {
      case InMessage(_, texts, open, part) =>
        if open.Some? {
          assert (texts + [open.value])[..|texts|] == texts;
        } else {
          assert texts + [] == texts;
        }
      case _ =>
    }
  }

  // ---- The events of each phase --------------------------------------------

  /** Padding adds no text. */
  lemma {:induction false} PadText(content: seq<ContentPart>, index: nat)
    requires |content| <= index
    ensures var r := PadContent(content, index);
            |r| == index + 1 && r[index] == ContentPart(OutputText, "")
                && TextBlocksOf(r[..index]) == TextBlocksOf(content)
    decreases index - |content|
  {
    var longer := content + [ContentPart(OutputText, "")];
    assert longer[..|content|] == content;
    if |content| < index {
      PadText(longer, index);
      assert TextBlocksOf(content) + [] == TextBlocksOf(content);
    } else {
      assert PadContent(longer, index) == longer;
    }
  }

  lemma {:induction false} PadThought(summary: seq<SummaryPart>, index: nat)
    requires |summary| <= index
    ensures var r := PadSummary(summary, index);
            |r| == index + 1 && r[index] == SummaryPart(SummaryText, "")
                && SummaryTextOf(r[..index]) == SummaryTextOf(summary)
    decreases index - |summary|
  {
    var longer := summary + [SummaryPart(SummaryText, "")];
    assert longer[..|summary|] == summary;
    if |summary| < index {
      PadThought(longer, index);
      assert SummaryTextOf(summary) + "" == SummaryTextOf(summary);
    } else {
      assert PadSummary(longer, index) == longer;
    }
  }

  /** The part an event of a message item writes to, before it is written. */
  lemma PartReached(codec: Codec, p: Phase, item: OutputItem, part: nat)
    requires ItemIs(codec, p, item) && p.InMessage?
    requires if p.open.Some? then part == p.part else part > p.part
    ensures var content := ContentWith(item.content, part);
            && |content| == part + 1
            && content[part] == ContentPart(OutputText, if p.open.Some? then p.open.value else "")
            && TextBlocksOf(content[..part]) == TextBlocks(p.texts)
  {
    if p.open.None? {
      PadText(item.content, part);
    }
  }

  lemma TextCollected(codec: Codec, p: Phase, item: OutputItem, part: int, delta: string, p': Phase)
    requires ItemIs(codec, p, item) && TextPhase(p, part, delta) == Some(p')
    ensures part >= 0 && ItemIs(codec, p', TextItem(item, part, delta, false))
  {
    PartReached(codec, p, item, part);
    var content := ContentWith(item.content, part);
    var written := TextItem(item, part, delta, false).content;
    assert written[..part] == content[..part];
    assert "" + delta == delta;
  }

  lemma TextDoneCollected(codec: Codec, p: Phase, item: OutputItem, part: int, text: string, p': Phase)
    requires ItemIs(codec, p, item) && TextDonePhase(p, part, text) == Some(p')
    ensures part >= 0 && ItemIs(codec, p', TextItem(item, part, text, true))
  {
    PartReached(codec, p, item, part);
    var content := ContentWith(item.content, part);
    var written := TextItem(item, part, text, true).content;
    assert written[..part] == content[..part];
    var last := written[part].text;
    assert p'.texts == p.texts + [last];
    assert (p.texts + [last])[..|p.texts|] == p.texts;
  }

  lemma ThoughtReached(codec: Codec, p: Phase, item: OutputItem, part: int, at: Phase)
    requires ItemIs(codec, p, item) && AtPart(p, part) == Some(at)
    ensures var summary := SummaryWith(item.summary, part);
            && ItemIs(codec, at, item.(summary := summary)) && at.part == part
  {
    if part > p.part {
      PadThought(item.summary, part);
      assert p.part < 0 ==> item.summary == [];
      assert p.part >= 0 ==> item.summary == item.summary[..p.part] + [item.summary[p.part]];
      assert "" + "" == "";
    }
  }

  lemma ThoughtWritten(codec: Codec, at: Phase, item: OutputItem, text: string)
    requires at.InReasoning? && at.part >= 0 && ItemIs(codec, at, item)
    ensures var part := item.summary[at.part];
            ItemIs(codec, at.(partText := text), item.(summary := item.summary[at.part := part.(text := text)]))
  {
    assert item.summary[at.part := item.summary[at.part].(text := text)][..at.part] == item.summary[..at.part];
  }

  lemma ReasoningCollected(codec: Codec, p: Phase, item: OutputItem, part: int, delta: string, p': Phase)
    requires ItemIs(codec, p, item) && ReasoningPhase(p, part, delta) == Some(p')
    ensures part >= 0 && ItemIs(codec, p', SummaryItem(item, part, delta, false))
  {
    var at := AtPart(p, part).value;
    ThoughtReached(codec, p, item, part, at);
    ThoughtWritten(codec, at, item.(summary := SummaryWith(item.summary, part)), at.partText + delta);
  }

  lemma ReasoningDoneCollected(codec: Codec, p: Phase, item: OutputItem, part: int, text: string, p': Phase)
    requires ItemIs(codec, p, item) && ReasoningDonePhase(p, part, text) == Some(p')
    ensures part >= 0 && ItemIs(codec, p', SummaryItem(item, part, text, true))
  {
    var at := AtPart(p, part).value;
    ThoughtReached(codec, p, item, part, at);
    ThoughtWritten(codec, at, item.(summary := SummaryWith(item.summary, part)), NonEmpty(text, at.partText));
  }

  lemma TextEventCollected(codec: Codec, p: Phase, item: OutputItem, e: StreamEvent, p': Phase)
    requires ItemIs(codec, p, item) && NextPhase(codec, p, e) == Some(p')
            && (e.kind.TextDeltaKind? || e.kind.TextDoneKind?)
    ensures !Panics(e) && ItemStep(Some(item), e).Some? && ItemIs(codec, p', ItemStep(Some(item), e).value)
  {
    if e.kind.TextDeltaKind? {
      TextCollected(codec, p, item, e.contentIndex, e.delta, p');
    } else {
      TextDoneCollected(codec, p, item, e.contentIndex, e.text, p');
    }
  }

  lemma ThoughtEventCollected(codec: Codec, p: Phase, item: OutputItem, e: StreamEvent, p': Phase)
    requires ItemIs(codec, p, item) && NextPhase(codec, p, e) == Some(p')
    requires IsReasoningDelta(e.kind) || IsReasoningDone(e.kind)
    ensures !Panics(e) && ItemStep(Some(item), e).Some? && ItemIs(codec, p', ItemStep(Some(item), e).value)
  {
    if IsReasoningDelta(e.kind) {
      ReasoningCollected(codec, p, item, e.summaryIndex, e.delta, p');
    } else {
      ReasoningDoneCollected(codec, p, item, e.summaryIndex, e.text, p');
    }
  }

  /** Every event of the current item leaves it holding the next phase. */
  lemma PhaseCollected(codec: Codec, p: Phase, item: OutputItem, e: StreamEvent, p': Phase)
    requires ItemIs(codec, p, item) && NextPhase(codec, p, e) == Some(p')
    ensures !Panics(e) && IsItemKind(e.kind)
    ensures ItemStep(Some(item), e).Some? && ItemIs(codec, p', ItemStep(Some(item), e).value)
  {
    if e.kind.TextDeltaKind? || e.kind.TextDoneKind? {
      TextEventCollected(codec, p, item, e, p');
    } else if IsReasoningDelta(e.kind) || IsReasoningDone(e.kind) {
      ThoughtEventCollected(codec, p, item, e, p');
    }
  }

  /** The done item converts to the blocks of the phase it ends. */
  lemma DoneItemBlocks(codec: Codec, p: Phase, item: OutputItem, done: OutputItem, p': Phase)
    requires ItemIs(codec, p, item) && ItemDonePhase(codec, p, done) == Some(p')
    ensures ItemBlocks(codec, Merge(Typed(Some(item), done.kind), done)) == Some(PhaseBlocks(codec, p'))
  {
    match p {
      case InReasoning(_, _, _, _, _) => DoneThoughtBlocks(codec, p, item, done, p');
      case InMessage(_, _, _, _) => LeftItemBlocks(codec, p, item);
      case _ =>
    }
  }

  lemma DoneThoughtBlocks(codec: Codec, p: Phase, item: OutputItem, done: OutputItem, p': Phase)
    requires ItemIs(codec, p, item) && ItemDonePhase(codec, p, done) == Some(p') && p.InReasoning?
    ensures ItemBlocks(codec, Merge(Typed(Some(item), done.kind), done)) == Some(PhaseBlocks(codec, p'))
  {
    if p.part >= 0 {
      assert item.summary == item.summary[..p.part] + [item.summary[p.part]];
    } else {
      assert item.summary == [];
    }
  }

  // ---- Every lifecycle ------------------------------------------------------

  lemma HoldsNext(codec: Codec, items: map<int, OutputItem>, m: Life, item: OutputItem, p: Phase)
    requires Holds(codec, items, m) && !m.phase.Between? && !p.Between? && p.index == m.phase.index
    requires ItemIs(codec, p, item)
    ensures Holds(codec, items[m.phase.index := item], m.(phase := p))
  {
    assert items[m.phase.index := item] - {m.phase.index} == items - {m.phase.index};
  }

  lemma HoldsSettled(codec: Codec, items: map<int, OutputItem>, m: Life, item: OutputItem, p: Phase)
    requires Holds(codec, items, m) && !m.phase.Between?
    requires ItemBlocks(codec, item) == Some(PhaseBlocks(codec, p))
    ensures Holds(codec, items[m.phase.index := item], m.(phase := Between, blocks := m.blocks + PhaseBlocks(codec, p)))
  {
    var updated := items[m.phase.index := item];
    assert updated - {m.phase.index} == items - {m.phase.index};
    LastItemLast(codec, updated, m.phase.index, m.blocks, PhaseBlocks(codec, p));
  }

  /** All blocks so far, once the current item may be left. */
  lemma AllCollected(codec: Codec, items: map<int, OutputItem>, m: Life)
    requires Holds(codec, items, m) && (CanLeave(m.phase) || m.phase.InMessage?)
    ensures BlocksAre(codec, items, AllBlocks(codec, m))
  {
    if m.phase.Between? {
      assert m.blocks + [] == m.blocks;
    } else {
      LeftItemBlocks(codec, m.phase, items[m.phase.index]);
      LastItemLast(codec, items, m.phase.index, m.blocks, PhaseBlocks(codec, m.phase));
    }
  }

  lemma AddedCollected(codec: Codec, items: map<int, OutputItem>, m: Life, index: int, item: OutputItem, p: Phase)
    requires Holds(codec, items, m) && CanLeave(m.phase) && BeginItem(index, item) == Some(p)
    requires m.last.None? || m.last.value < index
    ensures Holds(codec, items[index := item], m.(phase := p, last := Some(index), blocks := AllBlocks(codec, m)))
  {
    AllCollected(codec, items, m);
    BegunItem(codec, index, item, p);
    NewestHolds(codec, items, m, index, item, p, AllBlocks(codec, m));
  }

  lemma BegunItem(codec: Codec, index: int, item: OutputItem, p: Phase)
    requires BeginItem(index, item) == Some(p)
    ensures ItemIs(codec, p, item) && !p.Between? && p.index == index
  {
  }

  lemma NewestHolds(codec: Codec, items: map<int, OutputItem>, m: Life, index: int, item: OutputItem, p: Phase,
                    blocks: seq<ContentBlock>)
    requires forall k | k in items :: k < index
    requires BlocksAre(codec, items, blocks) && ItemIs(codec, p, item) && !p.Between? && p.index == index
    ensures Holds(codec, items[index := item], m.(phase := p, last := Some(index), blocks := blocks))
  {
    assert items[index := item] - {index} == items;
  }

  lemma StepOfItem(a: Acc, e: StreamEvent)
    requires !a.terminal && IsItemKind(e.kind) && !Panics(e)
    ensures Step(a, e).state == a.(items := Store(a.items, e.outputIndex, ItemStep(Find(a.items, e.outputIndex), e)))
  {
  }

  lemma ItemDoneCollects(codec: Codec, a: Acc, m: Life, e: StreamEvent, m': Life)
    requires Collects(codec, a, m) && Next(codec, m, e) == Some(m') && e.kind.ItemDone? && e.item.Some?
    ensures Collects(codec, Step(a, e).state, m')
  {
    var p := ItemDonePhase(codec, m.phase, e.item.value).value;
    var item := a.items[m.phase.index];
    DoneItemBlocks(codec, m.phase, item, e.item.value, p);
    HoldsSettled(codec, a.items, m, Merge(Typed(Some(item), e.item.value.kind), e.item.value), p);
    StepOfItem(a, e);
  }

  lemma PhaseCollects(codec: Codec, a: Acc, m: Life, e: StreamEvent, p: Phase)
    requires Collects(codec, a, m) && SameItem(m.phase, e.outputIndex) && NextPhase(codec, m.phase, e) == Some(p)
    ensures Collects(codec, Step(a, e).state, m.(phase := p))
  {
    var item := a.items[m.phase.index];
    PhaseCollected(codec, m.phase, item, e, p);
    PhaseIndex(codec, m.phase, e, p);
    HoldsNext(codec, a.items, m, ItemStep(Some(item), e).value, p);
    StepOfItem(a, e);
  }

  lemma PhaseIndex(codec: Codec, p: Phase, e: StreamEvent, p': Phase)
    requires NextPhase(codec, p, e) == Some(p')
    ensures !p.Between? && !p'.Between? && p'.index == p.index
  {
  }

  lemma ItemAddedCollects(codec: Codec, a: Acc, m: Life, e: StreamEvent, m': Life)
    requires Collects(codec, a, m) && Next(codec, m, e) == Some(m') && e.kind.ItemAdded? && e.item.Some?
    ensures Collects(codec, Step(a, e).state, m')
  {
    StepOfItem(a, e);
    AddedCollected(codec, a.items, m, e.outputIndex, e.item.value, m'.phase);
  }

  /** An item event without an item. */
  lemma NothingCollects(codec: Codec, a: Acc, m: Life, e: StreamEvent)
    requires Collects(codec, a, m) && (e.kind.ItemAdded? || e.kind.ItemDone?) && e.item.None?
    ensures Collects(codec, Step(a, e).state, m)
  {
    StepOfItem(a, e);
    NothingStored(a.items, e.outputIndex);
  }

  lemma NextCollects(codec: Codec, a: Acc, m: Life, e: StreamEvent, m': Life)
    requires Collects(codec, a, m) && Next(codec, m, e) == Some(m')
    ensures Collects(codec, Step(a, e).state, m')
  {
    match e.kind {
      case OtherKind(_) => NothingStored(a.items, e.outputIndex);
      case CreatedKind =>
      case ItemAdded =>
        if e.item.Some? {
          ItemAddedCollects(codec, a, m, e, m');
        } else {
          NothingCollects(codec, a, m, e);
        }
      case ItemDone =>
        if e.item.Some? {
          ItemDoneCollects(codec, a, m, e, m');
        } else {
          NothingCollects(codec, a, m, e);
        }
      case _ => PhaseCollects(codec, a, m, e, m'.phase);
    }
  }

  lemma {:induction false} LifecycleCollects(codec: Codec, es: seq<StreamEvent>, m: Life)
    requires After(codec, es) == Some(m)
    ensures Collects(codec, Run(EMPTY_ACC, es), m)
  {
    if es != [] {
      var n := |es| - 1;
      var before := After(codec, es[..n]).value;
      LifecycleCollects(codec, es[..n], before);
      NextCollects(codec, Run(EMPTY_ACC, es[..n]), before, es[n], m);
    }
  }

  /** The buffered side of a whole lifecycle: the accumulator always ends with a
      response, and converting it gives what the lifecycle means. */
  lemma LifecycleBuffered(codec: Codec, model: string, es: seq<StreamEvent>, m: Life, e: StreamEvent)
    requires After(codec, es) == Some(m) && Ends(codec, m, e)
    ensures var final := Final(Run(EMPTY_ACC, es + [e]));
            final.Ok? && ConvertsTo(ToAnthropic(codec, Some(final.value), model), Meaning(codec, m, e), e)
  {
    var a := Run(EMPTY_ACC, es);
    assert (es + [e])[..|es|] == es;
    LifecycleCollects(codec, es, m);
    CompletedMeans(codec, a, m, e);
  }

  predicate ConvertsTo(buffered: Result<MessageResponse, Error>, meaning: Result<seq<ContentBlock>, Error>,
      e: StreamEvent) {
    match meaning
    case Err(err) => buffered == Err(err)
    case Ok(content) =>
      && buffered.Ok?
      && buffered.value.content == (if content == [] then [TextBlock("")] else content)
      && buffered.value.stopReason == Some(StopReasonFor(FinalStatus(e), FinalReason(e), HasTool(content)))
      && buffered.value.usage == ConvertUsage(FinalUsage(e))
  }

  lemma CompletedMeans(codec: Codec, a: Acc, m: Life, e: StreamEvent)
    requires Collects(codec, a, m) && Ends(codec, m, e)
    ensures var r := CompletedResponse(a, e);
            && OutputBlocks(codec, r.output) == Meaning(codec, m, e)
            && r.status == FinalStatus(e) && !r.status.Failed? && r.error == None
            && r.incompleteReason == FinalReason(e) && r.usage == FinalUsage(e)
  {
    AllCollected(codec, a.items, m);
  }
}
