/** An Anthropic streaming client. It reassembles the message from the event
    stream and breaks on the first event that is out of order, so it is at once
    the meaning of an event stream and a recogniser of its grammar. */
module Client {
  import opened Text
  import opened Protocol

  /** A content block that is still being received. */
  datatype Partial =
    | PartialText(text: string)
    | PartialThinking(thinking: string, signature: Option<string>)
    | PartialTool(id: string, name: string, json: string)

  datatype Client =
    | Waiting
    | Streaming(message: MessageResponse, done: seq<ContentBlock>, open: Option<Partial>)
    | Ended(
        message: MessageResponse, content: seq<ContentBlock>, stopReason: StopReason, usage: TokenCount, stopped: bool)
    | Broken

  predicate IsComplete(c: Client) {
    c.Ended? && c.stopped
  }

  /** Blocks start empty; their content comes in deltas. */
  function Begin(start: ContentBlock): Option<Partial> {
    match start
    case TextBlock(text) => if text == "" then Some(PartialText("")) else None
    case ThinkingBlock(thinking, signature) =>
      if thinking == "" && signature == "" then Some(PartialThinking("", None)) else None
    case ToolUseBlock(id, name, input) => if input == "{}" then Some(PartialTool(id, name, "")) else None
  }

  /** A delta must be of the block's own kind, and a signature closes a thinking block. */
  function Extend(p: Partial, d: Delta): Option<Partial> {
    match (p, d)
    case (PartialText(text), TextDelta(more)) => Some(PartialText(text + more))
    case (PartialThinking(thinking, None), ThinkingDelta(more)) => Some(PartialThinking(thinking + more, None))
    case (PartialThinking(thinking, None), SignatureDelta(signature)) =>
      Some(PartialThinking(thinking, Some(signature)))
    case (PartialTool(id, name, json), InputJsonDelta(more)) => Some(PartialTool(id, name, json + more))
    case _ => None
  }

  function Finish(p: Partial): ContentBlock {
    match p
    case PartialText(text) => TextBlock(text)
    case PartialThinking(thinking, signature) =>
      ThinkingBlock(thinking, if signature.Some? then signature.value else "")
    case PartialTool(id, name, json) => ToolUseBlock(id, name, if json == "" then "{}" else json)
  }

  function Consume(c: Client, e: ClientEvent): Client {
    match c
    case Waiting =>
      if e.MessageStart? && e.message.content == [] && e.message.stopReason == None && e.message.usage == NO_TOKENS
      then Streaming(e.message, [], None) else Broken
    case Streaming(message, done, None) => (
      match e
      case BlockStart(index, block) =>
        if index == |done| && Begin(block).Some? then c.(open := Begin(block)) else Broken
      case MessageDelta(stopReason, usage) => Ended(message, done, stopReason, usage, false)
      case _ => Broken)
    case Streaming(message, done, Some(partial)) => (
      match e
      case BlockDelta(index, delta) =>
        if index == |done| && Extend(partial, delta).Some? then c.(open := Extend(partial, delta)) else Broken
      case BlockStop(index) =>
        if index == |done| then Streaming(message, done + [Finish(partial)], None) else Broken
      case _ => Broken)
    case Ended(_, _, _, _, false) => if e.MessageStop? then c.(stopped := true) else Broken
    case _ => Broken
  }

  function ConsumeAll(c: Client, events: seq<ClientEvent>): Client {
    if events == [] then c
    else Consume(ConsumeAll(c, events[..|events| - 1]), events[|events| - 1])
  }

  lemma {:induction false} ConsumeAllConcat(c: Client, a: seq<ClientEvent>, b: seq<ClientEvent>)
    ensures ConsumeAll(c, a + b) == ConsumeAll(ConsumeAll(c, a), b)
  {
    if b == [] {
      assert a + b == a;
    } else {
      ConsumeAllConcat(c, a, b[..|b| - 1]);
      assert (a + b)[..|a + b| - 1] == a + b[..|b| - 1];
    }
  }

  lemma ConsumeOne(c: Client, e: ClientEvent)
    ensures ConsumeAll(c, [e]) == Consume(c, e)
  {
    assert [e][..0] == [];
  }

  lemma ConsumeNone(c: Client)
    ensures ConsumeAll(c, []) == c
  {
  }

  lemma ConsumeAppend(c: Client, events: seq<ClientEvent>, e: ClientEvent)
    ensures ConsumeAll(c, events + [e]) == Consume(ConsumeAll(c, events), e)
  {
    assert (events + [e])[..|events|] == events;
  }

  lemma ConsumeTwo(c: Client, e: ClientEvent, f: ClientEvent)
    ensures ConsumeAll(c, [e, f]) == Consume(Consume(c, e), f)
  {
    assert [e, f] == [e] + [f];
    ConsumeOne(c, e);
    ConsumeAppend(c, [e], f);
  }

  // ---- The grammar, stated on its own --------------------------------------

  /** A whole message on the wire. */
  datatype Sentence = Sentence(message: MessageResponse, blocks: seq<Trace>, stopReason: StopReason, usage: TokenCount)

  predicate EmptyStart(b: ContentBlock) {
    match b
    case TextBlock(text) => text == ""
    case ThinkingBlock(thinking, signature) => thinking == "" && signature == ""
    case ToolUseBlock(_, _, input) => input == "{}"
  }

  /** A delta fits its block; a signature may only be the last one. */
  predicate Fits(t: Trace, i: nat)
    requires i < |t.deltas|
  {
    match t.start
    case TextBlock(_) => t.deltas[i].TextDelta?
    case ThinkingBlock(_, _) => t.deltas[i].ThinkingDelta? || (t.deltas[i].SignatureDelta? && i == |t.deltas| - 1)
    case ToolUseBlock(_, _, _) => t.deltas[i].InputJsonDelta?
  }

  predicate LegalTrace(t: Trace) {
    EmptyStart(t.start) && forall i | 0 <= i < |t.deltas| :: Fits(t, i)
  }

  predicate LegalSentence(s: Sentence) {
    && s.message.content == [] && s.message.stopReason == None && s.message.usage == NO_TOKENS
    && forall i | 0 <= i < |s.blocks| :: LegalTrace(s.blocks[i])
  }

  function SentenceEvents(s: Sentence): seq<ClientEvent> {
    [MessageStart(s.message)] + TraceEvents(0, s.blocks) + [MessageDelta(s.stopReason, s.usage), MessageStop]
  }

  /** What the deltas of a block add up to. */
  function Received(t: Trace): Option<Partial>
    decreases |t.deltas|
  {
    if t.deltas == [] then Begin(t.start)
    else
      var before := Received(t.(deltas := t.deltas[..|t.deltas| - 1]));
      if before.None? then None else Extend(before.value, t.deltas[|t.deltas| - 1])
  }

  lemma {:induction false} LegalIffReceived(t: Trace)
    ensures LegalTrace(t) <==> Received(t).Some?
    ensures LegalTrace(t) ==> (Received(t).value.PartialText? <==> t.start.TextBlock?)
    ensures LegalTrace(t) ==> (Received(t).value.PartialTool? <==> t.start.ToolUseBlock?)
    ensures LegalTrace(t) && Received(t).value.PartialThinking? ==>
              (Received(t).value.signature.Some? <==> t.deltas != [] && t.deltas[|t.deltas| - 1].SignatureDelta?)
    decreases |t.deltas|
  {
    if t.deltas != [] {
      var n := |t.deltas| - 1;
      var u := t.(deltas := t.deltas[..n]);
      LegalIffReceived(u);
      if LegalTrace(t) {
        forall i | 0 <= i < n ensures Fits(u, i) { assert Fits(t, i); }
        assert Fits(t, n);
        if n > 0 { assert Fits(t, n - 1); }
      }
      if Received(t).Some? {
        forall i | 0 <= i <= n ensures Fits(t, i) {
          if i < n {
            assert Fits(u, i);
          }
        }
      }
    }
  }

  function Assembled(blocks: seq<Trace>): seq<ContentBlock>
    requires forall i | 0 <= i < |blocks| :: Received(blocks[i]).Some?
  {
    seq(|blocks|, i requires 0 <= i < |blocks| => Finish(Received(blocks[i]).value))
  }

  lemma {:induction false} ReceiveDeltas(c: Client, t: Trace)
    requires c.Streaming? && c.open == Begin(t.start) && c.open.Some? && Received(t).Some?
    ensures ConsumeAll(c, DeltaEvents(|c.done|, t.deltas)) == c.(open := Received(t))
    decreases |t.deltas|
  {
    if t.deltas != [] {
      var n := |t.deltas| - 1;
      ReceiveDeltas(c, t.(deltas := t.deltas[..n]));
      var front := DeltaEvents(|c.done|, t.deltas[..n]);
      assert (front + [BlockDelta(|c.done|, t.deltas[n])])[..|front|] == front;
    }
  }

  /** A client between blocks that receives blocks numbered from its own next
      number ends between blocks, holding them too. */
  lemma {:induction false} ReceiveBlocks(c: Client, blocks: seq<Trace>)
    requires c.Streaming? && c.open == None
    requires forall i | 0 <= i < |blocks| :: Received(blocks[i]).Some?
    ensures ConsumeAll(c, TraceEvents(|c.done|, blocks)) == c.(done := c.done + Assembled(blocks))
    decreases |blocks|
  {
    if blocks == [] {
      assert c.done + [] == c.done;
    } else {
      var n := |blocks| - 1;
      var middle := c.(done := c.done + Assembled(blocks[..n]));
      ReceiveBlocks(c, blocks[..n]);
      AssembledLast(c, blocks, blocks[..n], blocks[n]);
      ReceiveStep(c, blocks, n, middle, c.(done := c.done + Assembled(blocks)));
    }
  }

  /** One more block; the definitions behind it are not needed here. */
  lemma ReceiveStep(c: Client, blocks: seq<Trace>, n: nat, middle: Client, end: Client)
    requires c.Streaming? && |blocks| == n + 1 && Received(blocks[n]).Some?
    requires middle.Streaming? && middle.open == None && |middle.done| == |c.done| + n
    requires ConsumeAll(c, TraceEvents(|c.done|, blocks[..n])) == middle
    requires end == middle.(done := middle.done + [Finish(Received(blocks[n]).value)])
    ensures ConsumeAll(c, TraceEvents(|c.done|, blocks)) == end
  {
    hide *;
    TracesLast(|c.done|, blocks, n);
    ReceiveBlock(middle, blocks[n]);
    Chain(c, TraceEvents(|c.done|, blocks), TraceEvents(|c.done|, blocks[..n]), middle,
          OneTrace(|middle.done|, blocks[n]), end);
  }

  lemma Chain(c: Client, all: seq<ClientEvent>, a: seq<ClientEvent>, c1: Client, b: seq<ClientEvent>, c2: Client)
    requires all == a + b
    requires ConsumeAll(c, a) == c1 && ConsumeAll(c1, b) == c2
    ensures ConsumeAll(c, all) == c2
  {
    ConsumeAllConcat(c, a, b);
  }

  lemma TracesLast(first: int, blocks: seq<Trace>, n: int)
    requires blocks != [] && n == |blocks| - 1
    ensures TraceEvents(first, blocks) == TraceEvents(first, blocks[..n]) + OneTrace(first + n, blocks[n])
  {
  }

  lemma AssembledLast(c: Client, blocks: seq<Trace>, front: seq<Trace>, last: Trace)
    requires c.Streaming?
    requires forall i | 0 <= i < |blocks| :: Received(blocks[i]).Some?
    requires blocks != [] && front == blocks[..|blocks| - 1] && last == blocks[|blocks| - 1]
    ensures |Assembled(front)| == |front|
    ensures c.(done := c.done + Assembled(blocks)) ==
            c.(done := c.done + Assembled(front) + [Finish(Received(last).value)])
  {
    var held, more := Assembled(front), [Finish(Received(last).value)];
    assert Assembled(blocks) == held + more;
    Regroup(c.done, held, more);
  }

  lemma ReceiveBlock(c: Client, t: Trace)
    requires c.Streaming? && c.open == None && Received(t).Some?
    ensures ConsumeAll(c, OneTrace(|c.done|, t)) == c.(done := c.done + [Finish(Received(t).value)])
  {
    var n := |c.done|;
    BeginOf(t);
    var started := c.(open := Begin(t.start));
    ReceiveDeltas(started, t);
    ConsumeOne(c, BlockStart(n, t.start));
    ConsumeOne(c.(open := Received(t)), BlockStop(n));
    ConsumeAllConcat(c, [BlockStart(n, t.start)], DeltaEvents(n, t.deltas));
    ConsumeAllConcat(c, [BlockStart(n, t.start)] + DeltaEvents(n, t.deltas), [BlockStop(n)]);
  }

  lemma {:induction false} BeginOf(t: Trace)
    requires Received(t).Some?
    ensures Begin(t.start).Some?
    decreases |t.deltas|
  {
    if t.deltas != [] {
      BeginOf(t.(deltas := t.deltas[..|t.deltas| - 1]));
    }
  }

  /** The events a streaming client has consumed are those of its finished
      blocks followed by those of its open one. */
  ghost predicate Spells(events: seq<ClientEvent>, c: Client, blocks: seq<Trace>, last: Option<Trace>)
    requires c.Streaming?
  {
    && (forall i | 0 <= i < |blocks| :: Received(blocks[i]).Some?)
    && c.done == Assembled(blocks)
    && c.message.content == [] && c.message.stopReason == None && c.message.usage == NO_TOKENS
    && c.open == (if last.Some? then Received(last.value) else None)
    && (last.Some? ==> c.open.Some?)
    && events == [MessageStart(c.message)] + TraceEvents(0, blocks) + OpenEvents(|blocks|, last)
  }

  function OpenEvents(index: int, last: Option<Trace>): seq<ClientEvent> {
    if last.None? then [] else [BlockStart(index, last.value.start)] + DeltaEvents(index, last.value.deltas)
  }

  lemma {:induction false} Parse(events: seq<ClientEvent>) returns (blocks: seq<Trace>, last: Option<Trace>)
    requires ConsumeAll(Waiting, events).Streaming?
    ensures Spells(events, ConsumeAll(Waiting, events), blocks, last)
    decreases |events|
  {
    var n := |events| - 1;
    var before := ConsumeAll(Waiting, events[..n]);
    assert events == events[..n] + [events[n]];
    if before.Waiting? {
      assert events[..n] == [];
      blocks, last := [], None;
    } else {
      blocks, last := Parse(events[..n]);
      blocks, last := ParseOne(events[..n], before, blocks, last, events[n]);
    }
  }

  lemma ParseOne(events: seq<ClientEvent>, c: Client, blocks: seq<Trace>, last: Option<Trace>, e: ClientEvent)
    returns (blocks': seq<Trace>, last': Option<Trace>)
    requires c.Streaming? && Spells(events, c, blocks, last)
    requires Consume(c, e).Streaming?
    ensures Spells(events + [e], Consume(c, e), blocks', last')
  {
    blocks', last' := blocks, last;
    match e {
      case BlockStart(index, block) =>
        last' := Some(Trace(block, []));
        assert OpenEvents(|blocks|, last') == [e];
        assert events + [] == events;
      case BlockDelta(index, delta) =>
        var longer := ParseDelta(events, c, blocks, last.value, e);
        last' := Some(longer);
      case BlockStop(index) =>
        ParseStop(events, c, blocks, last.value, e);
        blocks', last' := blocks + [last.value], None;
    }
  }

  lemma ParseDelta(events: seq<ClientEvent>, c: Client, blocks: seq<Trace>, t: Trace, e: ClientEvent)
    returns (longer: Trace)
    requires c.Streaming? && Spells(events, c, blocks, Some(t))
    requires e.BlockDelta? && Consume(c, e).Streaming?
    ensures Spells(events + [e], Consume(c, e), blocks, Some(longer))
  {
    longer := t.(deltas := t.deltas + [e.delta]);
    assert longer.deltas[..|t.deltas|] == t.deltas;
    assert longer.(deltas := longer.deltas[..|t.deltas|]) == t;
    var front := [MessageStart(c.message)] + TraceEvents(0, blocks);
    assert OpenEvents(|blocks|, Some(longer)) == OpenEvents(|blocks|, Some(t)) + [e];
    assert front + OpenEvents(|blocks|, Some(t)) + [e] == front + OpenEvents(|blocks|, Some(longer));
  }

  lemma ParseStop(events: seq<ClientEvent>, c: Client, blocks: seq<Trace>, t: Trace, e: ClientEvent)
    requires c.Streaming? && Spells(events, c, blocks, Some(t))
    requires e.BlockStop? && Consume(c, e).Streaming?
    ensures Spells(events + [e], Consume(c, e), blocks + [t], None)
  {
    AssembledAppend(blocks, t);
    TraceEventsAppend(blocks, t);
    var start, before, current := [MessageStart(c.message)], TraceEvents(0, blocks), OpenEvents(|blocks|, Some(t));
    Regroup(start + before, current, [e]);
    Regroup(start, before, current + [e]);
    Regroup(start + (before + (current + [e])), [], []);
  }

  lemma AssembledAppend(blocks: seq<Trace>, t: Trace)
    requires forall i | 0 <= i < |blocks| :: Received(blocks[i]).Some?
    requires Received(t).Some?
    ensures forall i | 0 <= i < |blocks + [t]| :: Received((blocks + [t])[i]).Some?
    ensures Assembled(blocks + [t]) == Assembled(blocks) + [Finish(Received(t).value)]
  {
  }

  lemma TraceEventsAppend(blocks: seq<Trace>, t: Trace)
    ensures TraceEvents(0, blocks + [t]) ==
            TraceEvents(0, blocks) + (OpenEvents(|blocks|, Some(t)) + [BlockStop(|blocks|)])
  {
    assert (blocks + [t])[..|blocks|] == blocks;
  }

  /** The client completes exactly on the legal sentences, and then holds the
      message the sentence spells. */
  lemma CompleteIffSentence(events: seq<ClientEvent>)
    ensures IsComplete(ConsumeAll(Waiting, events)) <==>
            exists s :: LegalSentence(s) && SentenceEvents(s) == events
  {
    if IsComplete(ConsumeAll(Waiting, events)) {
      var s := SentenceOf(events);
      assert LegalSentence(s) && SentenceEvents(s) == events;
    }
    if s :| LegalSentence(s) && SentenceEvents(s) == events {
      SentenceCompletes(s);
    }
  }

  lemma SentenceCompletes(s: Sentence)
    requires LegalSentence(s)
    ensures forall i | 0 <= i < |s.blocks| :: Received(s.blocks[i]).Some?
    ensures ConsumeAll(Waiting, SentenceEvents(s)) ==
            Ended(s.message, Assembled(s.blocks), s.stopReason, s.usage, true)
  {
    forall i | 0 <= i < |s.blocks| ensures Received(s.blocks[i]).Some? { LegalIffReceived(s.blocks[i]); }
    var first := [MessageStart(s.message)];
    ConsumeOne(Waiting, MessageStart(s.message));
    ReceiveBlocks(Streaming(s.message, [], None), s.blocks);
    assert [] + Assembled(s.blocks) == Assembled(s.blocks);
    ConsumeAllConcat(Waiting, first, TraceEvents(0, s.blocks));
    ConsumeAllConcat(Waiting, first + TraceEvents(0, s.blocks), [MessageDelta(s.stopReason, s.usage), MessageStop]);
    ConsumeTwo(Streaming(s.message, Assembled(s.blocks), None), MessageDelta(s.stopReason, s.usage), MessageStop);
  }

  lemma SentenceOf(events: seq<ClientEvent>) returns (s: Sentence)
    requires IsComplete(ConsumeAll(Waiting, events))
    ensures LegalSentence(s) && SentenceEvents(s) == events
  {
    var n := |events| - 2;
    var streaming, stopReason, usage := LastTwo(events);
    var blocks, _ := Parse(events[..n]);
    s := Sentence(streaming.message, blocks, stopReason, usage);
    AllLegal(blocks);
  }

  /** A complete message ends with its stop reason and usage and the stop. */
  lemma LastTwo(events: seq<ClientEvent>) returns (streaming: Client, stopReason: StopReason, usage: TokenCount)
    requires IsComplete(ConsumeAll(Waiting, events))
    ensures |events| >= 2
    ensures streaming == ConsumeAll(Waiting, events[..|events| - 2]) && streaming.Streaming? && streaming.open.None?
    ensures events == events[..|events| - 2] + [MessageDelta(stopReason, usage), MessageStop]
  {
    var n := |events| - 1;
    var ending := ConsumeAll(Waiting, events[..n]);
    assert ending.Ended? && !ending.stopped && n > 0;
    streaming := ConsumeAll(Waiting, events[..n - 1]);
    assert events[..n][..n - 1] == events[..n - 1];
    stopReason, usage := ending.stopReason, ending.usage;
  }

  lemma AllLegal(blocks: seq<Trace>)
    requires forall i | 0 <= i < |blocks| :: Received(blocks[i]).Some?
    ensures forall i | 0 <= i < |blocks| :: LegalTrace(blocks[i])
  {
    forall i | 0 <= i < |blocks| ensures LegalTrace(blocks[i]) { LegalIffReceived(blocks[i]); }
  }

  /** The client is unbroken exactly on the prefixes of legal sentences. */
  lemma UnbrokenIffPrefix(events: seq<ClientEvent>)
    ensures ConsumeAll(Waiting, events) != Broken <==>
            exists s :: LegalSentence(s) && events <= SentenceEvents(s)
  {
    var c := ConsumeAll(Waiting, events);
    if c != Broken {
      var rest := Completion(c);
      ConsumeAllConcat(Waiting, events, rest);
      var s := SentenceOf(events + rest);
      assert events <= SentenceEvents(s);
    }
    if s :| LegalSentence(s) && events <= SentenceEvents(s) {
      SentenceCompletes(s);
      var rest := SentenceEvents(s)[|events|..];
      assert SentenceEvents(s) == events + rest;
      ConsumeAllConcat(Waiting, events, rest);
      if c == Broken {
        BrokenStays(rest);
        assert false;
      }
    }
  }

  lemma {:induction false} BrokenStays(events: seq<ClientEvent>)
    ensures ConsumeAll(Broken, events) == Broken
    decreases |events|
  {
    if events != [] {
      BrokenStays(events[..|events| - 1]);
    }
  }

  /** Events that bring an unbroken client to a complete message. */
  lemma Completion(c: Client) returns (rest: seq<ClientEvent>)
    requires c != Broken
    ensures IsComplete(ConsumeAll(c, rest))
  {
    var ending := [MessageDelta(EndTurn, NO_TOKENS), MessageStop];
    match c {
      case Ended(_, _, _, _, stopped) =>
        if stopped {
          rest := [];
        } else {
          rest := [MessageStop];
          ConsumeOne(c, MessageStop);
        }
      case Streaming(_, done, open) =>
        if open.None? {
          rest := ending;
          ConsumeTwo(c, ending[0], ending[1]);
        } else {
          var stop := [BlockStop(|done|)];
          rest := stop + ending;
          ConsumeOne(c, stop[0]);
          ConsumeAllConcat(c, stop, ending);
          ConsumeTwo(Consume(c, stop[0]), ending[0], ending[1]);
        }
      case Waiting =>
        var start := [MessageStart(MessageResponse("", "", [], None, NO_TOKENS))];
        rest := start + ending;
        ConsumeOne(c, start[0]);
        ConsumeAllConcat(c, start, ending);
        ConsumeTwo(Consume(c, start[0]), ending[0], ending[1]);
    }
  }
}
