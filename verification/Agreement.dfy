/** The two pipelines agree: streaming a well-formed lifecycle and reassembling
    it gives the message that buffering and converting it gives. */
module Agreement {
  import opened Text
  import opened Protocol
  import opened Blocks
  import opened Client
  import opened Chunking
  import opened Lifecycle
  import G = Grammar
  import C = Converter
  import A = Accumulator
  import S = StreamAgreement
  import B = BufferedAgreement

  /** The buffered form never sends an empty content list. */
  function WithoutPlaceholder(content: seq<ContentBlock>): seq<ContentBlock> {
    if content == [TextBlock("")] then [] else content
  }

  lemma {:induction false} NoEmptyText(codec: Codec, output: seq<OutputItem>)
    requires OutputBlocks(codec, output).Ok?
    ensures TextBlock("") !in OutputBlocks(codec, output).value
  {
    if output != [] {
      NoEmptyText(codec, output[..|output| - 1]);
      G.TextsAreTexts(output[|output| - 1].content);
    }
  }

  lemma PlaceholderIsEmpty(content: seq<ContentBlock>)
    requires TextBlock("") !in content
    ensures WithoutPlaceholder(if content == [] then [TextBlock("")] else content) == content
  {
    assert [TextBlock("")][0] in [TextBlock("")];
  }

  /** Streaming and buffering one well-formed lifecycle succeed together and fail
      together with one error. When they succeed, the streaming client holds the
      blocks of the buffered message, in order, with blank signatures unsent and
      no placeholder, and the same stop reason and usage. */
  lemma PipelinesAgree(codec: Codec, model: string, es: seq<StreamEvent>, m: Life, e: StreamEvent)
    requires After(codec, es) == Some(m) && Ends(codec, m, e)
    ensures var r := C.Run(codec, C.Initial(model), es + [e]);
            var c := ConsumeAll(Waiting, r.events);
            var final := A.Final(A.Run(A.EMPTY_ACC, es + [e]));
            && final.Ok?
            && match ToAnthropic(codec, Some(final.value), model)
               case Err(err) => C.FinalError(r.state) == Some(err)
               case Ok(message) =>
                 && C.FinalError(r.state) == None && IsComplete(c)
                 && c.content == G.VisibleAll(WithoutPlaceholder(message.content))
                 && Some(c.stopReason) == message.stopReason
                 && c.usage == message.usage
  {
    S.LifecycleStreamed(codec, model, es, m, e);
    B.LifecycleBuffered(codec, model, es, m, e);
    if Meaning(codec, m, e).Ok? {
      MeaningHasNoEmptyText(codec, es, m, e);
      PlaceholderIsEmpty(Meaning(codec, m, e).value);
    }
  }

  lemma MeaningHasNoEmptyText(codec: Codec, es: seq<StreamEvent>, m: Life, e: StreamEvent)
    requires After(codec, es) == Some(m) && Ends(codec, m, e) && Meaning(codec, m, e).Ok?
    ensures TextBlock("") !in Meaning(codec, m, e).value
  {
    var a := A.Run(A.EMPTY_ACC, es);
    B.LifecycleCollects(codec, es, m);
    B.CompletedMeans(codec, a, m, e);
    NoEmptyText(codec, A.CompletedResponse(a, e).output);
  }

  // ---- The message's id and model ----------------------------------------------------

  function IdOf(e: StreamEvent): string {
    if e.response.Some? then e.response.value.id else ""
  }

  function ModelOf(e: StreamEvent): string {
    if e.response.Some? then e.response.value.model else ""
  }

  /** The last id that a created or terminal event gives. */
  function LastId(es: seq<StreamEvent>): string {
    if es == [] then ""
    else
      var front, last := LastId(es[..|es| - 1]), es[|es| - 1];
      if last.kind.CreatedKind? || IsTerminal(last.kind) then NonEmpty(IdOf(last), front) else front
  }

  function LastModel(es: seq<StreamEvent>): string {
    if es == [] then ""
    else
      var front, last := LastModel(es[..|es| - 1]), es[|es| - 1];
      if last.kind.CreatedKind? || IsTerminal(last.kind) then NonEmpty(ModelOf(last), front) else front
  }

  /** Once a message has started, its head stays. */
  lemma {:induction false} MessageStays(c: Client, events: seq<ClientEvent>)
    requires c.Streaming? || c.Ended?
    ensures var d := ConsumeAll(c, events); d == Broken || ((d.Streaming? || d.Ended?) && d.message == c.message)
  {
    if events != [] {
      MessageStays(c, events[..|events| - 1]);
    }
  }

  /** A stream that begins with a created event shows that event's id, and its model
      unless the converter was given one. */
  lemma StreamedNames(codec: Codec, model: string, es: seq<StreamEvent>)
    requires es != [] && es[0].kind.CreatedKind?
    ensures var c := ConsumeAll(Waiting, C.Run(codec, C.Initial(model), es).events);
            c != Broken ==>
              && (c.Streaming? || c.Ended?)
              && c.message.id == IdOf(es[0]) && c.message.model == NonEmpty(model, ModelOf(es[0]))
  {
    var first, rest := es[0], es[1..];
    assert es == [first] + rest;
    var start := C.Run(codec, C.Initial(model), [first]);
    ConverterRunConcat(codec, C.Initial(model), [first], rest);
    ConverterRunOne(codec, C.Initial(model), first);
    StartedByCreated(codec, model, first);
    var more := C.Run(codec, start.state, rest).events;
    ConsumeAllConcat(Waiting, start.events, more);
    MessageStays(ConsumeAll(Waiting, start.events), more);
  }

  lemma StartedByCreated(codec: Codec, model: string, first: StreamEvent)
    requires first.kind.CreatedKind?
    ensures var c := ConsumeAll(Waiting, C.Step(codec, C.Initial(model), first).events);
            c.Streaming? && c.message.id == IdOf(first) && c.message.model == NonEmpty(model, ModelOf(first))
  {
    var s := C.CaptureMetadata(C.Initial(model), first.response);
    ConsumeOne(Waiting, MessageStart(C.StartMessage(s)));
  }

  /** The accumulator keeps the last id and model. */
  lemma {:induction false} BufferedNames(codec: Codec, es: seq<StreamEvent>, m: Life)
    requires After(codec, es) == Some(m)
    ensures var r := A.Run(A.EMPTY_ACC, es).response; r.id == LastId(es) && r.model == LastModel(es)
  {
    if es != [] {
      var front, last := es[..|es| - 1], es[|es| - 1];
      var before := After(codec, front).value;
      BufferedNames(codec, front, before);
      B.LifecycleCollects(codec, front, before);
      NotTheEnd(codec, before, last);
      NamesByStep(A.Run(A.EMPTY_ACC, front), last);
    }
  }

  lemma NotTheEnd(codec: Codec, m: Life, e: StreamEvent)
    requires Next(codec, m, e).Some?
    ensures !EndsExchange(e.kind)
  {
  }

  lemma NamesByStep(a: A.Acc, e: StreamEvent)
    requires !a.terminal && !EndsExchange(e.kind)
    ensures var r := A.Step(a, e).state.response;
            && r.id == (if e.kind.CreatedKind? then NonEmpty(IdOf(e), a.response.id) else a.response.id)
            && r.model == (if e.kind.CreatedKind? then NonEmpty(ModelOf(e), a.response.model) else a.response.model)
  {
  }

  lemma NamesByEnd(a: A.Acc, e: StreamEvent)
    requires !a.terminal && a.err == None && IsTerminal(e.kind) && !ReportsFailure(e)
    ensures var r := A.Final(A.Step(a, e).state);
            && r.Ok? && r.value.id == NonEmpty(IdOf(e), a.response.id)
            && r.value.model == NonEmpty(ModelOf(e), a.response.model)
  {
  }

  /** On a lifecycle that begins with a created event both forms carry one id exactly when
      that event's id is the last one given too; and one model exactly when the client's
      label is not empty or the same holds of the models. */
  lemma NamesAgreeExactly(codec: Codec, model: string, es: seq<StreamEvent>, m: Life, e: StreamEvent)
    requires After(codec, es) == Some(m) && Ends(codec, m, e) && es != [] && es[0].kind.CreatedKind?
    ensures var r := C.Run(codec, C.Initial(model), es + [e]);
            var c := ConsumeAll(Waiting, r.events);
            var final := A.Final(A.Run(A.EMPTY_ACC, es + [e]));
            && final.Ok?
            && match ToAnthropic(codec, Some(final.value), model)
               case Err(_) => true
               case Ok(message) =>
                 && IsComplete(c)
                 && (c.message.id == message.id <==> LastId(es + [e]) == IdOf(es[0]))
                 && (c.message.model == message.model <==> model != "" || LastModel(es + [e]) == ModelOf(es[0]))
  {
    PipelinesAgree(codec, model, es, m, e);
    assert (es + [e])[0] == es[0] && (es + [e])[..|es|] == es;
    StreamedNames(codec, model, es + [e]);
    BufferedNames(codec, es, m);
    B.LifecycleCollects(codec, es, m);
    NamesByEnd(A.Run(A.EMPTY_ACC, es), e);
  }
}
