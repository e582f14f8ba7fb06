/** What a client receives from a whole exchange, over every sequence of frames,
    ends, timeouts and cancellations the upstream body can bring. */
module HandlerOutcome {
  import opened Text
  import opened Protocol
  import opened Blocks
  import opened Client
  import opened Grammar
  import opened Handler
  import opened Chunking
  import opened Outcomes
  import L = Lifecycle
  import Agreement
  import Accumulation
  import C = Converter
  import A = Accumulator

  /** Why the events stopped coming. */
  datatype Stop = AtTerminal | AtEnd | AtCancel | AtReadCancel | AtReadError | AtTimeout | AtMalformed

  datatype Delivery = Delivery(events: seq<StreamEvent>, stop: Stop)

  /** The events an exchange delivers, up to the first that ends it. */
  function Deliver(wire: Wire, arrivals: seq<Arrival>): Delivery {
    if arrivals == [] then Delivery([], AtEnd)
    else
      match arrivals[0]
      case Cancelled => Delivery([], AtCancel)
      case ReadCancelled => Delivery([], AtReadCancel)
      case EndOfStream => Delivery([], AtEnd)
      case ReadFailed => Delivery([], AtReadError)
      case TimedOut => Delivery([], AtTimeout)
      case Frame(event, data) =>
        match DecodeResponsesEvent(wire, event, data)
        case DoneSentinel => Delivery([], AtEnd)
        case Undecodable => Delivery([], AtMalformed)
        case Event(e) =>
          if EndsExchange(e.kind) then Delivery([e], AtTerminal)
          else
            var rest := Deliver(wire, arrivals[1..]);
            Delivery([e] + rest.events, rest.stop)
  }

  /** The streaming loop stops without a word. */
  predicate Silent(stop: Stop) {
    stop.AtCancel? || stop.AtReadCancel?
  }

  /** How a streaming exchange that got no terminal event fails; a cancelled one does not. */
  function StopFailure(stop: Stop): Option<Failure> {
    match stop
    case AtTerminal => None
    case AtEnd => Some(Failure.Protocol(MissingTerminal))
    case AtCancel => None
    case AtReadCancel => None
    case AtReadError => Some(ReadError)
    case AtTimeout => Some(IdleTimeout)
    case AtMalformed => Some(Malformed)
  }

  // ---- Streaming -------------------------------------------------------------

  /** How the exchange went wrong, if it did: the converter's own error first. */
  function StreamFailure(s: C.Conv, stop: Stop): Option<Failure> {
    if s.terminal then (if s.terminalErr.Some? then Some(Failure.Protocol(s.terminalErr.value)) else None)
    else StopFailure(stop)
  }

  /** Everything a streaming client is sent: the converted events and, if the
      exchange went wrong, one error. */
  function StreamResult(wire: Wire, s: C.Conv, sent: seq<ClientEvent>, stop: Stop): seq<Written> {
    var failure := StreamFailure(s, stop);
    AsSse(sent) + (if failure.Some? then ProcessingError(wire, failure.value, sent != []) else [])
  }

  lemma AsSseConcat(a: seq<ClientEvent>, b: seq<ClientEvent>)
    ensures AsSse(a + b) == AsSse(a) + AsSse(b)
  {
  }

  /** From any loop head that is tied to its client, the loop writes the result
      of the run over the events still to be delivered. */
  lemma {:induction false} LoopIsRun(wire: Wire, s: C.Conv, sent: seq<ClientEvent>, arrivals: seq<Arrival>)
    requires Tied(s, ConsumeAll(Waiting, sent)) && !s.terminal
    ensures var d := Deliver(wire, arrivals);
            var r := C.Run(wire.codec, s, d.events);
            AsSse(sent) + StreamLoop(wire, s, sent != [], arrivals) ==
                StreamResult(wire, r.state, sent + r.events, d.stop)
    decreases |arrivals|
  {
    var arrival := FirstOf(arrivals);
    if arrival.Frame? && DecodeResponsesEvent(wire, arrival.event, arrival.data).Event? {
      var e := DecodeResponsesEvent(wire, arrival.event, arrival.data).event;
      FrameIsStep(wire, s, sent, arrivals, e);
    } else {
      StopIsEnd(wire, s, sent, arrivals);
    }
  }

  /** An arrival without an event ends the exchange. */
  lemma StopIsEnd(wire: Wire, s: C.Conv, sent: seq<ClientEvent>, arrivals: seq<Arrival>)
    requires !s.terminal
    requires var arrival := FirstOf(arrivals);
             !(arrival.Frame? && DecodeResponsesEvent(wire, arrival.event, arrival.data).Event?)
    ensures var d := Deliver(wire, arrivals);
            var r := C.Run(wire.codec, s, d.events);
            AsSse(sent) + StreamLoop(wire, s, sent != [], arrivals) ==
                StreamResult(wire, r.state, sent + r.events, d.stop)
  {
    assert sent + [] == sent;
    StopWritten(wire, s, sent != [], arrivals);
    LoopStops(wire, s, sent != [], arrivals);
  }

  lemma StopWritten(wire: Wire, s: C.Conv, started: bool, arrivals: seq<Arrival>)
    requires !s.terminal
    requires var arrival := FirstOf(arrivals);
             !(arrival.Frame? && DecodeResponsesEvent(wire, arrival.event, arrival.data).Event?)
    ensures var d := Deliver(wire, arrivals);
            var failure := StreamFailure(s, d.stop);
            && d.events == []
            && StreamArrival(wire, s, started, FirstOf(arrivals)) ==
               Handled(if failure.Some? then ProcessingError(wire, failure.value, started) else [], None)
  {
  }

  lemma LoopStops(wire: Wire, s: C.Conv, started: bool, arrivals: seq<Arrival>)
    requires StreamArrival(wire, s, started, FirstOf(arrivals)).next.None?
    ensures StreamLoop(wire, s, started, arrivals) == StreamArrival(wire, s, started, FirstOf(arrivals)).written
  {
  }

  lemma FrameIsStep(wire: Wire, s: C.Conv, sent: seq<ClientEvent>, arrivals: seq<Arrival>, e: StreamEvent)
    requires Tied(s, ConsumeAll(Waiting, sent)) && !s.terminal
    requires arrivals != [] && arrivals[0].Frame?
    requires DecodeResponsesEvent(wire, arrivals[0].event, arrivals[0].data) == Event(e)
    ensures var d := Deliver(wire, arrivals);
            var r := C.Run(wire.codec, s, d.events);
            AsSse(sent) + StreamLoop(wire, s, sent != [], arrivals) ==
                StreamResult(wire, r.state, sent + r.events, d.stop)
    decreases |arrivals|, 0
  {
    var o := C.Step(wire.codec, s, e);
    StepKeeps(wire.codec, s, ConsumeAll(Waiting, sent), e);
    ConsumeAllConcat(Waiting, sent, o.events);
    if o.err.Some? {
      StepFails(wire, s, sent, arrivals, e);
    } else if EndsExchange(e.kind) {
      EndedStep(wire.codec, s, e);
      StepEnds(wire, s, sent, arrivals, e);
    } else {
      LoopIsRun(wire, o.state, sent + o.events, arrivals[1..]);
      StepGoesOn(wire, s, sent, arrivals, e);
    }
  }

  lemma RunFront(codec: Codec, s: C.Conv, e: StreamEvent, rest: seq<StreamEvent>)
    ensures var o := C.Step(codec, s, e);
            var r := C.Run(codec, o.state, rest);
            C.Run(codec, s, [e] + rest) == C.Emit(r.state, o.events + r.events)
  {
    ConverterRunConcat(codec, s, [e], rest);
    ConverterRunOne(codec, s, e);
  }

  /** The delivery that begins with a decoded event. */
  function DeliverAfter(wire: Wire, e: StreamEvent, arrivals: seq<Arrival>): Delivery {
    if EndsExchange(e.kind) then Delivery([e], AtTerminal)
    else
      var rest := Deliver(wire, arrivals);
      Delivery([e] + rest.events, rest.stop)
  }

  lemma DeliverFrame(wire: Wire, arrivals: seq<Arrival>, e: StreamEvent)
    requires arrivals != [] && arrivals[0].Frame?
    requires DecodeResponsesEvent(wire, arrivals[0].event, arrivals[0].data) == Event(e)
    ensures Deliver(wire, arrivals) == DeliverAfter(wire, e, arrivals[1..])
    ensures |Deliver(wire, arrivals).events| > 0 && Deliver(wire, arrivals).events[0] == e
  {
  }

  lemma StepFails(wire: Wire, s: C.Conv, sent: seq<ClientEvent>, arrivals: seq<Arrival>, e: StreamEvent)
    requires arrivals != [] && arrivals[0].Frame?
    requires DecodeResponsesEvent(wire, arrivals[0].event, arrivals[0].data) == Event(e)
    requires var o := C.Step(wire.codec, s, e);
             o.err.Some? && o.events == [] && o.state.terminal && o.state.terminalErr == o.err
    ensures var d := Deliver(wire, arrivals);
            var r := C.Run(wire.codec, s, d.events);
            AsSse(sent) + StreamLoop(wire, s, sent != [], arrivals) ==
                StreamResult(wire, r.state, sent + r.events, d.stop)
  {
    var o := C.Step(wire.codec, s, e);
    var d := Deliver(wire, arrivals);
    var rest := d.events[1..];
    DeliverFrame(wire, arrivals, e);
    assert d.events == [e] + rest;
    RunFront(wire.codec, s, e, rest);
    ConverterEndIsFinal(wire.codec, o.state, rest);
    FailedLoop(wire, s, sent, arrivals, e, o);
    FailedResult(wire, o.state, sent, o.err.value, d.stop);
  }

  lemma FailedLoop(wire: Wire, s: C.Conv, sent: seq<ClientEvent>, arrivals: seq<Arrival>, e: StreamEvent, o: C.Outcome)
    requires arrivals != [] && arrivals[0].Frame?
    requires DecodeResponsesEvent(wire, arrivals[0].event, arrivals[0].data) == Event(e)
    requires o == C.Step(wire.codec, s, e) && o.err.Some?
    ensures StreamLoop(wire, s, sent != [], arrivals) ==
            ProcessingError(wire, Failure.Protocol(o.err.value), sent != [])
  {
  }

  lemma FailedResult(wire: Wire, s: C.Conv, sent: seq<ClientEvent>, err: Error, stop: Stop)
    requires s.terminal && s.terminalErr == Some(err)
    ensures StreamResult(wire, s, sent + ([] + []), stop) ==
            AsSse(sent) + ProcessingError(wire, Failure.Protocol(err), sent != [])
  {
    assert sent + ([] + []) == sent;
  }

  /** An ending event either fails or leaves a complete message. */
  lemma EndedStep(codec: Codec, s: C.Conv, e: StreamEvent)
    requires !s.terminal && EndsExchange(e.kind) && C.Step(codec, s, e).err == None
    requires C.Step(codec, s, e).state.terminalErr == None
    ensures IsTerminal(e.kind) && C.Step(codec, s, e).state.terminal
  {
    EndingStep(codec, s, e);
  }

  lemma StepEnds(wire: Wire, s: C.Conv, sent: seq<ClientEvent>, arrivals: seq<Arrival>, e: StreamEvent)
    requires arrivals != [] && arrivals[0].Frame? && EndsExchange(e.kind)
    requires DecodeResponsesEvent(wire, arrivals[0].event, arrivals[0].data) == Event(e)
    requires var o := C.Step(wire.codec, s, e); o.err == None && o.state.terminal && o.state.terminalErr == None
    ensures var d := Deliver(wire, arrivals);
            var r := C.Run(wire.codec, s, d.events);
            AsSse(sent) + StreamLoop(wire, s, sent != [], arrivals) ==
                StreamResult(wire, r.state, sent + r.events, d.stop)
  {
    var o := C.Step(wire.codec, s, e);
    DeliverFrame(wire, arrivals, e);
    ConverterRunOne(wire.codec, s, e);
    EndedLoop(wire, s, sent, arrivals, e, o);
    AsSseConcat(sent, o.events);
    Regroup(AsSse(sent + o.events), [], []);
  }

  lemma EndedLoop(wire: Wire, s: C.Conv, sent: seq<ClientEvent>, arrivals: seq<Arrival>, e: StreamEvent, o: C.Outcome)
    requires arrivals != [] && arrivals[0].Frame? && EndsExchange(e.kind)
    requires DecodeResponsesEvent(wire, arrivals[0].event, arrivals[0].data) == Event(e)
    requires o == C.Step(wire.codec, s, e) && o.err == None
    ensures StreamLoop(wire, s, sent != [], arrivals) == AsSse(o.events)
  {
  }

  /** A step that goes on leaves its events sent and the rest to the loop. */
  lemma StepGoesOn(wire: Wire, s: C.Conv, sent: seq<ClientEvent>, arrivals: seq<Arrival>, e: StreamEvent)
    requires arrivals != [] && arrivals[0].Frame? && !EndsExchange(e.kind)
    requires DecodeResponsesEvent(wire, arrivals[0].event, arrivals[0].data) == Event(e)
    requires C.Step(wire.codec, s, e).err == None
    requires var o := C.Step(wire.codec, s, e);
             var d := Deliver(wire, arrivals[1..]);
             var r := C.Run(wire.codec, o.state, d.events);
             AsSse(sent + o.events) + StreamLoop(wire, o.state, sent + o.events != [], arrivals[1..]) ==
             StreamResult(wire, r.state, sent + o.events + r.events, d.stop)
    ensures var d := Deliver(wire, arrivals);
            var r := C.Run(wire.codec, s, d.events);
            AsSse(sent) + StreamLoop(wire, s, sent != [], arrivals) ==
                StreamResult(wire, r.state, sent + r.events, d.stop)
  {
    var o := C.Step(wire.codec, s, e);
    var rest := Deliver(wire, arrivals[1..]);
    DeliverFrame(wire, arrivals, e);
    RunFront(wire.codec, s, e, rest.events);
    GoingLoop(wire, s, sent, arrivals, e, o);
    AsSseConcat(sent, o.events);
    Regroup(AsSse(sent), AsSse(o.events), StreamLoop(wire, o.state, sent + o.events != [], arrivals[1..]));
    Regroup(sent, o.events, C.Run(wire.codec, o.state, rest.events).events);
  }

  lemma GoingLoop(wire: Wire, s: C.Conv, sent: seq<ClientEvent>, arrivals: seq<Arrival>, e: StreamEvent, o: C.Outcome)
    requires arrivals != [] && arrivals[0].Frame? && !EndsExchange(e.kind)
    requires DecodeResponsesEvent(wire, arrivals[0].event, arrivals[0].data) == Event(e)
    requires o == C.Step(wire.codec, s, e) && o.err == None
    ensures StreamLoop(wire, s, sent != [], arrivals) ==
            AsSse(o.events) + StreamLoop(wire, o.state, sent + o.events != [], arrivals[1..])
  {
    assert AsSse(o.events) == [] <==> o.events == [];
    assert (sent != [] || AsSse(o.events) != []) == (sent + o.events != []);
  }

  /** The streaming handler writes exactly the result of the converter's run over
      the delivered events. */
  lemma StreamLoopIsRun(wire: Wire, model: string, arrivals: seq<Arrival>)
    ensures var d := Deliver(wire, arrivals);
            var r := C.Run(wire.codec, C.Initial(model), d.events);
            StreamLoop(wire, C.Initial(model), false, arrivals) == StreamResult(wire, r.state, r.events, d.stop)
  {
    LoopIsRun(wire, C.Initial(model), [], arrivals);
    var r := C.Run(wire.codec, C.Initial(model), Deliver(wire, arrivals).events);
    assert [] + r.events == r.events;
    assert AsSse([]) == [];
    assert [] + StreamLoop(wire, C.Initial(model), false, arrivals) ==
        StreamLoop(wire, C.Initial(model), false, arrivals);
  }

  // ---- The outcomes of a streaming exchange ----------------------------------

  /** One JSON error and nothing else. */
  predicate LoneError(w: seq<Written>) {
    |w| == 1 && w[0].JsonError?
  }

  /** A whole message. */
  ghost predicate CompleteStream(w: seq<Written>) {
    exists s :: LegalSentence(s) && w == AsSse(SentenceEvents(s))
  }

  /** The beginning of a message, of at least one event but not all of it. */
  ghost predicate ProperPrefix(events: seq<ClientEvent>) {
    exists s :: LegalSentence(s) && events < SentenceEvents(s)
  }

  /** A message broken off by one error event. */
  ghost predicate BrokenOff(w: seq<Written>) {
    && w != [] && w[|w| - 1].Sse? && w[|w| - 1].event.ErrorEvent?
    && exists events :: events != [] && ProperPrefix(events) && w[..|w| - 1] == AsSse(events)
  }

  /** A message, possibly empty, that just stops. */
  ghost predicate CutShort(w: seq<Written>) {
    exists events :: ProperPrefix(events) && w == AsSse(events)
  }

  /** An exchange that is not cancelled gives the client exactly one of a lone
      JSON error, a complete message, or the beginning of a message and one error
      event; it is complete exactly when the converter's run over the delivered
      events succeeds, so an end of stream or a [DONE] never passes for success.
      A cancelled exchange just stops short, unless the run had already failed. */
  lemma StreamOutcome(wire: Wire, model: string, arrivals: seq<Arrival>)
    ensures var d := Deliver(wire, arrivals);
            var r := C.Run(wire.codec, C.Initial(model), d.events);
            var w := StreamLoop(wire, C.Initial(model), false, arrivals);
            && (CompleteStream(w) <==> C.FinalError(r.state) == None)
            && (!Silent(d.stop) ==> LoneError(w) || CompleteStream(w) || BrokenOff(w))
            && (Silent(d.stop) ==> LoneError(w) || CutShort(w) || BrokenOff(w))
            && !(LoneError(w) && CompleteStream(w)) && !(LoneError(w) && BrokenOff(w))
            && !(CompleteStream(w) && BrokenOff(w)) && !(CompleteStream(w) && CutShort(w))
  {
    var d := Deliver(wire, arrivals);
    var r := C.Run(wire.codec, C.Initial(model), d.events);
    var w := StreamLoop(wire, C.Initial(model), false, arrivals);
    StreamLoopIsRun(wire, model, arrivals);
    EveryRunTied(wire.codec, model, d.events);
    StoppedRun(wire, model, arrivals);
    Exclusive(w);
    if C.FinalError(r.state) == None {
      CompleteResult(wire, r, d.stop);
    } else {
      UnfinishedResult(wire, r, d.stop);
    }
  }

  /** Only a terminal event, or a failure, ends the converter. */
  lemma StoppedRun(wire: Wire, model: string, arrivals: seq<Arrival>)
    ensures var d := Deliver(wire, arrivals);
            var r := C.Run(wire.codec, C.Initial(model), d.events);
            && (d.stop == AtTerminal ==> r.state.terminal)
            && (r.state.terminal && r.state.terminalErr == None ==> d.stop == AtTerminal)
  {
    var d := Deliver(wire, arrivals);
    DeliveryShape(wire, arrivals);
    if d.stop == AtTerminal {
      var n := |d.events| - 1;
      EndingStep(wire.codec, C.Run(wire.codec, C.Initial(model), d.events[..n]).state, d.events[n]);
    } else {
      OngoingRun(wire.codec, model, d.events);
    }
  }

  lemma {:induction false} DeliveryShape(wire: Wire, arrivals: seq<Arrival>)
    ensures var d := Deliver(wire, arrivals);
            var n := |d.events|;
            && (d.stop == AtTerminal ==> n > 0 && EndsExchange(d.events[n - 1].kind))
            && (forall i | 0 <= i < n && (d.stop != AtTerminal || i < n - 1) :: !EndsExchange(d.events[i].kind))
    decreases |arrivals|
  {
    if arrivals != [] {
      DeliveryShape(wire, arrivals[1..]);
    }
  }

  lemma {:induction false} OngoingRun(codec: Codec, model: string, es: seq<StreamEvent>)
    requires forall i | 0 <= i < |es| :: !EndsExchange(es[i].kind)
    ensures var s := C.Run(codec, C.Initial(model), es).state; s.terminal ==> s.terminalErr.Some?
  {
    if es != [] {
      var n := |es| - 1;
      OngoingRun(codec, model, es[..n]);
      ContentStep(codec, C.Run(codec, C.Initial(model), es[..n]).state, es[n]);
    }
  }

  lemma CompleteResult(wire: Wire, r: C.Emit, stop: Stop)
    requires RunTied(r.state, ConsumeAll(Waiting, r.events)) && C.FinalError(r.state) == None
    ensures CompleteStream(StreamResult(wire, r.state, r.events, stop))
  {
    CompleteIffSentence(r.events);
    var s :| LegalSentence(s) && SentenceEvents(s) == r.events;
    assert AsSse(r.events) + [] == AsSse(SentenceEvents(s));
  }

  lemma UnfinishedResult(wire: Wire, r: C.Emit, stop: Stop)
    requires RunTied(r.state, ConsumeAll(Waiting, r.events)) && C.FinalError(r.state) != None
    requires stop == AtTerminal ==> r.state.terminal
    ensures var w := StreamResult(wire, r.state, r.events, stop);
            && (!Silent(stop) ==> LoneError(w) || BrokenOff(w))
            && (Silent(stop) ==> LoneError(w) || CutShort(w) || BrokenOff(w))
  {
    UnfinishedPrefix(r.events);
    var failure := StreamFailure(r.state, stop);
    if failure.Some? {
      ErrorAppended(wire, r.events, failure.value);
    } else {
      assert AsSse(r.events) + [] == AsSse(r.events);
    }
  }

  lemma ErrorAppended(wire: Wire, events: seq<ClientEvent>, failure: Failure)
    requires ProperPrefix(events)
    ensures var w := AsSse(events) + ProcessingError(wire, failure, events != []);
            if events == [] then LoneError(w) else BrokenOff(w)
  {
    var w := AsSse(events) + ProcessingError(wire, failure, events != []);
    if events != [] {
      assert w[..|w| - 1] == AsSse(events);
    }
  }

  lemma UnfinishedPrefix(events: seq<ClientEvent>)
    requires var c := ConsumeAll(Waiting, events); c.Waiting? || c.Streaming?
    ensures ProperPrefix(events)
  {
    UnbrokenIffPrefix(events);
    var s :| LegalSentence(s) && events <= SentenceEvents(s);
    SentenceCompletes(s);
    assert events != SentenceEvents(s);
  }

  lemma Exclusive(w: seq<Written>)
    ensures !(LoneError(w) && CompleteStream(w)) && !(LoneError(w) && BrokenOff(w))
    ensures !(CompleteStream(w) && BrokenOff(w)) && !(CompleteStream(w) && CutShort(w))
  {
    if CompleteStream(w) {
      var s :| LegalSentence(s) && w == AsSse(SentenceEvents(s));
      LastIsStop(s);
      SentenceCompletes(s);
      if CutShort(w) {
        var events :| ProperPrefix(events) && w == AsSse(events);
        SameSse(events, SentenceEvents(s));
        var t :| LegalSentence(t) && events < SentenceEvents(t);
        NotPrefixOfAnother(s, t);
        assert false;
      }
    }
  }

  lemma LastIsStop(s: Sentence)
    ensures var events := SentenceEvents(s);
            events != [] && events[|events| - 1] == MessageStop && AsSse(events)[|events| - 1] == Sse(MessageStop)
  {
  }

  lemma SameSse(a: seq<ClientEvent>, b: seq<ClientEvent>)
    requires AsSse(a) == AsSse(b)
    ensures a == b
  {
    assert |AsSse(a)| == |a| && |AsSse(b)| == |b|;
    forall i | 0 <= i < |a| ensures a[i] == b[i] {
      assert AsSse(a)[i] == AsSse(b)[i];
    }
  }

  /** No legal sentence goes on after another. */
  lemma NotPrefixOfAnother(s: Sentence, t: Sentence)
    requires LegalSentence(s) && LegalSentence(t)
    ensures !(SentenceEvents(s) < SentenceEvents(t))
  {
    if SentenceEvents(s) < SentenceEvents(t) {
      var rest := SentenceEvents(t)[|SentenceEvents(s)|..];
      assert SentenceEvents(t) == SentenceEvents(s) + rest;
      SentenceCompletes(s);
      SentenceCompletes(t);
      ConsumeAllConcat(Waiting, SentenceEvents(s), rest);
      NothingAfterStop(ConsumeAll(Waiting, SentenceEvents(s)), rest);
      assert false;
    }
  }

  lemma {:induction false} NothingAfterStop(c: Client, rest: seq<ClientEvent>)
    requires IsComplete(c) && rest != []
    ensures ConsumeAll(c, rest) == Broken
    decreases |rest|
  {
    var n := |rest| - 1;
    if n > 0 {
      NothingAfterStop(c, rest[..n]);
    } else {
      assert rest[..n] == [];
    }
  }

  // ---- Buffering ---------------------------------------------------------------

  /** The buffering loop is silent only when the client's own request is over. */
  function BufferFailure(stop: Stop): Option<Failure> {
    if stop.AtReadCancel? then Some(ReadError) else StopFailure(stop)
  }

  /** Everything a buffering client is sent. A panic ends the exchange unanswered. */
  ghost function BufferResult(wire: Wire, a: A.Acc, model: string, stop: Stop): seq<Written> {
    if a.err == Some(IndexOutOfRange) then []
    else if a.terminal then BufferComplete(wire, a, model)
    else if BufferFailure(stop).Some? then ProcessingError(wire, BufferFailure(stop).value, false)
    else []
  }

  lemma {:induction false} BufferLoopIsRun(wire: Wire, a: A.Acc, model: string, arrivals: seq<Arrival>)
    requires !a.terminal && a.err == None
    ensures var d := Deliver(wire, arrivals);
            BufferLoop(wire, a, model, arrivals) == BufferResult(wire, A.Run(a, d.events), model, d.stop)
    decreases |arrivals|
  {
    if arrivals != [] && arrivals[0].Frame? && DecodeResponsesEvent(wire, arrivals[0].event, arrivals[0].data).Event? {
      var e := DecodeResponsesEvent(wire, arrivals[0].event, arrivals[0].data).event;
      var d := Deliver(wire, arrivals);
      var next := A.Step(a, e).state;
      AccumulatorStepKinds(a, e);
      DeliverFrame(wire, arrivals, e);
      Accumulation.RunConcat(a, [e], d.events[1..]);
      assert d.events == [e] + d.events[1..];
      AccumulatorRunOne(a, e);
      if next.terminal {
        Accumulation.TerminalIsFinal(next, d.events[1..]);
      } else {
        BufferLoopIsRun(wire, next, model, arrivals[1..]);
      }
    }
  }

  /** A running accumulator ends at a failure or at an event that ends the
      exchange, and nowhere else. */
  lemma AccumulatorStepKinds(a: A.Acc, e: StreamEvent)
    requires !a.terminal && a.err == None
    ensures var o := A.Step(a, e);
            && o.err == o.state.err
            && (o.state.terminal <==> o.err.Some? || EndsExchange(e.kind))
  {
  }

  /** A buffering exchange is answered exactly once, with the message or with an error,
      unless it is cancelled or a delivered event has a negative part index. */
  lemma BufferOutcome(wire: Wire, model: string, arrivals: seq<Arrival>)
    ensures var d := Deliver(wire, arrivals);
            var w := BufferLoop(wire, A.EMPTY_ACC, model, arrivals);
            if d.stop == AtCancel || !Accumulation.NonePanics(d.events) then w == []
            else |w| == 1 && (w[0].JsonMessage? || w[0].JsonError?)
  {
    var d := Deliver(wire, arrivals);
    BufferLoopIsRun(wire, A.EMPTY_ACC, model, arrivals);
    DeliveryShape(wire, arrivals);
    DeliveredSeen(wire, arrivals);
    Accumulation.PanicsExactly(d.events);
    if d.stop == AtTerminal {
      var n := |d.events| - 1;
      TerminalEventEnds(A.Run(A.EMPTY_ACC, d.events[..n]), d.events[n]);
    } else {
      Accumulation.OngoingPanics(d.events);
    }
  }

  /** Every delivered event is one the run looks at. */
  lemma DeliveredSeen(wire: Wire, arrivals: seq<Arrival>)
    ensures var es := Deliver(wire, arrivals).events; Accumulation.UntilEnd(es) == es
    ensures Deliver(wire, arrivals).stop != AtTerminal ==> Accumulation.Ongoing(Deliver(wire, arrivals).events)
  {
    DeliveryShape(wire, arrivals);
  }

  lemma TerminalEventEnds(a: A.Acc, e: StreamEvent)
    requires EndsExchange(e.kind)
    ensures A.Step(a, e).state.terminal
  {
  }

  // ---- The two handlers on one lifecycle -----------------------------------------

  /** One answer for the client in both forms: the same message, or the same error. */
  ghost predicate SameAnswer(streamed: seq<Written>, buffered: seq<Written>) {
    && |buffered| == 1
    && match buffered[0]
       case JsonMessage(message) =>
         (exists events :: streamed == AsSse(events) && Shown(ConsumeAll(Waiting, events), message))
       case JsonError(text) =>
         streamed != [] && (streamed[|streamed| - 1] == JsonError(text)
             || streamed[|streamed| - 1] == Sse(ErrorEvent(text)))
       case Sse(_) => false
  }

  /** The client holds the message in full. */
  predicate Shown(c: Client, message: MessageResponse) {
    && IsComplete(c)
    && c.content == VisibleAll(Agreement.WithoutPlaceholder(message.content))
    && Some(c.stopReason) == message.stopReason && c.usage == message.usage
  }

  /** Whenever the delivered events are a well-formed lifecycle, both handlers give
      their clients the same answer. */
  lemma HandlersAgree(wire: Wire, model: string, arrivals: seq<Arrival>, es: seq<StreamEvent>, m: L.Life,
                      e: StreamEvent)
    requires Deliver(wire, arrivals).events == es + [e]
    requires L.After(wire.codec, es) == Some(m) && L.Ends(wire.codec, m, e)
    ensures SameAnswer(StreamLoop(wire, C.Initial(model), false, arrivals), BufferLoop(wire, A.EMPTY_ACC, model,
            arrivals))
  {
    var d := Deliver(wire, arrivals);
    var r := C.Run(wire.codec, C.Initial(model), d.events);
    var a := A.Run(A.EMPTY_ACC, d.events);
    BothEnd(wire.codec, model, es, m, e);
    AnswersMatch(wire, model, r, a, d.stop);
    StreamLoopIsRun(wire, model, arrivals);
    BufferLoopIsRun(wire, A.EMPTY_ACC, model, arrivals);
  }

  /** The two pipelines at the end of one lifecycle. */
  ghost predicate Corresponds(codec: Codec, model: string, r: C.Emit, a: A.Acc) {
    && a.terminal && a.err == None
    && match ToAnthropic(codec, Some(a.response), model)
       case Err(err) => C.FinalError(r.state) == Some(err) && r.state.terminal
       case Ok(message) => C.FinalError(r.state) == None && Shown(ConsumeAll(Waiting, r.events), message)
  }

  lemma BothEnd(codec: Codec, model: string, es: seq<StreamEvent>, m: L.Life, e: StreamEvent)
    requires L.After(codec, es) == Some(m) && L.Ends(codec, m, e)
    ensures Corresponds(codec, model, C.Run(codec, C.Initial(model), es + [e]), A.Run(A.EMPTY_ACC, es + [e]))
  {
    Agreement.PipelinesAgree(codec, model, es, m, e);
    RunEnds(codec, model, es, e);
  }

  lemma RunEnds(codec: Codec, model: string, es: seq<StreamEvent>, e: StreamEvent)
    requires IsTerminal(e.kind)
    ensures C.Run(codec, C.Initial(model), es + [e]).state.terminal
  {
    assert (es + [e])[..|es|] == es;
    EndingStep(codec, C.Run(codec, C.Initial(model), es).state, e);
  }

  lemma AnswersMatch(wire: Wire, model: string, r: C.Emit, a: A.Acc, stop: Stop)
    requires Corresponds(wire.codec, model, r, a)
    ensures SameAnswer(StreamResult(wire, r.state, r.events, stop), BufferResult(wire, a, model, stop))
  {
    assert AsSse(r.events) + [] == AsSse(r.events);
  }
}
