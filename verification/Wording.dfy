/** What a client is told when an exchange goes wrong, word for word: from the fields of
    the upstream event that says so, or by the reason the exchange stopped. */
module Wording {
  import opened Text
  import opened Protocol
  import opened Blocks
  import opened Outcomes
  import opened Accumulation
  import opened Chunking
  import opened Handler
  import opened HandlerOutcome
  import opened Endings
  import C = Converter
  import A = Accumulator

  /** An upstream error has its public wording; every other error has one text. */
  function Words(wire: Wire, err: Error): string {
    match err
    case Upstream(code, message) => wire.public(code, message)
    case _ => "Upstream response stream failed"
  }

  function StopWords(stop: Stop): string {
    if stop.AtTimeout? then "Upstream response timed out" else "Upstream response stream failed"
  }

  /** Before anything was shown an error is a JSON error, afterwards an event. */
  function Told(shown: seq<ClientEvent>, text: string): seq<Written> {
    [if shown == [] then JsonError(text) else Sse(ErrorEvent(text))]
  }

  /** What a stream that was shown this much is told when it stops with the converter so. */
  function StreamTold(wire: Wire, s: C.Conv, shown: seq<ClientEvent>, stop: Stop): seq<Written> {
    if s.terminal && s.terminalErr.Some? then Told(shown, Words(wire, s.terminalErr.value))
    else if s.terminal || stop.AtCancel? || stop.AtReadCancel? then []
    else Told(shown, StopWords(stop))
  }

  /** The one answer of a buffering exchange, if there is one. */
  function BufferTold(wire: Wire, a: A.Acc, model: string, stop: Stop): seq<Written> {
    if a.err == Some(IndexOutOfRange) || (!a.terminal && stop.AtCancel?) then []
    else if a.err.Some? then [JsonError(Words(wire, a.err.value))]
    else if !a.terminal then [JsonError(StopWords(stop))]
    else
      match ToAnthropic(wire.codec, Some(a.response), model)
      case Ok(message) => [JsonMessage(message)]
      case Err(err) => [JsonError(Words(wire, err))]
  }

  lemma StreamResultIsTold(wire: Wire, s: C.Conv, shown: seq<ClientEvent>, stop: Stop)
    requires stop == AtTerminal ==> s.terminal
    ensures StreamResult(wire, s, shown, stop) == AsSse(shown) + StreamTold(wire, s, shown, stop)
  {
  }

  lemma BufferResultIsTold(wire: Wire, a: A.Acc, model: string, stop: Stop)
    requires (a.err.Some? ==> a.terminal) && (stop == AtTerminal ==> a.terminal)
    ensures BufferResult(wire, a, model, stop) == BufferTold(wire, a, model, stop)
  {
  }

  /** A streaming client is sent what the converter emits and then is told what went wrong. */
  lemma StreamIsTold(wire: Wire, model: string, arrivals: seq<Arrival>)
    ensures var d := Deliver(wire, arrivals);
            var r := C.Run(wire.codec, C.Initial(model), d.events);
            StreamLoop(wire, C.Initial(model), false, arrivals) ==
            AsSse(r.events) + StreamTold(wire, r.state, r.events, d.stop)
  {
    var d := Deliver(wire, arrivals);
    var r := C.Run(wire.codec, C.Initial(model), d.events);
    StreamLoopIsRun(wire, model, arrivals);
    StoppedRun(wire, model, arrivals);
    StreamResultIsTold(wire, r.state, r.events, d.stop);
  }

  /** A buffering client is sent one message or is told what went wrong. */
  lemma BufferIsTold(wire: Wire, model: string, arrivals: seq<Arrival>)
    ensures var d := Deliver(wire, arrivals);
            BufferLoop(wire, A.EMPTY_ACC, model, arrivals) ==
            BufferTold(wire, A.Run(A.EMPTY_ACC, d.events), model, d.stop)
  {
    var d := Deliver(wire, arrivals);
    BufferLoopIsRun(wire, A.EMPTY_ACC, model, arrivals);
    DeliveryShape(wire, arrivals);
    EveryRunSimulates(wire.codec, model, d.events);
    if d.stop == AtTerminal {
      var n := |d.events| - 1;
      TerminalEventEnds(A.Run(A.EMPTY_ACC, d.events[..n]), d.events[n]);
    }
    BufferResultIsTold(wire, A.Run(A.EMPTY_ACC, d.events), model, d.stop);
  }

  /** An error event, a failed response or a response completed as failed reaches the client
      with the code and message it carries, in both forms. */
  lemma BadEndReachesClient(wire: Wire, model: string, arrivals: seq<Arrival>, es: seq<StreamEvent>, e: StreamEvent)
    requires Deliver(wire, arrivals).events == es + [e] && EndsBadly(e)
    ensures var r := C.Run(wire.codec, C.Initial(model), es);
            var text := wire.public(CodeTold(e), MessageTold(e));
            && (!r.state.terminal ==>
                  StreamLoop(wire, C.Initial(model), false, arrivals) == AsSse(r.events) + Told(r.events, text))
            && (NonePanics(es) ==> BufferLoop(wire, A.EMPTY_ACC, model, arrivals) == [JsonError(text)])
  {
    var d := Deliver(wire, arrivals);
    DeliveryShape(wire, arrivals);
    OngoingFront(d.events, es, e);
    StreamIsTold(wire, model, arrivals);
    BufferIsTold(wire, model, arrivals);
    var r := C.Run(wire.codec, C.Initial(model), es);
    if !r.state.terminal {
      StreamEndsBadly(wire, model, es, e, d.stop);
    }
    if NonePanics(es) {
      BufferEndsBadly(wire, model, es, e, d.stop);
    }
  }

  lemma StreamEndsBadly(wire: Wire, model: string, es: seq<StreamEvent>, e: StreamEvent, stop: Stop)
    requires EndsBadly(e) && !C.Run(wire.codec, C.Initial(model), es).state.terminal
    ensures var before := C.Run(wire.codec, C.Initial(model), es).events;
            var r := C.Run(wire.codec, C.Initial(model), es + [e]);
            && r.events == before
            && StreamTold(wire, r.state, r.events, stop) == Told(before, wire.public(CodeTold(e), MessageTold(e)))
  {
    var before := C.Run(wire.codec, C.Initial(model), es);
    assert (es + [e])[..|es|] == es;
    BadEndTold(wire.codec, before.state, A.EMPTY_ACC, e);
    Regroup(before.events, [], []);
  }

  lemma BufferEndsBadly(wire: Wire, model: string, es: seq<StreamEvent>, e: StreamEvent, stop: Stop)
    requires EndsBadly(e) && Ongoing(es) && NonePanics(es)
    ensures BufferTold(wire, A.Run(A.EMPTY_ACC, es + [e]), model, stop) ==
            [JsonError(wire.public(CodeTold(e), MessageTold(e)))]
  {
    assert (es + [e])[..|es|] == es;
    OngoingPanics(es);
    BadEndTold(wire.codec, C.Initial(model), A.Run(A.EMPTY_ACC, es), e);
  }

  lemma OngoingFront(events: seq<StreamEvent>, es: seq<StreamEvent>, e: StreamEvent)
    requires events == es + [e]
    requires forall i | 0 <= i < |es| :: !EndsExchange(events[i].kind)
    ensures Ongoing(es)
  {
    assert forall i | 0 <= i < |es| :: es[i] == events[i];
  }
}
