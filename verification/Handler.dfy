/** The two response handlers: they read frames until something ends the
    exchange, drive the converter or the accumulator, and write to the client. */
module Handler {
  import opened Text
  import opened Protocol
  import opened Blocks
  import C = Converter
  import A = Accumulator

  /** What waiting for the next frame can bring. Cancelled says that the client's own
      request is over; ReadCancelled that the read failed with a context error while the
      request lives, which only the streaming loop passes over in silence. */
  datatype Arrival =
    | Frame(event: string, data: string)
    | EndOfStream
    | ReadFailed
    | ReadCancelled
    | TimedOut
    | Cancelled

  datatype Written =
    | Sse(event: ClientEvent)
    | JsonError(message: string)
    | JsonMessage(response: MessageResponse)

  /** What ends an exchange unsuccessfully. */
  datatype Failure =
    | Protocol(error: Error)
    | Malformed
    | ReadError
    | IdleTimeout

  /** The surroundings: the JSON codec and decoder, and the wording of an upstream
      error for the client. */
  datatype Wire = Wire(codec: Codec, unmarshal: string -> Option<StreamEvent>, public: (string, string) -> string)

  // ---- Decoding a frame ------------------------------------------------------

  datatype Decoded = DoneSentinel | Undecodable | Event(event: StreamEvent)

  function KindNamed(name: string): EventKind {
    if !EndingNamed(name).OtherKind? then EndingNamed(name)
    else if !ItemNamed(name).OtherKind? then ItemNamed(name)
    else FragmentNamed(name)
  }

  function EndingNamed(name: string): EventKind {
    if name == "error" then ErrorKind
    else if name == "response.failed" then FailedKind
    else if name == "response.created" then CreatedKind
    else if name == "response.completed" then CompletedKind
    else if name == "response.done" then DoneKind
    else if name == "response.incomplete" then IncompleteKind
    else OtherKind(name)
  }

  function ItemNamed(name: string): EventKind {
    if name == "response.output_item.added" then ItemAdded
    else if name == "response.output_item.done" then ItemDone
    else if name == "response.output_text.delta" then TextDeltaKind
    else if name == "response.output_text.done" then TextDoneKind
    else if name == "response.function_call_arguments.delta" then ArgumentsDelta
    else if name == "response.function_call_arguments.done" then ArgumentsDone
    else OtherKind(name)
  }

  function FragmentNamed(name: string): EventKind {
    if name == "response.custom_tool_call_input.delta" then CustomInputDelta
    else if name == "response.custom_tool_call_input.done" then CustomInputDone
    else if name == "response.reasoning_summary_text.delta" then SummaryDelta
    else if name == "response.reasoning_text.delta" then ReasoningTextDelta
    else if name == "response.reasoning_summary_text.done" then SummaryDone
    else if name == "response.reasoning_text.done" then ReasoningTextDone
    else OtherKind(name)
  }

  /** The payload's own type counts; the event field stands in when it has none. */
  function DecodeResponsesEvent(wire: Wire, event: string, data: string): Decoded {
    if TrimSpace(data) == "[DONE]" then DoneSentinel
    else
      var payload := wire.unmarshal(data);
      if payload.None? then Undecodable
      else if payload.value.kind != OtherKind("") then Event(payload.value)
      else if event != "" && event != "message" then Event(payload.value.(kind := KindNamed(event)))
      else Undecodable
  }

  function FailureMessage(wire: Wire, failure: Failure): string {
    match failure
    case IdleTimeout => "Upstream response timed out"
    case Protocol(Upstream(code, message)) => wire.public(code, message)
    case _ => "Upstream response stream failed"
  }

  function ProcessingError(wire: Wire, failure: Failure, started: bool): seq<Written> {
    if started then [Sse(ErrorEvent(FailureMessage(wire, failure)))] else [JsonError(FailureMessage(wire, failure))]
  }

  function AsSse(events: seq<ClientEvent>): seq<Written> {
    seq(|events|, i requires 0 <= i < |events| => Sse(events[i]))
  }

  // ---- The streaming loop ----------------------------------------------------

  /** What one frame makes the streaming loop write, and the converter it goes on
      with, if it goes on. */
  datatype Handled = Handled(written: seq<Written>, next: Option<C.Conv>)

  function StreamFrame(wire: Wire, s: C.Conv, started: bool, event: string, data: string): Handled {
    match DecodeResponsesEvent(wire, event, data)
    case DoneSentinel => Handled(StreamEnd(wire, s, started), None)
    case Undecodable => Handled(ProcessingError(wire, Malformed, started), None)
    case Event(e) =>
      var o := C.Step(wire.codec, s, e);
      if o.err.Some? then Handled(ProcessingError(wire, Protocol(o.err.value), started), None)
      else Handled(AsSse(o.events), if EndsExchange(e.kind) then None else Some(o.state))
  }

  function StreamArrival(wire: Wire, s: C.Conv, started: bool, arrival: Arrival): Handled {
    match arrival
    case Cancelled => Handled([], None)
    case ReadCancelled => Handled([], None)
    case EndOfStream => Handled(StreamEnd(wire, s, started), None)
    case ReadFailed => Handled(ProcessingError(wire, ReadError, started), None)
    case TimedOut => Handled(ProcessingError(wire, IdleTimeout, started), None)
    case Frame(event, data) => StreamFrame(wire, s, started, event, data)
  }

  /** The next arrival; once the body is over there is only its end. */
  function FirstOf(arrivals: seq<Arrival>): Arrival {
    if arrivals == [] then EndOfStream else arrivals[0]
  }

  /** Everything written from a loop head on. */
  function StreamLoop(wire: Wire, s: C.Conv, started: bool, arrivals: seq<Arrival>): seq<Written>
    decreases |arrivals|
  {
    var handled := StreamArrival(wire, s, started, FirstOf(arrivals));
    if handled.next.Some? && arrivals != []
    then handled.written + StreamLoop(wire, handled.next.value, started || handled.written != [], arrivals[1..])
    else handled.written
  }

  /** The upstream body is over: success only if the converter says so. */
  function StreamEnd(wire: Wire, s: C.Conv, started: bool): seq<Written> {
    var err := C.FinalError(s);
    if err.Some? then ProcessingError(wire, Protocol(err.value), started) else []
  }

  // ---- The buffering loop ----------------------------------------------------

  ghost function BufferLoop(wire: Wire, a: A.Acc, model: string, arrivals: seq<Arrival>): seq<Written>
    decreases |arrivals|
  {
    if arrivals == [] then BufferEnd(wire, a)
    else
      match arrivals[0]
      case Cancelled => []
      case EndOfStream => BufferEnd(wire, a)
      case ReadFailed => ProcessingError(wire, ReadError, false)
      case ReadCancelled => ProcessingError(wire, ReadError, false)
      case TimedOut => ProcessingError(wire, IdleTimeout, false)
      case Frame(event, data) =>
        match DecodeResponsesEvent(wire, event, data)
        case DoneSentinel => BufferEnd(wire, a)
        case Undecodable => ProcessingError(wire, Malformed, false)
        case Event(e) =>
          var o := A.Step(a, e);
          if o.err == Some(IndexOutOfRange) then []
          else if o.err.Some? then ProcessingError(wire, Protocol(o.err.value), false)
          else if EndsExchange(e.kind) then BufferComplete(wire, o.state, model)
          else BufferLoop(wire, o.state, model, arrivals[1..])
  }

  function BufferEnd(wire: Wire, a: A.Acc): seq<Written> {
    var final := A.Final(a);
    if final.Err? then ProcessingError(wire, Protocol(final.error), false) else []
  }

  function BufferComplete(wire: Wire, a: A.Acc, model: string): seq<Written> {
    var final := A.Final(a);
    if final.Err? then ProcessingError(wire, Protocol(final.error), false)
    else
      var message := ToAnthropic(wire.codec, Some(final.value), model);
      if message.Err? then ProcessingError(wire, Protocol(message.error), false) else [JsonMessage(message.value)]
  }

  // ---- The handlers themselves -----------------------------------------------

  /** The frames of the upstream body, one at a time; once they are over, every
      further wait finds the end of the stream. */
  class FrameSource {
    var rest: seq<Arrival>

    constructor (arrivals: seq<Arrival>)
      ensures rest == arrivals
    {
      rest := arrivals;
    }

    method Next() returns (arrival: Arrival)
      modifies this
      ensures arrival == FirstOf(old(rest)) && rest == RestOf(old(rest))
    {
      if rest == [] {
        return EndOfStream;
      }
      arrival := rest[0];
      rest := rest[1..];
    }
  }

  class ResponseWriter {
    var written: seq<Written>

    constructor ()
      ensures written == []
    {
      written := [];
    }

    method Write(w: Written)
      modifies this
      ensures written == old(written) + [w]
    {
      written := written + [w];
    }

    method WriteProcessingError(wire: Wire, failure: Failure, started: bool)
      modifies this
      ensures written == old(written) + ProcessingError(wire, failure, started)
    {
      if started {
        Write(Sse(ErrorEvent(FailureMessage(wire, failure))));
      } else {
        Write(JsonError(FailureMessage(wire, failure)));
      }
    }
  }

  method StreamResponse(wire: Wire, writer: ResponseWriter, source: FrameSource, model: string)
    modifies writer, source
    ensures writer.written == old(writer.written) + StreamLoop(wire, C.Initial(model), false, old(source.rest))
  {
    var converter := new C.ResponsesStreamConverter(wire.codec, model);
    var started, more := false, true;
    ghost var all := writer.written + StreamLoop(wire, C.Initial(model), false, source.rest);
    while more
      invariant fresh(converter) && converter.codec == wire.codec
      invariant converter.active == null || fresh(converter.active)
      invariant all == writer.written + if more then StreamLoop(wire, converter.State(), started, source.rest) else []
      decreases more, |source.rest|
    {
      LoopTurn(wire, writer.written, converter.State(), started, source.rest);
      var arrival := source.Next();
      more, started := HandleArrival(wire, writer, converter, started, arrival);
    }
  }

  function RestOf(arrivals: seq<Arrival>): seq<Arrival> {
    if arrivals == [] then [] else arrivals[1..]
  }

  function AfterTurn(wire: Wire, handled: Handled, started: bool, rest: seq<Arrival>): seq<Written> {
    if handled.next.Some? then StreamLoop(wire, handled.next.value, started || handled.written != [], rest) else []
  }

  /** One turn writes what its arrival calls for and leaves the rest to the loop. */
  lemma LoopTurn(wire: Wire, before: seq<Written>, s: C.Conv, started: bool, arrivals: seq<Arrival>)
    ensures var handled := StreamArrival(wire, s, started, FirstOf(arrivals));
            before + StreamLoop(wire, s, started, arrivals) ==
            before + handled.written + AfterTurn(wire, handled, started, RestOf(arrivals))
  {
    var handled := StreamArrival(wire, s, started, FirstOf(arrivals));
    var rest := AfterTurn(wire, handled, started, RestOf(arrivals));
    assert StreamLoop(wire, s, started, arrivals) == handled.written + rest by {
      Regroup(handled.written, rest, []);
    }
    Regroup(before, handled.written, rest);
  }

  /** One turn of the streaming loop. */
  method HandleArrival(wire: Wire, writer: ResponseWriter, converter: C.ResponsesStreamConverter, wasStarted: bool,
                       arrival: Arrival)
    returns (more: bool, started: bool)
    requires converter.codec == wire.codec
    modifies writer, converter, converter.active
    ensures converter.active == old(converter.active) || converter.active == null || fresh(converter.active)
    ensures IsHandled(StreamArrival(wire, old(converter.State()), wasStarted, arrival),
                      old(writer.written), writer.written, more, converter.State(), wasStarted, started)
  {
    more, started := false, wasStarted;
    match arrival {
      case Cancelled =>
      case ReadCancelled =>
      case EndOfStream => FinishStream(wire, writer, converter, started);
      case ReadFailed => writer.WriteProcessingError(wire, ReadError, started);
      case TimedOut => writer.WriteProcessingError(wire, IdleTimeout, started);
      case Frame(name, data) => more, started := HandleFrame(wire, writer, converter, started, name, data);
    }
  }

  /** What was written, whether the loop goes on, and with which converter. */
  ghost predicate IsHandled(handled: Handled, before: seq<Written>, after: seq<Written>, more: bool, s: C.Conv,
                            wasStarted: bool, started: bool) {
    && after == before + handled.written
    && more == handled.next.Some?
    && (more ==> s == handled.next.value && started == (wasStarted || handled.written != []))
  }

  /** One frame of the streaming loop. */
  method HandleFrame(wire: Wire, writer: ResponseWriter, converter: C.ResponsesStreamConverter, wasStarted: bool,
                     name: string, data: string)
    returns (more: bool, started: bool)
    requires converter.codec == wire.codec
    modifies writer, converter, converter.active
    ensures converter.active == old(converter.active) || converter.active == null || fresh(converter.active)
    ensures IsHandled(StreamFrame(wire, old(converter.State()), wasStarted, name, data),
                      old(writer.written), writer.written, more, converter.State(), wasStarted, started)
  {
    more, started := false, wasStarted;
    match DecodeResponsesEvent(wire, name, data) {
      case DoneSentinel => FinishStream(wire, writer, converter, started);
      case Undecodable => writer.WriteProcessingError(wire, Malformed, started);
      case Event(event) =>
        var events, err := converter.Process(event);
        if err.Some? {
          writer.WriteProcessingError(wire, Protocol(err.value), started);
          return;
        }
        started := WriteEvents(writer, events, started);
        more := !EndsExchange(event.kind);
    }
  }

  method FinishStream(wire: Wire, writer: ResponseWriter, converter: C.ResponsesStreamConverter, started: bool)
    modifies writer
    ensures writer.written == old(writer.written) + StreamEnd(wire, converter.State(), started)
  {
    var err := converter.Finalize();
    if err.Some? {
      writer.WriteProcessingError(wire, Protocol(err.value), started);
    }
  }

  method WriteEvents(writer: ResponseWriter, events: seq<ClientEvent>, wasStarted: bool) returns (started: bool)
    modifies writer
    ensures writer.written == old(writer.written) + AsSse(events)
    ensures started == (wasStarted || events != [])
  {
    started := wasStarted;
    for i := 0 to |events|
      invariant writer.written == old(writer.written) + AsSse(events[..i])
      invariant started == (wasStarted || i > 0)
    {
      if !started {
        started := true;
      }
      writer.Write(Sse(events[i]));
      assert AsSse(events[..i + 1]) == AsSse(events[..i]) + [Sse(events[i])];
    }
    assert events[..|events|] == events;
  }

  method NonStreamResponse(wire: Wire, writer: ResponseWriter, source: FrameSource, model: string)
    modifies writer, source
    ensures writer.written == old(writer.written) + BufferLoop(wire, A.EMPTY_ACC, model, old(source.rest))
  {
    var accumulator := new A.ResponseAccumulator();
    ghost var all := BufferLoop(wire, A.EMPTY_ACC, model, source.rest);
    while true
      invariant fresh(accumulator) && writer.written == old(writer.written)
      invariant BufferLoop(wire, accumulator.State(), model, source.rest) == all
      decreases |source.rest|
    {
      var arrival := source.Next();
      match arrival {
        case Cancelled =>
          return;
        case EndOfStream =>
          FinishBuffer(wire, writer, accumulator);
          return;
        case ReadFailed =>
          writer.WriteProcessingError(wire, ReadError, false);
          return;
        case ReadCancelled =>
          writer.WriteProcessingError(wire, ReadError, false);
          return;
        case TimedOut =>
          writer.WriteProcessingError(wire, IdleTimeout, false);
          return;
        case Frame(name, data) =>
          match DecodeResponsesEvent(wire, name, data) {
            case DoneSentinel =>
              FinishBuffer(wire, writer, accumulator);
              return;
            case Undecodable =>
              writer.WriteProcessingError(wire, Malformed, false);
              return;
            case Event(event) =>
              var err := accumulator.Process(event);
              if err == Some(IndexOutOfRange) {
                return;
              }
              if err.Some? {
                writer.WriteProcessingError(wire, Protocol(err.value), false);
                return;
              }
              if EndsExchange(event.kind) {
                CompleteBuffer(wire, writer, accumulator, model);
                return;
              }
          }
      }
    }
  }

  method FinishBuffer(wire: Wire, writer: ResponseWriter, accumulator: A.ResponseAccumulator)
    modifies writer
    ensures writer.written == old(writer.written) + BufferEnd(wire, accumulator.State())
  {
    var final := accumulator.Finalize();
    if final.Err? {
      writer.WriteProcessingError(wire, Protocol(final.error), false);
    }
  }

  method CompleteBuffer(wire: Wire, writer: ResponseWriter, accumulator: A.ResponseAccumulator, model: string)
    modifies writer
    ensures writer.written == old(writer.written) + BufferComplete(wire, accumulator.State(), model)
  {
    var final := accumulator.Finalize();
    if final.Err? {
      writer.WriteProcessingError(wire, Protocol(final.error), false);
      return;
    }
    var message := ResponsesToAnthropic(wire.codec, Some(final.value), model);
    if message.Err? {
      writer.WriteProcessingError(wire, Protocol(message.error), false);
      return;
    }
    writer.Write(JsonMessage(message.value));
  }
}
