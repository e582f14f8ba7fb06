/** Whole exchanges: from the bytes of the upstream body to what the client is sent. */
module Exchange {
  import opened Handler
  import opened HandlerOutcome
  import S = Sse
  import C = Converter
  import Accumulation

  /** The decoder's frames as the handlers wait for them, and then how the body ended:
      a body may fail with a context error or with any other. */
  function ArrivalsOf(utf8: S.bytes -> string, d: S.Decoded, cancels: bool): seq<Arrival> {
    seq(|d.frames|, i requires 0 <= i < |d.frames| => Frame(utf8(d.frames[i].event), utf8(d.frames[i].data)))
    + [if d.end.Ended? then EndOfStream else if d.end.ReadFailure? && cancels then ReadCancelled else ReadFailed]
  }

  lemma {:induction false} NeverCancelled(wire: Wire, arrivals: seq<Arrival>)
    requires forall i | 0 <= i < |arrivals| :: !arrivals[i].Cancelled?
    ensures Deliver(wire, arrivals).stop != AtCancel
    decreases |arrivals|
  {
    if arrivals != [] {
      NeverCancelled(wire, arrivals[1..]);
    }
  }

  /** Exactly one of the three ways an exchange can go. */
  ghost predicate OneOutcome(w: seq<Written>) {
    && (LoneError(w) || CompleteStream(w) || BrokenOff(w))
    && !(LoneError(w) && CompleteStream(w)) && !(LoneError(w) && BrokenOff(w)) && !(CompleteStream(w) && BrokenOff(w))
  }

  /** Only a context error of the read lets the stream just stop. */
  ghost predicate Answered(w: seq<Written>, stop: Stop) {
    if stop.AtReadCancel? then LoneError(w) || CutShort(w) || BrokenOff(w) else OneOutcome(w)
  }

  lemma OutcomeUncancelled(wire: Wire, model: string, arrivals: seq<Arrival>)
    requires forall i | 0 <= i < |arrivals| :: !arrivals[i].Cancelled?
    ensures Answered(StreamLoop(wire, C.Initial(model), false, arrivals), Deliver(wire, arrivals).stop)
  {
    NeverCancelled(wire, arrivals);
    StreamOutcome(wire, model, arrivals);
  }

  /** Whatever bytes upstream sends and however they end, but for a context error of the
      read itself, a streaming client is sent a lone JSON error, a complete message, or the
      beginning of one and a single error event. */
  method StreamBody(wire: Wire, utf8: S.bytes -> string, body: S.bytes, maxBytes: nat, size: nat, failing: bool,
                    cancels: bool, model: string)
    returns (written: seq<Written>)
    requires size >= 16 && maxBytes > 0
    ensures var arrivals := ArrivalsOf(utf8, S.WholeStream(body, maxBytes, size, failing), cancels);
            Answered(written, Deliver(wire, arrivals).stop)
  {
    var writer := new ResponseWriter();
    var d := S.DecodeStream(body, maxBytes, size, failing);
    var source := new FrameSource(ArrivalsOf(utf8, d, cancels));
    ghost var expected := StreamLoop(wire, C.Initial(model), false, source.rest);
    OutcomeUncancelled(wire, model, source.rest);
    StreamResponse(wire, writer, source, model);
    written := writer.written;
    AfterNothing(expected);
  }

  lemma AfterNothing(w: seq<Written>)
    ensures [] + w == w
  {
  }

  /** And a buffering client one JSON message or one JSON error, unless an event up to the
      end has a negative part index, on which the program panics. */
  method BufferBody(wire: Wire, utf8: S.bytes -> string, body: S.bytes, maxBytes: nat, size: nat, failing: bool,
                    cancels: bool, model: string)
    returns (written: seq<Written>)
    requires size >= 16 && maxBytes > 0
    ensures var arrivals := ArrivalsOf(utf8, S.WholeStream(body, maxBytes, size, failing), cancels);
            if !Accumulation.NonePanics(Deliver(wire, arrivals).events) then written == []
            else |written| == 1 && (written[0].JsonMessage? || written[0].JsonError?)
  {
    var writer := new ResponseWriter();
    var d := S.DecodeStream(body, maxBytes, size, failing);
    var source := new FrameSource(ArrivalsOf(utf8, d, cancels));
    NeverCancelled(wire, source.rest);
    BufferOutcome(wire, model, source.rest);
    NonStreamResponse(wire, writer, source, model);
    written := writer.written;
  }
}
