/** What the encoder writes for the client, a decoder reads back. */
module SseRoundTrip {
  import opened Text
  import opened Sse
  import opened SseStandard

  /** One frame: the event's type and its JSON text, which has no line end in it. */
  function EncodeAnthropicSSE(kind: bytes, data: bytes): Result<bytes, string> {
    if kind == [] || LF in kind || CR in kind then Err("encode Anthropic SSE event: invalid type")
    else Ok(Line(EVENT, kind) + [LF] + Line(DATA, data) + [LF] + [LF])
  }

  function Line(field: bytes, value: bytes): bytes {
    field + [COLON] + [SPACE] + value
  }

  predicate Encodable(m: Message) {
    && m.event != [] && LF !in m.event && CR !in m.event
    && LF !in m.data && CR !in m.data
  }

  /** The two lines of a frame and one for each line end. */
  predicate Within(m: Message, maxBytes: nat) {
    |m.event| + |m.data| + 15 <= maxBytes
  }

  function EncodeAll(messages: seq<Message>): bytes
    requires forall i | 0 <= i < |messages| :: Encodable(messages[i])
  {
    if messages == [] then []
    else
      assert Encodable(messages[0]);
      EncodeAnthropicSSE(messages[0].event, messages[0].data).value + EncodeAll(messages[1..])
  }

  function FramesOf(messages: seq<Message>): seq<Frame> {
    seq(|messages|, i requires 0 <= i < |messages| => Frame(messages[i].event, messages[i].data, []))
  }

  lemma LineThen(line: bytes, rest: bytes)
    requires LF !in line && CR !in line
    ensures Lines(line + [LF] + rest) == [line] + Lines(rest)
  {
    var t := line + [LF] + rest;
    assert t[..|line|] == line && t[|line| + 1..] == rest;
    LineEndIs(t, |line|);
    assert line != [] ==> line[|line| - 1] in line;
  }

  lemma LineCuts(field: bytes, value: bytes)
    requires COLON !in field
    ensures FieldOf(Line(field, value)) == field && ValueOf(Line(field, value)) == value
  {
    assert Line(field, value)[|field|] == COLON;
    FieldAndValue(Line(field, value), field, value);
  }

  lemma NoLineEnd(field: bytes, value: bytes)
    requires field == EVENT || field == DATA
    requires LF !in value && CR !in value
    ensures LF !in Line(field, value) && CR !in Line(field, value)
  {
  }

  lemma FrameLines(kind: bytes, data: bytes, rest: bytes)
    requires LF !in kind && CR !in kind && LF !in data && CR !in data
    ensures Lines(Line(EVENT, kind) + [LF] + Line(DATA, data) + [LF] + [LF] + rest) ==
            [Line(EVENT, kind)] + [Line(DATA, data)] + [[]] + Lines(rest)
  {
    NoLineEnd(EVENT, kind);
    NoLineEnd(DATA, data);
    LinesOfThree(Line(EVENT, kind), Line(DATA, data), rest);
  }

  lemma LinesOfThree(e: bytes, d: bytes, rest: bytes)
    requires LF !in e && CR !in e && LF !in d && CR !in d
    ensures Lines(e + [LF] + d + [LF] + [LF] + rest) == [e] + [d] + [[]] + Lines(rest)
  {
    var blank := [] + [LF] + rest;
    var after := d + [LF] + blank;
    LineThen([], rest);
    LineThen(d, blank);
    LineThen(e, after);
    Regroup(e + [LF] + d + [LF], [LF], rest);
    Regroup(e + [LF], d, [LF]);
    Regroup(e + [LF], d + [LF], [LF] + rest);
    assert [] + [LF] == [LF];
    Regroup([e] + [d], [[]], Lines(rest));
    Regroup([e], [d], [[]] + Lines(rest));
  }

  lemma DecodeFieldLine(lines: seq<bytes>, rest: seq<bytes>, field: bytes, value: bytes, p: Pending, size: nat,
                        maxBytes: nat)
    requires lines == [Line(field, value)] + rest && COLON !in field && field != []
    requires size + |Line(field, value)| + 1 <= maxBytes
    ensures Decode(lines, p, size, maxBytes, false) ==
            Decode(rest, ParseLine(Line(field, value), p), size + |Line(field, value)| + 1, maxBytes, false)
  {
    assert lines[1..] == rest;
  }

  lemma ParseFields(kind: bytes, data: bytes)
    ensures ParseLine(Line(DATA, data), ParseLine(Line(EVENT, kind), NOTHING)) == Pending(kind, [data], [])
  {
    LineCuts(EVENT, kind);
    LineCuts(DATA, data);
    assert EVENT != DATA by {
      assert |EVENT| != |DATA|;
    }
    assert Line(EVENT, kind)[0] == 101 && Line(DATA, data)[0] == 100;
    assert [] + [data] == [data];
  }

  /** A frame's three lines decode to the frame. */
  lemma DecodeFrame(kind: bytes, data: bytes, rest: seq<bytes>, maxBytes: nat)
    requires kind != [] && |kind| + |data| + 15 <= maxBytes
    ensures Decode([Line(EVENT, kind)] + [Line(DATA, data)] + [[]] + rest, NOTHING, 0, maxBytes, false) ==
            Prepend(Frame(kind, data, []), Decode(rest, NOTHING, 0, maxBytes, false))
  {
    var e, d := Line(EVENT, kind), Line(DATA, data);
    var last: seq<bytes> := [[]] + rest;
    Regroup([e] + [d], [[]], rest);
    Regroup([e], [d], last);
    DecodeFieldLine([e] + ([d] + last), [d] + last, EVENT, kind, NOTHING, 0, maxBytes);
    DecodeFieldLine([d] + last, last, DATA, data, ParseLine(e, NOTHING), |e| + 1, maxBytes);
    ParseFields(kind, data);
    assert last[1..] == rest;
  }

  /** Every list of frames comes back as it was, followed by the end of the stream. */
  lemma {:induction false} RoundTrip(messages: seq<Message>, maxBytes: nat)
    requires forall i | 0 <= i < |messages| :: Encodable(messages[i]) && Within(messages[i], maxBytes)
    ensures Decode(Lines(EncodeAll(messages)), NOTHING, 0, maxBytes, false) == Decoded(FramesOf(messages), Ended)
  {
    if messages == [] {
      assert Lines([]) == [];
    } else {
      var m, rest := messages[0], EncodeAll(messages[1..]);
      RoundTrip(messages[1..], maxBytes);
      EncodedFirst(messages);
      EncodedFrame(m);
      FramesFirst(messages);
      FrameLines(m.event, m.data, rest);
      DecodeFrame(m.event, m.data, Lines(rest), maxBytes);
    }
  }

  lemma EncodedFirst(messages: seq<Message>)
    requires messages != [] && forall i | 0 <= i < |messages| :: Encodable(messages[i])
    ensures Encodable(messages[0])
    ensures EncodeAll(messages) ==
            EncodeAnthropicSSE(messages[0].event, messages[0].data).value + EncodeAll(messages[1..])
  {
    assert Encodable(messages[0]);
  }

  lemma FramesFirst(messages: seq<Message>)
    requires messages != []
    ensures FramesOf(messages) == [Frame(messages[0].event, messages[0].data, [])] + FramesOf(messages[1..])
  {
  }

  lemma EncodedFrame(m: Message)
    requires Encodable(m)
    ensures EncodeAnthropicSSE(m.event, m.data) ==
            Ok(Line(EVENT, m.event) + [LF] + Line(DATA, m.data) + [LF] + [LF])
  {
  }

  /** The same through a fresh decoder. */
  method SendAndReceive(messages: seq<Message>, maxBytes: nat, size: nat) returns (frames: seq<Frame>, end: NextResult)
    requires size >= 16 && maxBytes > 0
    requires forall i | 0 <= i < |messages| :: Encodable(messages[i]) && Within(messages[i], maxBytes)
    ensures frames == FramesOf(messages) && end == Ended
  {
    var stream := EncodeAll(messages);
    RoundTrip(messages, maxBytes);
    NoBom(messages);
    ComingIsTrimmed(stream);
    var d := DecodeStream(stream, maxBytes, size, false);
    frames, end := d.frames, d.end;
  }

  lemma NoBom(messages: seq<Message>)
    requires forall i | 0 <= i < |messages| :: Encodable(messages[i])
    ensures !(BOM <= EncodeAll(messages))
  {
    if messages != [] {
      assert EncodeAll(messages)[0] == 101;
    }
  }
}
