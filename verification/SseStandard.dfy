/** The decoder against section 9.2.6 of the HTML Living Standard, "Interpreting an
    event stream", and its size limit. */
module SseStandard {
  import opened Text
  import opened Sse

  // ---- The standard, written independently of the decoder -----------------------

  /** The position of the first CR or LF, or the length. */
  function StdLineEnd(s: bytes): (k: nat)
    ensures k <= |s|
  {
    if s == [] || s[0] == CR || s[0] == LF then 0 else 1 + StdLineEnd(s[1..])
  }

  /** Lines end with CRLF, LF or CR; what follows the last end is not a line. */
  function StdLines(s: bytes): seq<bytes>
    decreases |s|
  {
    var k := StdLineEnd(s);
    if k == |s| then []
    else if s[k] == CR && k + 1 < |s| && s[k + 1] == LF then [s[..k]] + StdLines(s[k + 2..])
    else [s[..k]] + StdLines(s[k + 1..])
  }

  datatype Message = Message(event: bytes, data: bytes)

  datatype Buffers = Buffers(event: bytes, data: bytes)

  /** Field name and value of a line as the standard cuts it. */
  ghost predicate Cuts(line: bytes, field: bytes, value: bytes) {
    if COLON !in line then field == line && value == []
    else
      && COLON !in field
      && (|| line == field + [COLON] + [SPACE] + value
          || (line == field + [COLON] + value && (value == [] || value[0] != SPACE)))
  }

  function ProcessField(field: bytes, value: bytes, b: Buffers): Buffers {
    if field == EVENT then b.(event := value)
    else if field == DATA then b.(data := b.data + value + [LF])
    else b
  }

  /** Blank lines dispatch; at the end of the stream pending data is discarded. */
  function Interpret(lines: seq<bytes>, b: Buffers): seq<Message> {
    if lines == [] then []
    else if lines[0] == [] then
      (if b.data == [] then []
       else [Message(if b.event == [] then MESSAGE else b.event, b.data[..|b.data| - 1])])
      + Interpret(lines[1..], Buffers([], []))
    else if lines[0][0] == COLON then Interpret(lines[1..], b)
    else Interpret(lines[1..], ProcessField(FieldOf(lines[0]), ValueOf(lines[0]), b))
  }

  /** Decoding UTF-8 drops one leading byte order mark. */
  function Standard(stream: bytes): seq<Message> {
    Interpret(StdLines(TrimBom(stream)), Buffers([], []))
  }

  // ---- Fields --------------------------------------------------------------------

  lemma {:induction false} FindFirst(line: bytes, b: byte)
    ensures b !in line[..Find(line, b)]
    ensures Find(line, b) == |line| <==> b !in line
  {
    if line != [] && line[0] != b {
      FindFirst(line[1..], b);
      assert line[..Find(line, b)] == [line[0]] + line[1..][..Find(line[1..], b)];
    }
  }

  /** The decoder cuts a line exactly as the standard says, and there is one way to do so. */
  lemma FieldAndValue(line: bytes, field: bytes, value: bytes)
    ensures Cuts(line, field, value) <==> field == FieldOf(line) && value == ValueOf(line)
  {
    FindFirst(line, COLON);
    var k := Find(line, COLON);
    if COLON in line {
      var head, tail := line[..k], line[k + 1..];
      assert line == head + [COLON] + tail;
      assert ValueOf(line) == if tail != [] && tail[0] == SPACE then tail[1..] else tail by {
        assert k + 1 < |line| ==> tail[0] == line[k + 1] && tail[1..] == line[k + 2..];
      }
      if Cuts(line, field, value) {
        CutOnce(line, head, tail, field, if line == field + [COLON] + [SPACE] + value then [SPACE] + value else value);
      } else if field == head && value == ValueOf(line) {
        SpaceBack(line, head, tail);
      }
    } else {
      assert line[..k] == line;
    }
  }

  /** However a line is cut, its field decides what is taken from it: "event", "data", "id"
      without a NUL, or nothing. */
  lemma LineTaken(line: bytes, field: bytes, value: bytes, p: Pending)
    requires Cuts(line, field, value)
    ensures ParseLine(line, p) ==
            if field == [101, 118, 101, 110, 116] then p.(event := value)
            else if field == [100, 97, 116, 97] then p.(data := p.data + [value])
            else if field == [105, 100] && 0 !in value then p.(id := value)
            else p
  {
    FieldAndValue(line, field, value);
  }

  lemma CutOnce(line: bytes, head: bytes, tail: bytes, field: bytes, rest: bytes)
    requires line == head + [COLON] + tail && COLON !in head
    requires line == field + [COLON] + rest || line == field + ([COLON] + rest)
    requires COLON !in field
    ensures head == field && tail == rest
  {
    assert line[|head|] == COLON && line[|field|] == COLON;
    assert forall i | 0 <= i < |head| :: line[i] == head[i];
    assert forall i | 0 <= i < |field| :: line[i] == field[i];
    assert head == line[..|head|] == field;
    assert tail == line[|head| + 1..] == rest;
  }

  lemma SpaceBack(line: bytes, head: bytes, tail: bytes)
    requires line == head + [COLON] + tail
    ensures tail != [] && tail[0] == SPACE ==> line == head + [COLON] + [SPACE] + tail[1..]
  {
  }

  // ---- Lines ---------------------------------------------------------------------

  /** Every CR is the first half of a CRLF. */
  predicate CrOnlyBeforeLf(s: bytes) {
    forall i | 0 <= i < |s| && s[i] == CR :: i + 1 < |s| && s[i + 1] == LF
  }

  lemma {:induction false} StdLineEndIs(s: bytes, k: nat)
    requires k <= |s| && forall i | 0 <= i < k :: s[i] != CR && s[i] != LF
    requires k < |s| ==> s[k] == CR || s[k] == LF
    ensures StdLineEnd(s) == k
  {
    if k > 0 {
      assert forall i | 0 <= i < k - 1 :: s[1..][i] == s[i + 1];
      StdLineEndIs(s[1..], k - 1);
    }
  }

  lemma StdLinesOfBlank()
    ensures StdLines([LF]) == [[]] && StdLines([LF, LF]) == [[], []]
    ensures [LF, LF][1..] == [LF]
  {
    assert [LF][1..] == [] && [LF, LF][1..] == [LF];
  }

  /** How many blank lines the two added line feeds make. */
  function Blanks(s: bytes): seq<bytes> {
    if s == [] || s[|s| - 1] == LF then [[], []] else [[]]
  }

  /** Where the standard cuts off a line: at an LF or a CRLF with no CR or LF before. */
  ghost predicate LineCut(t: bytes, k: nat, n: nat) {
    && k < n <= |t| && (forall i | 0 <= i < k :: t[i] != CR && t[i] != LF)
    && ((t[k] == LF && n == k + 1) || (t[k] == CR && n == k + 2 && t[k + 1] == LF))
  }

  lemma StdCut(t: bytes, k: nat, n: nat)
    requires LineCut(t, k, n)
    ensures StdLines(t) == [t[..k]] + StdLines(t[n..])
  {
    StdLineEndIs(t, k);
  }

  lemma NoEndInside(s: bytes, t: bytes, e: nat)
    requires CrOnlyBeforeLf(s) && e <= |s| <= |t| && s == t[..|s|] && LF !in s[..e]
    ensures forall i | 0 <= i < e :: t[i] != LF && (t[i] == CR ==> i == e - 1 && e < |s|)
  {
    forall i | 0 <= i < e
      ensures s[i] != LF
    {
      assert s[i] == s[..e][i];
    }
    forall i | 0 <= i < e
      ensures t[i] != LF && (t[i] == CR ==> i == e - 1 && e < |s|)
    {
      assert t[i] == t[..|s|][i] == s[i];
      assert s[i] == CR ==> i + 1 < |s| && s[i + 1] == LF;
    }
  }

  /** A line ended by LF or CRLF is cut where the reader cuts it. */
  lemma CutOfLine(s: bytes, tail: bytes) returns (k: nat, n: nat)
    requires CrOnlyBeforeLf(s) && LineEnd(s) < |s|
    ensures var t := s + tail;
            LineCut(t, k, n) && t[..k] == FirstLine(s) && t[n..] == AfterLine(s) + tail
  {
    LineEndIsFirst(s);
    var e, t := LineEnd(s), s + tail;
    NoEndInside(s, t, e);
    n := e + 1;
    assert t[n..] == s[n..] + tail;
    k := if e > 0 && s[..e][e - 1] == CR then e - 1 else e;
    assert t[..k] == s[..e][..k];
  }

  /** A line ended only by the end of the stream ends at the first added line feed. */
  lemma CutOfLast(s: bytes, tail: bytes)
    requires CrOnlyBeforeLf(s) && LineEnd(s) == |s| && tail != [] && tail[0] == LF
    ensures var t := s + tail;
            LineCut(t, |s|, |s| + 1) && t[..|s|] == s && t[|s| + 1..] == tail[1..]
  {
    LineEndIsFirst(s);
    NoEndInside(s, s + tail, |s|);
  }

  lemma EndOfAfter(s: bytes)
    requires LineEnd(s) < |s|
    ensures Blanks(AfterLine(s)) == Blanks(s)
  {
    LineEndIsFirst(s);
    hide LineEnd;
    var e, rest := LineEnd(s), AfterLine(s);
    if rest == [] {
      assert s[|s| - 1] == s[e] == LF;
    } else {
      assert rest[|rest| - 1] == s[|s| - 1];
    }
  }

  lemma {:induction false} SameLines(s: bytes)
    requires CrOnlyBeforeLf(s)
    ensures StdLines(s + [LF, LF]) == Lines(s) + Blanks(s)
    decreases |s|
  {
    var t := s + [LF, LF];
    StdLinesOfBlank();
    if s == [] {
      assert t == [LF, LF];
    } else if LineEnd(s) < |s| {
      var k, n := CutOfLine(s, [LF, LF]);
      StdCut(t, k, n);
      AfterLineShorter(s);
      CrAfterLine(s);
      SameLines(AfterLine(s));
      EndOfAfter(s);
      Regroup([FirstLine(s)], Lines(AfterLine(s)), Blanks(s));
    } else {
      CutOfLast(s, [LF, LF]);
      StdCut(t, |s|, |s| + 1);
      LastLine(s);
    }
  }

  lemma {:induction false} StdLineEndIsFirst(s: bytes)
    ensures CR !in s[..StdLineEnd(s)]
  {
    if s != [] && s[0] != CR && s[0] != LF {
      StdLineEndIsFirst(s[1..]);
      var k := StdLineEnd(s);
      assert s[..k] == [s[0]] + s[1..][..k - 1];
    }
  }

  /** No line of the standard contains a CR. */
  lemma {:induction false} StdLinesHaveNoCr(s: bytes)
    ensures forall i | 0 <= i < |StdLines(s)| :: CR !in StdLines(s)[i]
    decreases |s|
  {
    var k := StdLineEnd(s);
    StdLineEndIsFirst(s);
    if k < |s| {
      if s[k] == CR && k + 1 < |s| && s[k + 1] == LF {
        StdLinesHaveNoCr(s[k + 2..]);
      } else {
        StdLinesHaveNoCr(s[k + 1..]);
      }
    }
  }

  /** A CR with no LF after it stays in the reader's lines. */
  lemma {:induction false} CrSurvives(s: bytes, i: nat) returns (at: nat)
    requires i < |s| && s[i] == CR && (i + 1 < |s| ==> s[i + 1] != LF)
    ensures at < |Lines(s)| && CR in Lines(s)[at]
    decreases |s|
  {
    var e := LineEnd(s);
    LineEndIsFirst(s);
    if i < e {
      at := 0;
      CrInFirst(s, i);
    } else {
      AfterLineShorter(s);
      var next := CrSurvives(AfterLine(s), i - e - 1);
      at := next + 1;
    }
  }

  lemma CrInFirst(s: bytes, i: nat)
    requires i < LineEnd(s) && s[i] == CR && (i + 1 < |s| ==> s[i + 1] != LF)
    ensures CR in FirstLine(s)
  {
    LineEndIsFirst(s);
    var line := FirstLine(s);
    assert i < |line| && line[i] == CR;
  }

  /** Ended by blank lines, a stream has the same lines under both readings exactly when
      every CR precedes an LF. */
  lemma LinesAgree(s: bytes)
    ensures StdLines(s + [LF, LF]) == Lines(s) + Blanks(s) <==> CrOnlyBeforeLf(s)
  {
    if CrOnlyBeforeLf(s) {
      SameLines(s);
    } else {
      var i :| 0 <= i < |s| && s[i] == CR && !(i + 1 < |s| && s[i + 1] == LF);
      var at := CrSurvives(s, i);
      StdLinesHaveNoCr(s + [LF, LF]);
      assert (Lines(s) + Blanks(s))[at] == Lines(s)[at];
    }
  }

  lemma CrAfterLine(s: bytes)
    requires CrOnlyBeforeLf(s) && LineEnd(s) < |s|
    ensures CrOnlyBeforeLf(AfterLine(s))
  {
  }

  lemma LastLine(s: bytes)
    requires s != [] && LineEnd(s) == |s|
    ensures Lines(s) == [s] && Blanks(s) == [[]]
  {
    LineEndIsFirst(s);
    assert s[..|s|] == s;
  }

  // ---- The size limit --------------------------------------------------------------

  /** What the lines up to the k-th measure: each non-blank one counts its length and
      one, a blank one starts anew. */
  function RunSize(lines: seq<bytes>, k: nat, start: nat): nat
    requires k <= |lines|
  {
    if k == 0 then start
    else if lines[k - 1] == [] then 0
    else RunSize(lines, k - 1, start) + |lines[k - 1]| + 1
  }

  ghost predicate Exceeds(lines: seq<bytes>, start: nat, maxBytes: nat) {
    exists k | 0 < k <= |lines| :: RunSize(lines, k, start) > maxBytes
  }

  function StartOf(line: bytes, start: nat): nat {
    if line == [] then 0 else start + |line| + 1
  }

  lemma {:induction false} RunShift(lines: seq<bytes>, k: nat, start: nat)
    requires lines != [] && k < |lines|
    ensures RunSize(lines, k + 1, start) == RunSize(lines[1..], k, StartOf(lines[0], start))
  {
    if k > 0 {
      RunShift(lines, k - 1, start);
    }
  }

  lemma ExceedsShift(lines: seq<bytes>, start: nat, maxBytes: nat)
    requires lines != []
    ensures Exceeds(lines, start, maxBytes) <==>
            StartOf(lines[0], start) > maxBytes || Exceeds(lines[1..], StartOf(lines[0], start), maxBytes)
  {
    var next := StartOf(lines[0], start);
    forall k | 0 <= k < |lines|
      ensures RunSize(lines, k + 1, start) == RunSize(lines[1..], k, next)
    {
      RunShift(lines, k, start);
    }
    if Exceeds(lines, start, maxBytes) {
      var k :| 0 < k <= |lines| && RunSize(lines, k, start) > maxBytes;
      assert RunSize(lines, (k - 1) + 1, start) == RunSize(lines[1..], k - 1, next);
    }
    if next > maxBytes {
      assert RunSize(lines, 0 + 1, start) == next;
    }
    if Exceeds(lines[1..], next, maxBytes) {
      var k :| 0 < k <= |lines[1..]| && RunSize(lines[1..], k, next) > maxBytes;
      assert RunSize(lines, k + 1, start) > maxBytes;
    }
  }

  /** The limit is exact: decoding stops for size exactly when some run of non-blank
      lines measures more than the limit. */
  lemma {:induction false} LimitIsExact(lines: seq<bytes>, p: Pending, size: nat, maxBytes: nat, failing: bool)
    ensures Decode(lines, p, size, maxBytes, failing).end ==
            if Exceeds(lines, size, maxBytes) then Oversized else if failing then ReadFailure else Ended
    decreases |lines|
  {
    if lines != [] {
      ExceedsShift(lines, size, maxBytes);
      if lines[0] == [] {
        LimitIsExact(lines[1..], NOTHING, 0, maxBytes, failing);
      } else if size + |lines[0]| + 1 <= maxBytes {
        LimitIsExact(lines[1..], ParseLine(lines[0], p), size + |lines[0]| + 1, maxBytes, failing);
      }
    }
  }

  /** Frames are kept short: the data of the fields pending, and so of every frame
      returned, is shorter than what was measured. */
  lemma {:induction false} DataIsShort(lines: seq<bytes>, p: Pending, size: nat, maxBytes: nat, failing: bool)
    requires |Buffer(p.data)| <= size <= maxBytes
    ensures forall f | f in Decode(lines, p, size, maxBytes, failing).frames :: |f.data| < maxBytes
    decreases |lines|
  {
    BufferIsJoined(p.data);
    if lines == [] {
    } else if lines[0] == [] {
      DataIsShort(lines[1..], NOTHING, 0, maxBytes, failing);
    } else if size + |lines[0]| + 1 <= maxBytes {
      FieldIsShort(lines[0], p);
      DataIsShort(lines[1..], ParseLine(lines[0], p), size + |lines[0]| + 1, maxBytes, failing);
    }
  }

  lemma FieldIsShort(line: bytes, p: Pending)
    requires line != []
    ensures |Buffer(ParseLine(line, p).data)| <= |Buffer(p.data)| + |line| + 1
  {
    assert (p.data + [ValueOf(line)])[..|p.data|] == p.data;
  }

  /** The standard's data buffer for a list of data values. */
  function Buffer(data: seq<bytes>): bytes {
    if data == [] then [] else Buffer(data[..|data| - 1]) + data[|data| - 1] + [LF]
  }

  lemma {:induction false} BufferIsJoined(data: seq<bytes>)
    ensures data == [] <==> Buffer(data) == []
    ensures data != [] ==> JoinLines(data) == Buffer(data)[..|Buffer(data)| - 1]
    ensures data != [] ==> |JoinLines(data)| + 1 == |Buffer(data)|
  {
    if |data| > 1 {
      var init, last := data[..|data| - 1], data[|data| - 1];
      BufferIsJoined(init);
      assert Buffer(init) == JoinLines(init) + [LF] by {
        assert Buffer(init)[|Buffer(init)| - 1] == LF;
      }
    } else if |data| == 1 {
      assert Buffer(data) == data[0] + [LF];
    }
  }

  // ---- The standard --------------------------------------------------------------

  function Messages(frames: seq<Frame>): seq<Message> {
    if frames == [] then []
    else [Message(frames[0].event, frames[0].data)] + Messages(frames[1..])
  }

  function BuffersOf(p: Pending): Buffers {
    Buffers(p.event, Buffer(p.data))
  }

  lemma ProcessAgrees(line: bytes, p: Pending)
    requires line != []
    ensures BuffersOf(ParseLine(line, p)) ==
            if line[0] == COLON then BuffersOf(p) else ProcessField(FieldOf(line), ValueOf(line), BuffersOf(p))
  {
    assert (p.data + [ValueOf(line)])[..|p.data|] == p.data;
  }

  lemma InterpretLine(lines: seq<bytes>, b: Buffers)
    requires lines != [] && lines[0] != []
    ensures Interpret(lines, b) ==
            Interpret(lines[1..], if lines[0][0] == COLON then b
                                  else ProcessField(FieldOf(lines[0]), ValueOf(lines[0]), b))
  {
  }

  lemma InterpretBlank(lines: seq<bytes>, p: Pending)
    requires lines != [] && lines[0] == []
    ensures Interpret(lines, BuffersOf(p)) ==
            (if p.data == [] then [] else [Message(FrameOf(p).event, FrameOf(p).data)])
            + Interpret(lines[1..], BuffersOf(NOTHING))
  {
    BufferIsJoined(p.data);
  }

  /** Blank lines after the first one change nothing. */
  lemma InterpretBlanks(blanks: seq<bytes>, p: Pending)
    requires blanks == [[]] || blanks == [[], []]
    ensures Interpret(blanks, BuffersOf(p)) ==
            if p.data == [] then [] else [Message(FrameOf(p).event, FrameOf(p).data)]
  {
    InterpretBlank(blanks, p);
    if |blanks| == 2 {
      InterpretBlank(blanks[1..], NOTHING);
    }
  }

  /** Line by line the decoder does what the standard does. */
  lemma {:induction false} DecodeAgrees(lines: seq<bytes>, blanks: seq<bytes>, p: Pending, size: nat, maxBytes: nat)
    requires blanks == [[]] || blanks == [[], []]
    requires Decode(lines, p, size, maxBytes, false).end == Ended
    ensures Messages(Decode(lines, p, size, maxBytes, false).frames) == Interpret(lines + blanks, BuffersOf(p))
    decreases |lines|
  {
    var all := lines + blanks;
    if lines == [] {
      assert all == blanks;
      InterpretBlanks(blanks, p);
    } else {
      assert all[0] == lines[0] && all[1..] == lines[1..] + blanks;
      if lines[0] == [] {
        DecodeAgrees(lines[1..], blanks, NOTHING, 0, maxBytes);
        InterpretBlank(all, p);
      } else {
        DecodeAgrees(lines[1..], blanks, ParseLine(lines[0], p), size + |lines[0]| + 1, maxBytes);
        ProcessAgrees(lines[0], p);
        InterpretLine(all, BuffersOf(p));
      }
    }
  }

  /** The identifiers of a stream's messages: for each the last one among its own lines. */
  function MessageIds(lines: seq<bytes>, id: bytes, hasData: bool): seq<bytes> {
    if lines == [] then if hasData then [id] else []
    else if lines[0] == [] then (if hasData then [id] else []) + MessageIds(lines[1..], [], false)
    else
      var field, value := FieldOf(lines[0]), ValueOf(lines[0]);
      MessageIds(lines[1..], if field == [105, 100] && 0 !in value then value else id,
                 hasData || field == [100, 97, 116, 97])
  }

  function FrameIds(frames: seq<Frame>): seq<bytes> {
    seq(|frames|, i requires 0 <= i < |frames| => frames[i].id)
  }

  lemma FirstFrameId(frame: Frame, frames: seq<Frame>)
    ensures FrameIds([frame] + frames) == [frame.id] + FrameIds(frames)
  {
  }

  lemma LineParsed(line: bytes, p: Pending)
    requires line != []
    ensures var field, value := FieldOf(line), ValueOf(line);
            && ParseLine(line, p).id == (if field == [105, 100] && 0 !in value then value else p.id)
            && (ParseLine(line, p).data != [] <==> p.data != [] || field == [100, 97, 116, 97])
  {
    FieldAndValue(line, FieldOf(line), ValueOf(line));
    LineTaken(line, FieldOf(line), ValueOf(line), p);
  }

  /** Every frame has the identifier of its message. */
  lemma {:induction false} IdsKept(lines: seq<bytes>, p: Pending, size: nat, maxBytes: nat)
    requires Decode(lines, p, size, maxBytes, false).end == Ended
    ensures FrameIds(Decode(lines, p, size, maxBytes, false).frames) == MessageIds(lines, p.id, p.data != [])
    decreases |lines|
  {
    if lines == [] {
      FirstFrameId(FrameOf(p), []);
    } else if lines[0] == [] {
      IdsKept(lines[1..], NOTHING, 0, maxBytes);
      FirstFrameId(FrameOf(p), Decode(lines[1..], NOTHING, 0, maxBytes, false).frames);
    } else {
      LineParsed(lines[0], p);
      IdsKept(lines[1..], ParseLine(lines[0], p), size + |lines[0]| + 1, maxBytes);
    }
  }

  // ---- Byte order marks ------------------------------------------------------------

  /** Trimming the first line is trimming the stream, but for a blank line when the
      stream is nothing but a BOM. */
  lemma ComingIsTrimmed(input: bytes)
    ensures if input == BOM then ComingLines(input, true) == [[]]
            else ComingLines(input, true) == Lines(TrimBom(input))
  {
    LinesUnfold(input, true);
    BomOfLine(input);
    if BOM <= input {
      assert input[..3] == BOM && input == BOM + input[3..];
      SplitLine(input, 3);
      assert FirstLine(input)[3..] == FirstLine(input[3..]);
      if input[3..] == [] {
        assert input == BOM;
      }
    }
  }

  /** Everything a decoder sees on a stream: its frames' messages are the standard's on
      the stream with a final blank line, provided every CR precedes an LF and no run of
      lines is too long. */
  lemma DecoderMeetsStandard(input: bytes, maxBytes: nat)
    requires CrOnlyBeforeLf(input) && !Exceeds(Lines(TrimBom(input)), 0, maxBytes)
    ensures var d := Decode(ComingLines(input, true), NOTHING, 0, maxBytes, false);
            d.end == Ended && Messages(d.frames) == Standard(input + [LF, LF])
  {
    var s := TrimBom(input);
    BlankKeepsBom(input);
    assert CrOnlyBeforeLf(s);
    LinesAgree(s);
    LimitIsExact(Lines(s), NOTHING, 0, maxBytes, false);
    DecodeAgrees(Lines(s), Blanks(s), NOTHING, 0, maxBytes);
    ComingIsTrimmed(input);
    if input == BOM {
      BlankLineHarmless(maxBytes, false);
    }
  }

  lemma BlankKeepsBom(input: bytes)
    ensures TrimBom(input + [LF, LF]) == TrimBom(input) + [LF, LF]
  {
    var t := input + [LF, LF];
    if BOM <= input {
      assert t[..3] == input[..3] && t[3..] == input[3..] + [LF, LF];
    } else {
      assert |input| >= 3 ==> t[..3] == input[..3];
      assert |input| < 3 ==> t[|input|] == LF;
    }
  }

  lemma BlankLineHarmless(maxBytes: nat, failing: bool)
    ensures Decode([[]], NOTHING, 0, maxBytes, failing) == Decode(Lines([]), NOTHING, 0, maxBytes, failing)
  {
    assert [[]][1..] == Lines([]);
  }

  /** Too long a run ends decoding; otherwise the messages are the standard's. */
  ghost predicate Standardly(body: bytes, maxBytes: nat, messages: seq<Message>, end: NextResult) {
    if Exceeds(Lines(TrimBom(body)), 0, maxBytes) then end == Oversized
    else end == Ended && messages == Standard(body + [LF, LF])
  }

  lemma StreamEnd(input: bytes, maxBytes: nat, d: Decoded)
    requires CrOnlyBeforeLf(input)
    requires d == Decode(ComingLines(input, true), NOTHING, 0, maxBytes, false)
    ensures Standardly(input, maxBytes, Messages(d.frames), d.end)
  {
    if Exceeds(Lines(TrimBom(input)), 0, maxBytes) {
      LimitIsExact(Lines(TrimBom(input)), NOTHING, 0, maxBytes, false);
      ComingIsTrimmed(input);
      if input == BOM {
        BlankLineHarmless(maxBytes, false);
      }
    } else {
      DecoderMeetsStandard(input, maxBytes);
    }
  }

  /** The decoder itself, from the first byte to the end of the stream: it behaves
      standardly exactly when it does not refuse a fitting first line for its BOM. */
  method DecodeBody(body: bytes, maxBytes: nat, size: nat) returns (messages: seq<Message>, end: NextResult)
    requires size >= 16 && maxBytes > 0 && CrOnlyBeforeLf(body)
    ensures Standardly(body, maxBytes, messages, end) <==>
            !RefusedForBom(body, maxBytes, size) || Exceeds(Lines(TrimBom(body)), 0, maxBytes)
  {
    var d := DecodeStream(body, maxBytes, size, false);
    BomRefusalExactly(body, maxBytes, size);
    messages, end := Messages(d.frames), d.end;
  }

  /** The first line begins with a BOM and a piece of it ends beyond the limit. */
  ghost predicate RefusedForBom(body: bytes, maxBytes: nat, size: nat)
    requires size >= 16
  {
    BOM <= body && AnyBeyond(Boundaries(body, 0, size), maxBytes)
  }

  lemma BomRefusalExactly(body: bytes, maxBytes: nat, size: nat)
    requires size >= 16 && CrOnlyBeforeLf(body)
    ensures var d := WholeStream(body, maxBytes, size, false);
            Standardly(body, maxBytes, Messages(d.frames), d.end) <==>
            !RefusedForBom(body, maxBytes, size) || Exceeds(Lines(TrimBom(body)), 0, maxBytes)
  {
    var decoded := Decode(ComingLines(body, true), NOTHING, 0, maxBytes, false);
    RefusedExactly(body, [], size, maxBytes);
    StreamEnd(body, maxBytes, decoded);
    StreamIs(body, maxBytes, size, WholeStream(body, maxBytes, size, false), decoded);
  }

  lemma StreamIs(body: bytes, maxBytes: nat, size: nat, d: Decoded, decoded: Decoded)
    requires size >= 16 && d == WholeStream(body, maxBytes, size, false)
    requires decoded == Decode(ComingLines(body, true), NOTHING, 0, maxBytes, false)
    ensures d == if BOM <= body && WholeLine(body, [], size, maxBytes).Refused? then Decoded([], Oversized) else decoded
  {
  }

  /** A CR alone ends a line for the standard but not for the decoder. */
  lemma BareCrDiffers()
    ensures var input := DATA + [CR, 120, LF];
            && Decode(ComingLines(input, true), NOTHING, 0, 100, false) == Decoded([], Ended)
            && Standard(input + [LF, LF]) == [Message(MESSAGE, [])]
  {
    var input := DATA + [CR, 120, LF];
    var line := DATA + [CR, 120];
    LineEndIs(input, 6);
    assert input[..6] == line && input[7..] == [];
    assert Lines(input) == [line];
    BareCrIgnored(line);
    BareCrEndsLine(input + [LF, LF]);
  }

  lemma BareCrIgnored(line: bytes)
    requires line == DATA + [CR, 120]
    ensures Decode([line], NOTHING, 0, 100, false) == Decoded([], Ended)
  {
    FindFirst(line, COLON);
    assert FieldOf(line) == line;
    assert [line][1..] == [];
  }

  lemma BareCrEndsLine(t: bytes)
    requires t == DATA + [CR, 120, LF] + [LF, LF]
    ensures Standard(t) == [Message(MESSAGE, [])]
  {
    FirstOfBareCr(t);
    StdTail();
    BareCrMessage();
  }

  lemma FirstOfBareCr(t: bytes)
    requires t == DATA + [CR, 120, LF] + [LF, LF]
    ensures StdLines(t) == [DATA] + StdLines([120, LF, LF, LF]) && TrimBom(t) == t
  {
    StdLineEndIs(t, 4);
    assert t[..4] == DATA && t[5..] == [120, LF, LF, LF];
    assert t[0] == 100;
  }

  lemma StdTail()
    ensures StdLines([120, LF, LF, LF]) == [[120], [], []]
  {
    var t: bytes := [120, LF, LF, LF];
    StdLineEndIs(t, 1);
    assert t[..1] == [120] && t[2..] == [LF, LF];
    StdLinesOfBlank();
  }

  lemma BareCrMessage()
    ensures Interpret([DATA] + [[120], [], []], Buffers([], [])) == [Message(MESSAGE, [])]
  {
    var lines: seq<bytes> := [DATA] + [[120], [], []];
    FindFirst(DATA, COLON);
    FindFirst([120], COLON);
    assert FieldOf(DATA) == DATA && FieldOf([120]) == [120];
    InterpretLine(lines, Buffers([], []));
    assert lines[1..] == [[120], [], []];
    InterpretLine(lines[1..], Buffers([], [LF]));
    assert lines[1..][1..] == [[], []];
    var p := Pending([], [[]], []);
    assert Buffer(p.data) == [LF];
    InterpretBlanks([[], []], p);
  }

  /** The BOM of a long first line counts while the line is read: with the program's own
      buffer the decoder refuses a stream whose lines all fit. */
  lemma BomLineRefused()
    ensures var input := BOM + seq(4094, _ => COLON) + [LF];
            && RefusedForBom(input, 4095, BUFFER_SIZE)
            && !Exceeds(Lines(TrimBom(input)), 0, 4095)
            && CrOnlyBeforeLf(input)
  {
    var colons: bytes := seq(4094, _ => COLON);
    var input := BOM + colons + [LF];
    LineEndIs(input, 4097);
    assert input[4095] == COLON;
    assert Boundaries(input, 0, BUFFER_SIZE)[0] == 4096;
    assert input[3..] == colons + [LF];
    LineEndIs(input[3..], 4094);
    assert input[3..][..4094] == colons && input[3..][4095..] == [];
    assert Lines(input[3..]) == [colons];
    forall k | 0 < k <= 1
      ensures RunSize([colons], k, 0) <= 4095
    {
    }
  }
}
