/** Server-sent events on bytes: the buffered line reader, the decoder and the encoder. */
module Sse {
  import opened Text

  newtype byte = x: int | 0 <= x < 256
  type bytes = seq<byte>

  const LF: byte := 10
  const CR: byte := 13
  const SPACE: byte := 32
  const COLON: byte := 58
  const NUL: byte := 0
  const BOM: bytes := [0xef, 0xbb, 0xbf]
  const EVENT: bytes := [101, 118, 101, 110, 116]
  const DATA: bytes := [100, 97, 116, 97]
  const ID: bytes := [105, 100]
  const MESSAGE: bytes := [109, 101, 115, 115, 97, 103, 101]

  // ---- Lines -----------------------------------------------------------------

  /** The position of the first line feed, or the length. */
  function LineEnd(input: bytes): (k: nat)
    ensures k <= |input|
  {
    if input == [] || input[0] == LF then 0 else 1 + LineEnd(input[1..])
  }

  lemma {:induction false} LineEndIsFirst(input: bytes)
    ensures var k := LineEnd(input); LF !in input[..k] && (k < |input| ==> input[k] == LF)
  {
    if input != [] && input[0] != LF {
      LineEndIsFirst(input[1..]);
      var k := LineEnd(input);
      assert input[..k] == [input[0]] + input[1..][..k - 1];
    }
  }

  function StripCr(line: bytes): bytes {
    if line != [] && line[|line| - 1] == CR then line[..|line| - 1] else line
  }

  /** The first line, without its end. An unterminated last line keeps its CR. */
  function FirstLine(input: bytes): bytes {
    var k := LineEnd(input);
    if k < |input| then StripCr(input[..k]) else input
  }

  function AfterLine(input: bytes): bytes {
    var k := LineEnd(input);
    if k < |input| then input[k + 1..] else []
  }

  function Lines(input: bytes): seq<bytes>
    decreases |input|
  {
    if input == [] then [] else [FirstLine(input)] + Lines(AfterLine(input))
  }

  lemma AfterLineShorter(input: bytes)
    ensures |AfterLine(input)| <= |input|
    ensures input != [] ==> |AfterLine(input)| < |input|
  {
  }

  /** The buffer of a reader made by bufio.NewReader. */
  const BUFFER_SIZE := 4096

  /** What one ReadLine gives: a whole line, or as much of it as fits the buffer
      without parting a CR from its LF. */
  datatype Piece = Piece(fragment: bytes, more: bool, rest: bytes)

  function NextPiece(input: bytes, size: nat): Piece
    requires size >= 16
  {
    if LineEnd(input) < size || |input| < size then Piece(FirstLine(input), false, AfterLine(input))
    else
      var k := if input[size - 1] == CR then size - 1 else size;
      Piece(input[..k], true, input[k..])
  }

  /** A line put together from its pieces; a piece too long ends the attempt. */
  datatype Whole = Refused | Whole(line: bytes, rest: bytes, ended: bool)

  function WholeLine(input: bytes, got: bytes, size: nat, maxBytes: nat): Whole
    requires size >= 16
    decreases |input|
  {
    if input == [] then Whole(got, [], true)
    else
      var piece := NextPiece(input, size);
      if !piece.more then Whole(got + piece.fragment, piece.rest, false)
      else if |got + piece.fragment| > maxBytes then Refused
      else WholeLine(piece.rest, got + piece.fragment, size, maxBytes)
  }

  datatype ReadError = Eof | Failed | TooLarge

  /** bufio.Reader over a body that ends or fails, which it reports in a read of its own
      after its last byte: ReadLine gives a line in pieces no longer than the buffer. */
  class LineReader {
    var rest: bytes
    const size: nat
    const failing: bool

    constructor (body: bytes, size: nat, failing: bool)
      requires size >= 16
      ensures Valid() && rest == body && this.size == size && this.failing == failing
    {
      rest, this.size, this.failing := body, size, failing;
    }

    predicate Valid() {
      size >= 16
    }

    function EndError(): ReadError {
      if failing then Failed else Eof
    }

    method ReadLine() returns (fragment: bytes, more: bool, err: Option<ReadError>)
      requires Valid()
      modifies this
      ensures old(rest) == [] ==> err == Some(EndError()) && fragment == [] && !more && rest == []
      ensures old(rest) != [] ==> err == None && Piece(fragment, more, rest) == NextPiece(old(rest), size)
    {
      if rest == [] {
        return [], false, Some(EndError());
      }
      var k := 0;
      while k < |rest| && k < size && rest[k] != LF
        invariant 0 <= k <= |rest| && k <= size && LF !in rest[..k]
      {
        assert rest[..k + 1] == rest[..k] + [rest[k]];
        k := k + 1;
      }
      PieceAt(rest, k, size);
      if k < |rest| && k < size {
        fragment, more, err := StripCr(rest[..k]), false, None;
        rest := rest[k + 1..];
      } else if k < size {
        fragment, more, err := rest, false, None;
        rest := [];
      } else {
        if rest[k - 1] == CR {
          k := k - 1;
        }
        fragment, more, err := rest[..k], true, None;
        rest := rest[k..];
      }
    }
  }

  lemma PieceAt(input: bytes, k: nat, size: nat)
    requires size >= 16 && k <= |input| && k <= size && LF !in input[..k]
    requires k < |input| && k < size ==> input[k] == LF
    ensures NextPiece(input, size) ==
            if k < size then
              if k < |input| then Piece(StripCr(input[..k]), false, input[k + 1..]) else Piece(input, false, [])
            else if k == |input| || k == size then
              var j := if input[k - 1] == CR then k - 1 else k;
              Piece(input[..j], true, input[j..])
            else NextPiece(input, size)
  {
    if k < size {
      LineEndIs(input, k);
    } else {
      NoEarlierEnd(input, k);
    }
  }

  lemma NoEarlierEnd(input: bytes, k: nat)
    requires k <= |input| && LF !in input[..k]
    ensures LineEnd(input) >= k
  {
    LineEndIsFirst(input);
    var e := LineEnd(input);
    assert forall i | 0 <= i < k :: input[i] == input[..k][i];
  }

  lemma {:induction false} LineEndIs(input: bytes, k: nat)
    requires k <= |input| && LF !in input[..k] && (k < |input| ==> input[k] == LF)
    ensures LineEnd(input) == k
  {
    LineEndIsFirst(input);
    var e := LineEnd(input);
    assert forall i | 0 <= i < k :: input[i] == input[..k][i];
    assert forall i | 0 <= i < e :: input[i] == input[..e][i];
  }

  /** A line can be read in two pieces unless the cut parts a CR from its LF. */
  lemma SplitLine(input: bytes, k: nat)
    requires 0 < k <= |input| && LF !in input[..k]
    requires input[k - 1] == CR ==> k < |input| && input[k] != LF
    ensures FirstLine(input) == input[..k] + FirstLine(input[k..])
    ensures AfterLine(input) == AfterLine(input[k..])
  {
    var tail := input[k..];
    LineEndIsFirst(tail);
    var e := LineEnd(tail);
    EndsTogether(input, k, e);
    if e < |tail| {
      StripAfter(input[..k], tail[..e], input[..k + e]);
    } else {
      assert input == input[..k] + tail;
    }
  }

  lemma EndsTogether(input: bytes, k: nat, e: nat)
    requires k <= |input| && LF !in input[..k]
    requires var tail := input[k..]; e <= |tail| && LF !in tail[..e] && (e < |tail| ==> tail[e] == LF)
    ensures LineEnd(input) == k + e && input[..k + e] == input[..k] + input[k..][..e]
    ensures e < |input[k..]| ==> input[k + e + 1..] == input[k..][e + 1..]
    ensures e == 0 && |input[k..]| > 0 ==> k < |input| && input[k] == LF
  {
    assert input[..k + e] == input[..k] + input[k..][..e];
    LineEndIs(input, k + e);
  }

  /** The CR of a line end is stripped from the last piece, if that has one. */
  lemma StripAfter(head: bytes, tail: bytes, line: bytes)
    requires line == head + tail && (tail == [] ==> head == [] || head[|head| - 1] != CR)
    ensures StripCr(line) == head + StripCr(tail)
  {
    if tail == [] {
      assert line == head;
      assert head + [] == head;
    }
  }

  // ---- Frames ----------------------------------------------------------------

  datatype Frame = Frame(event: bytes, data: bytes, id: bytes)

  /** The fields collected since the last blank line. */
  datatype Pending = Pending(event: bytes, data: seq<bytes>, id: bytes)

  const NOTHING := Pending([], [], [])

  function Find(line: bytes, b: byte): (k: nat)
    ensures k <= |line| && (k < |line| ==> line[k] == b)
  {
    if line == [] || line[0] == b then 0 else 1 + Find(line[1..], b)
  }

  function FieldOf(line: bytes): bytes {
    line[..Find(line, COLON)]
  }

  /** What follows the colon, less one leading space. */
  function ValueOf(line: bytes): bytes {
    var k := Find(line, COLON);
    if k == |line| then []
    else if k + 1 < |line| && line[k + 1] == SPACE then line[k + 2..]
    else line[k + 1..]
  }

  function ParseLine(line: bytes, p: Pending): Pending {
    if line == [] || line[0] == COLON then p
    else
      var field, value := FieldOf(line), ValueOf(line);
      if field == EVENT then p.(event := value)
      else if field == DATA then p.(data := p.data + [value])
      else if field == ID && NUL !in value then p.(id := value)
      else p
  }

  function JoinLines(data: seq<bytes>): bytes {
    if data == [] then []
    else if |data| == 1 then data[0]
    else JoinLines(data[..|data| - 1]) + [LF] + data[|data| - 1]
  }

  function FrameOf(p: Pending): Frame {
    Frame(if p.event == [] then MESSAGE else p.event, JoinLines(p.data), p.id)
  }

  datatype NextResult = Got(frame: Frame) | Ended | ReadFailure | Oversized

  datatype Scanned = Scanned(result: NextResult, rest: seq<bytes>)

  /** What the next frame is, given the lines to come and what the lines since the
      last blank one measured. */
  function Scan(lines: seq<bytes>, p: Pending, size: nat, maxBytes: nat, failing: bool): Scanned
    decreases |lines|
  {
    if lines == [] then
      Scanned(if failing then ReadFailure else if p.data != [] then Got(FrameOf(p)) else Ended, [])
    else if lines[0] == [] then
      if p.data != [] then Scanned(Got(FrameOf(p)), lines[1..])
      else Scan(lines[1..], NOTHING, 0, maxBytes, failing)
    else if size + |lines[0]| + 1 > maxBytes then Scanned(Oversized, [])
    else Scan(lines[1..], ParseLine(lines[0], p), size + |lines[0]| + 1, maxBytes, failing)
  }

  function TrimBom(line: bytes): bytes {
    if BOM <= line then line[3..] else line
  }

  /** The lines a decoder has still to see; only its very first may lose a BOM. */
  function ComingLines(input: bytes, first: bool): seq<bytes> {
    var lines := Lines(input);
    if first && lines != [] then lines[0 := TrimBom(lines[0])] else lines
  }

  const DEFAULT_MAX_BYTES := 16 * 1024 * 1024

  class SSEDecoder {
    const reader: LineReader
    const maxBytes: nat
    var first: bool

    constructor (body: bytes, maxBytes: int, size: nat, failing: bool)
      requires size >= 16
      ensures Valid() && fresh(reader) && first
      ensures reader.rest == body && reader.size == size && reader.failing == failing
      ensures this.maxBytes == if maxBytes <= 0 then DEFAULT_MAX_BYTES else maxBytes
    {
      reader := new LineReader(body, size, failing);
      this.maxBytes := if maxBytes <= 0 then DEFAULT_MAX_BYTES else maxBytes;
      first := true;
    }

    predicate Valid()
      reads reader
    {
      reader.Valid()
    }

    function Coming(): seq<bytes>
      reads this, reader
    {
      ComingLines(reader.rest, first)
    }

    /** A first line is measured with its BOM while it is read, without it afterwards. */
    predicate EarlyRefusal()
      requires Valid()
      reads this, reader
    {
      first && BOM <= reader.rest && WholeLine(reader.rest, [], reader.size, maxBytes).Refused?
    }

    method Next() returns (r: NextResult)
      requires Valid()
      modifies this, reader
      ensures Valid()
      ensures var scanned := Scan(old(Coming()), NOTHING, 0, maxBytes, reader.failing);
              if old(EarlyRefusal()) then r == Oversized
              else r == scanned.result && (r.Got? ==> Coming() == scanned.rest)
      ensures !first
    {
      r := NextFrame(Scan(Coming(), NOTHING, 0, maxBytes, reader.failing), EarlyRefusal());
    }

    /** The loop of Next; all is what the coming lines hold, early whether the first of
        them will be refused. */
    method NextFrame(ghost all: Scanned, ghost early: bool) returns (r: NextResult)
      requires Valid() && early == EarlyRefusal()
      requires all == Scan(Coming(), NOTHING, 0, maxBytes, reader.failing)
      modifies this, reader
      ensures Valid() && !first
      ensures r == if early then Oversized else all.result
      ensures !early && r.Got? ==> Coming() == all.rest
    {
      var p, size := NOTHING, 0;
      while true
        invariant Valid() && size >= 0
        invariant Scan(Coming(), p, size, maxBytes, reader.failing) == all
        invariant early == EarlyRefusal()
        invariant first ==> p == NOTHING && size == 0
        decreases |reader.rest|
      {
        ghost var coming, before, measured := Coming(), p, size;
        var line, err := NextLine();
        if err == Some(TooLarge) {
          ScanTooLong(coming, before, measured, maxBytes, reader.failing, all);
          return Oversized;
        }
        ScanLine(coming, line, Coming(), before, measured, maxBytes, reader.failing, err.Some?, all);
        if |line| > 0 {
          size := size + |line| + 1;
          if size > maxBytes {
            return Oversized;
          }
          p := ParseSSELine(line, p);
        }
        if err == Some(Failed) {
          return ReadFailure;
        }
        if |line| == 0 || err == Some(Eof) {
          if |p.data| > 0 {
            return Got(FrameOf(p));
          }
          p, size := NOTHING, 0;
        }
        if err == Some(Eof) {
          return Ended;
        }
      }
    }

    /** The next line, with the BOM of a first line trimmed. */
    method NextLine() returns (line: bytes, err: Option<ReadError>)
      requires Valid()
      modifies this, reader
      ensures Valid() && !first
      ensures old(EarlyRefusal()) ==> err == Some(TooLarge)
      ensures err == Some(TooLarge) ==>
                old(EarlyRefusal()) || (old(Coming()) != [] && |old(Coming())[0]| > maxBytes)
      ensures err != Some(TooLarge) ==>
                if old(reader.rest) == [] then line == [] && old(Coming()) == [] == Coming()
                else old(Coming()) == [line] + Coming()
      ensures err == None ==> |reader.rest| < |old(reader.rest)|
      ensures err.Some? && err != Some(TooLarge) ==> err == Some(reader.EndError()) && Coming() == []
      ensures err.Some? && err != Some(TooLarge) && line == [] && !old(first) ==> old(Coming()) == []
    {
      LinesUnfold(reader.rest, first);
      AfterLineShorter(reader.rest);
      PiecesMakeLine(reader.rest, [], reader.size, maxBytes);
      BomOfLine(reader.rest);
      assert [] + FirstLine(reader.rest) == FirstLine(reader.rest);
      line, err := ReadWholeLine();
      if first {
        line := TrimBom(line);
        first := false;
      }
      assert [line] + [] == [line];
    }

    /** A whole line; a piece too long already ends the attempt. */
    method ReadWholeLine() returns (line: bytes, err: Option<ReadError>)
      requires Valid()
      modifies reader
      ensures Valid()
      ensures var whole := WholeLine(old(reader.rest), [], reader.size, maxBytes);
              if whole.Refused? then err == Some(TooLarge)
              else line == whole.line && reader.rest == whole.rest
                   && err == if whole.ended then Some(reader.EndError()) else None
    {
      line := [];
      ghost var whole := WholeLine(reader.rest, [], reader.size, maxBytes);
      while true
        invariant Valid()
        invariant WholeLine(reader.rest, line, reader.size, maxBytes) == whole
        decreases |reader.rest|
      {
        PieceShorter(reader.rest, reader.size);
        var fragment, more, e := reader.ReadLine();
        line := line + fragment;
        if e.Some? {
          return line, e;
        }
        if !more {
          return line, None;
        }
        if |line| > maxBytes {
          return [], Some(TooLarge);
        }
      }
    }
  }

  lemma PieceShorter(input: bytes, size: nat)
    requires size >= 16
    ensures input != [] ==> |NextPiece(input, size).rest| < |input|
  {
    if input != [] && !NextPiece(input, size).more {
      AfterLineShorter(input);
    }
  }

  lemma SplitPiece(input: bytes, size: nat)
    requires size >= 16 && input != [] && NextPiece(input, size).more
    ensures var piece := NextPiece(input, size);
            && FirstLine(input) == piece.fragment + FirstLine(piece.rest)
            && AfterLine(input) == AfterLine(piece.rest)
            && piece.fragment != []
  {
    var k := if input[size - 1] == CR then size - 1 else size;
    assert LF !in input[..k] by {
      LineEndIsFirst(input);
      assert input[..k] == input[..LineEnd(input)][..k];
    }
    SplitLine(input, k);
  }

  /** The pieces make up the line, and only a line too long is refused. */
  lemma {:induction false} PiecesMakeLine(input: bytes, got: bytes, size: nat, maxBytes: nat)
    requires size >= 16
    ensures var whole := WholeLine(input, got, size, maxBytes);
            if whole.Refused? then |got| + |FirstLine(input)| > maxBytes
            else
              && whole.line == got + FirstLine(input) && whole.rest == AfterLine(input)
              && (whole.ended ==> whole.rest == [] && (input == [] || whole.line != []))
              && (!whole.ended ==> input != [])
    decreases |input|
  {
    if input != [] && NextPiece(input, size).more {
      var piece := NextPiece(input, size);
      SplitPiece(input, size);
      PieceShorter(input, size);
      PiecesMakeLine(piece.rest, got + piece.fragment, size, maxBytes);
      Regroup(got, piece.fragment, FirstLine(piece.rest));
    }
  }

  /** Where the pieces of the first line end that have more of it to come. */
  function Boundaries(input: bytes, start: nat, size: nat): seq<nat>
    requires size >= 16
    decreases |input|
  {
    if input == [] || !NextPiece(input, size).more then []
    else
      PieceShorter(input, size);
      var piece := NextPiece(input, size);
      var at := start + |piece.fragment|;
      [at] + Boundaries(piece.rest, at, size)
  }

  ghost predicate AnyBeyond(boundaries: seq<nat>, maxBytes: nat) {
    exists k | 0 <= k < |boundaries| :: boundaries[k] > maxBytes
  }

  /** A line is refused exactly when a piece boundary inside it lies beyond the limit. */
  lemma {:induction false} RefusedExactly(input: bytes, got: bytes, size: nat, maxBytes: nat)
    requires size >= 16
    ensures WholeLine(input, got, size, maxBytes).Refused? <==> AnyBeyond(Boundaries(input, |got|, size), maxBytes)
    decreases |input|
  {
    if input != [] && NextPiece(input, size).more {
      var piece := NextPiece(input, size);
      var more := got + piece.fragment;
      PieceShorter(input, size);
      RefusedExactly(piece.rest, more, size, maxBytes);
      PieceRefused(input, got, size, maxBytes, piece, more);
      PieceBounds(input, |got|, size, piece, |more|);
      BeyondLimit(|more|, Boundaries(piece.rest, |more|, size), maxBytes);
    } else {
      WholeTaken(input, got, size, maxBytes);
    }
  }

  lemma PieceRefused(input: bytes, got: bytes, size: nat, maxBytes: nat, piece: Piece, more: bytes)
    requires size >= 16 && input != [] && piece == NextPiece(input, size) && piece.more && more == got + piece.fragment
    ensures WholeLine(input, got, size, maxBytes) ==
            if |more| > maxBytes then Refused else WholeLine(piece.rest, more, size, maxBytes)
  {
  }

  lemma PieceBounds(input: bytes, start: nat, size: nat, piece: Piece, at: nat)
    requires size >= 16 && input != [] && piece == NextPiece(input, size) && piece.more
    requires at == start + |piece.fragment|
    ensures Boundaries(input, start, size) == [at] + Boundaries(piece.rest, at, size)
  {
  }

  lemma WholeTaken(input: bytes, got: bytes, size: nat, maxBytes: nat)
    requires size >= 16 && (input == [] || !NextPiece(input, size).more)
    ensures !WholeLine(input, got, size, maxBytes).Refused? && Boundaries(input, |got|, size) == []
  {
  }

  ghost predicate Between(boundaries: seq<nat>, low: nat, high: nat) {
    forall k | 0 <= k < |boundaries| :: low < boundaries[k] <= high
  }

  /** Every boundary is inside the line. */
  lemma {:induction false} BoundariesInside(input: bytes, start: nat, size: nat)
    requires size >= 16
    ensures Between(Boundaries(input, start, size), start, start + |FirstLine(input)|)
    decreases |input|
  {
    if input != [] && NextPiece(input, size).more {
      var piece := NextPiece(input, size);
      var at := start + |piece.fragment|;
      PieceShorter(input, size);
      SplitPiece(input, size);
      BoundariesInside(piece.rest, at, size);
      PieceBounds(input, start, size, piece, at);
      BetweenFrom(start, at, Boundaries(piece.rest, at, size), start + |FirstLine(input)|);
    } else {
      WholeTaken(input, seq(start, _ => SPACE), size, 0);
    }
  }

  lemma BetweenFrom(start: nat, at: nat, rest: seq<nat>, high: nat)
    requires start < at <= high && Between(rest, at, high)
    ensures Between([at] + rest, start, high)
  {
  }

  lemma BeyondLimit(at: nat, rest: seq<nat>, maxBytes: nat)
    ensures AnyBeyond([at] + rest, maxBytes) <==> at > maxBytes || AnyBeyond(rest, maxBytes)
  {
    var all := [at] + rest;
    if k :| 0 <= k < |rest| && rest[k] > maxBytes {
      assert all[k + 1] > maxBytes;
    }
    if at > maxBytes {
      assert all[0] > maxBytes;
    }
    if k :| 0 <= k < |all| && all[k] > maxBytes {
      assert k > 0 ==> rest[k - 1] > maxBytes;
    }
  }

  lemma BomOfLine(input: bytes)
    ensures BOM <= FirstLine(input) <==> BOM <= input
  {
    LineEndIsFirst(input);
    var e := LineEnd(input);
    assert e < |input| ==> input[e] == LF;
    if BOM <= input {
      assert input[0] == 0xef && input[1] == 0xbb && input[2] == 0xbf;
      NoEarlierEnd(input, 3);
    }
  }

  lemma LinesUnfold(input: bytes, first: bool)
    ensures ComingLines(input, first) ==
            if input == [] then []
            else [if first then TrimBom(FirstLine(input)) else FirstLine(input)] + Lines(AfterLine(input))
  {
    if input != [] {
      TrimHead(FirstLine(input), Lines(AfterLine(input)));
    }
  }

  lemma TrimHead(line: bytes, rest: seq<bytes>)
    ensures ([line] + rest)[0 := TrimBom(([line] + rest)[0])] == [TrimBom(line)] + rest
  {
  }

  /** Where reading a line leads; ended says that the reader has no more. */
  lemma ScanLine(coming: seq<bytes>, line: bytes, rest: seq<bytes>, p: Pending, size: nat, maxBytes: nat,
                 failing: bool, ended: bool, all: Scanned)
    requires coming == [line] + rest || (coming == [] == rest && line == [] && ended)
    requires ended ==> rest == [] && (line == [] ==> coming == [] || p == NOTHING)
    requires Scan(coming, p, size, maxBytes, failing) == all
    ensures line != [] && size + |line| + 1 > maxBytes ==> all.result == Oversized
    ensures line != [] && size + |line| + 1 <= maxBytes ==>
              Settled(rest, ParseLine(line, p), size + |line| + 1, false, maxBytes, failing, ended, all)
    ensures line == [] ==> Settled(rest, p, size, true, maxBytes, failing, ended, all)
  {
    if coming != [] {
      assert coming[0] == line && coming[1..] == rest;
    }
  }

  ghost predicate Settled(rest: seq<bytes>, p: Pending, size: nat, blank: bool, maxBytes: nat, failing: bool,
                          ended: bool, all: Scanned)
  {
    if ended && failing then all.result == ReadFailure
    else if (blank || ended) && p.data != [] then all == Scanned(Got(FrameOf(p)), rest)
    else if ended then all.result == Ended
    else if blank then Scan(rest, NOTHING, 0, maxBytes, failing) == all
    else Scan(rest, p, size, maxBytes, failing) == all
  }

  lemma ScanTooLong(coming: seq<bytes>, p: Pending, size: nat, maxBytes: nat, failing: bool, all: Scanned)
    requires Scan(coming, p, size, maxBytes, failing) == all
    ensures coming != [] && |coming[0]| > maxBytes ==> all.result == Oversized
  {
  }

  method ParseSSELine(line: bytes, p: Pending) returns (r: Pending)
    ensures r == ParseLine(line, p)
  {
    r := p;
    if |line| == 0 || line[0] == COLON {
      return;
    }
    var field, value := FieldOf(line), ValueOf(line);
    if field == EVENT {
      r := r.(event := value);
    } else if field == DATA {
      r := r.(data := r.data + [value]);
    } else if field == ID {
      if NUL !in value {
        r := r.(id := value);
      }
    }
  }

  // ---- The whole stream ------------------------------------------------------

  datatype Decoded = Decoded(frames: seq<Frame>, end: NextResult)

  function Prepend(frame: Frame, d: Decoded): Decoded {
    Decoded([frame] + d.frames, d.end)
  }

  /** All the frames of a stream and how it ends. */
  function Decode(lines: seq<bytes>, p: Pending, size: nat, maxBytes: nat, failing: bool): Decoded
    decreases |lines|
  {
    if lines == [] then
      if failing then Decoded([], ReadFailure)
      else Decoded(if p.data != [] then [FrameOf(p)] else [], Ended)
    else if lines[0] == [] then
      var rest := Decode(lines[1..], NOTHING, 0, maxBytes, failing);
      if p.data != [] then Prepend(FrameOf(p), rest) else rest
    else if size + |lines[0]| + 1 > maxBytes then Decoded([], Oversized)
    else Decode(lines[1..], ParseLine(lines[0], p), size + |lines[0]| + 1, maxBytes, failing)
  }

  /** A stream decodes to its first frame and then to what decoding the rest gives. */
  lemma {:induction false} DecodeByScan(lines: seq<bytes>, p: Pending, size: nat, maxBytes: nat, failing: bool)
    ensures var s := Scan(lines, p, size, maxBytes, failing);
            Decode(lines, p, size, maxBytes, failing) ==
            if s.result.Got? then Prepend(s.result.frame, Decode(s.rest, NOTHING, 0, maxBytes, failing))
            else Decoded([], s.result)
    ensures Scan(lines, p, size, maxBytes, failing).result.Got? && p.data == [] ==>
              |Scan(lines, p, size, maxBytes, failing).rest| < |lines|
    ensures |Scan(lines, p, size, maxBytes, failing).rest| <= |lines|
    decreases |lines|
  {
    if lines != [] && lines[0] == [] && p.data == [] {
      DecodeByScan(lines[1..], NOTHING, 0, maxBytes, failing);
    } else if lines != [] && lines[0] != [] && size + |lines[0]| + 1 <= maxBytes {
      DecodeByScan(lines[1..], ParseLine(lines[0], p), size + |lines[0]| + 1, maxBytes, failing);
    }
  }

  /** Reads frames until Next gives none. */
  method DecodeFrames(decoder: SSEDecoder) returns (frames: seq<Frame>, end: NextResult)
    requires decoder.Valid()
    modifies decoder, decoder.reader
    ensures Decoded(frames, end) ==
            old(if decoder.EarlyRefusal() then Decoded([], Oversized)
                else Decode(decoder.Coming(), NOTHING, 0, decoder.maxBytes, decoder.reader.failing))
  {
    frames := [];
    ghost var all := Decode(decoder.Coming(), NOTHING, 0, decoder.maxBytes, decoder.reader.failing);
    ghost var early := decoder.EarlyRefusal();
    while true
      invariant decoder.Valid()
      invariant decoder.EarlyRefusal() == early
      invariant all == Follow(frames, Decode(decoder.Coming(), NOTHING, 0, decoder.maxBytes, decoder.reader.failing))
      invariant early ==> frames == []
      decreases |decoder.Coming()|
    {
      FollowScan(decoder.Coming(), decoder.maxBytes, decoder.reader.failing, frames, all);
      end := decoder.Next();
      if !end.Got? {
        return;
      }
      frames := frames + [end.frame];
    }
  }

  /** What a fresh decoder makes of a body. */
  function WholeStream(body: bytes, maxBytes: nat, size: nat, failing: bool): Decoded
    requires size >= 16
  {
    if BOM <= body && WholeLine(body, [], size, maxBytes).Refused? then Decoded([], Oversized)
    else Decode(ComingLines(body, true), NOTHING, 0, maxBytes, failing)
  }

  /** The same from a fresh decoder. */
  method DecodeStream(body: bytes, maxBytes: nat, size: nat, failing: bool) returns (d: Decoded)
    requires size >= 16 && maxBytes > 0
    ensures d == WholeStream(body, maxBytes, size, failing)
  {
    var decoder := new SSEDecoder(body, maxBytes, size, failing);
    var frames, end := DecodeFrames(decoder);
    d := Decoded(frames, end);
  }

  /** Decoding goes on after the next frame, or ends with what there is instead. */
  lemma FollowScan(lines: seq<bytes>, maxBytes: nat, failing: bool, frames: seq<Frame>, all: Decoded)
    requires all == Follow(frames, Decode(lines, NOTHING, 0, maxBytes, failing))
    ensures var s := Scan(lines, NOTHING, 0, maxBytes, failing);
            if s.result.Got? then
              && all == Follow(frames + [s.result.frame], Decode(s.rest, NOTHING, 0, maxBytes, failing))
              && |s.rest| < |lines|
            else all == Decoded(frames, s.result)
  {
    DecodeByScan(lines, NOTHING, 0, maxBytes, failing);
    var s := Scan(lines, NOTHING, 0, maxBytes, failing);
    if s.result.Got? {
      Regroup(frames, [s.result.frame], Decode(s.rest, NOTHING, 0, maxBytes, failing).frames);
    } else {
      assert frames + [] == frames;
    }
  }

  function Follow(frames: seq<Frame>, d: Decoded): Decoded {
    Decoded(frames + d.frames, d.end)
  }
}
