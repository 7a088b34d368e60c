/** Frames on the TCP stream: the 16-byte header, its encoder and the streaming decoder. */
module Wire {
  import opened Bytes

  const HEADER_BYTES := 16
  const MAX_PAYLOAD_BYTES := 16 * 1024 * 1024
  const KNOWN_FLAGS := 8            // bits 0 to 2 are defined, bits 3 to 7 reserved
  const COMPACT_THRESHOLD := 1024 * 1024

  datatype Frame = Frame(channel: Byte, flags: Byte, ptsMicros: nat, payload: seq<Byte>)

  datatype Error = NoError | PayloadTooLarge | ReservedFlagsSet | ReservedHeaderNonZero

  // ---------------------------------------------------------------------------
  // Encoding

  predicate Encodable(f: Frame) {
    |f.payload| <= MAX_PAYLOAD_BYTES && f.flags < KNOWN_FLAGS && f.ptsMicros < Limit(8)
  }

  function Header(f: Frame): (r: seq<Byte>)
    ensures |r| == HEADER_BYTES
  {
    BigEndian(|f.payload|, 4) + [f.channel, f.flags, 0, 0] + BigEndian(f.ptsMicros, 8)
  }

  function Encoded(f: Frame): seq<Byte> {
    Header(f) + f.payload
  }

  function EncodedAll(frames: seq<Frame>): seq<Byte> {
    if frames == [] then [] else Encoded(frames[0]) + EncodedAll(frames[1..])
  }

  method AppendHeader(f: Frame, out: seq<Byte>) returns (r: seq<Byte>)
    ensures r == out + Header(f)
  {
    var length := AppendBigEndian([], |f.payload|, 4);
    ghost var fields: seq<Byte> := [f.channel, f.flags, 0, 0];
    assert length == BigEndian(|f.payload|, 4);
    r := out + length;
    r := r + [f.channel];
    r := r + [f.flags];
    r := r + [0];
    r := r + [0];
    assert r == (out + length) + fields;
    Reassociate(out, length, fields);
    r := AppendBigEndian(r, f.ptsMicros, 8);
    Reassociate(out, length + fields, BigEndian(f.ptsMicros, 8));
  }

  /** Appends a frame to `out`, or says why the peer would have to hang up on it. */
  method Encode(f: Frame, out: seq<Byte>) returns (error: Error, r: seq<Byte>)
    requires f.ptsMicros < Limit(8)
    ensures error == NoError <==> Encodable(f)
    ensures r == if error == NoError then out + Encoded(f) else out
    ensures error == PayloadTooLarge <==> |f.payload| > MAX_PAYLOAD_BYTES
  {
    r := out;
    if |f.payload| > MAX_PAYLOAD_BYTES { return PayloadTooLarge, r; }
    if f.flags >= KNOWN_FLAGS { return ReservedFlagsSet, r; }
    r := AppendHeader(f, r);
    r := r + f.payload;
    error := NoError;
    Reassociate(out, Header(f), f.payload);
  }

  // ---------------------------------------------------------------------------
  // The one-shot parser: what a whole stream means, with no buffer and no chunks

  /** What is wrong with a header; decided before any byte of the body is awaited. */
  function HeaderError(h: seq<Byte>): Error
    requires |h| >= HEADER_BYTES
  {
    if FromBigEndian(h[..4]) > MAX_PAYLOAD_BYTES then PayloadTooLarge
    else if h[5] >= KNOWN_FLAGS then ReservedFlagsSet
    else if h[6] != 0 || h[7] != 0 then ReservedHeaderNonZero
    else NoError
  }

  function FrameLength(h: seq<Byte>): nat
    requires |h| >= HEADER_BYTES
  {
    HEADER_BYTES + FromBigEndian(h[..4])
  }

  function FirstFrame(s: seq<Byte>): Frame
    requires |s| >= HEADER_BYTES && |s| >= FrameLength(s)
  {
    Frame(s[4], s[5], FromBigEndian(s[8..16]), s[HEADER_BYTES..FrameLength(s)])
  }

  /** The frames of a stream, the bytes left over, and the framing error met, if any. */
  datatype Parsed = Parsed(frames: seq<Frame>, rest: seq<Byte>, error: Error)

  predicate Complete(s: seq<Byte>) {
    |s| >= HEADER_BYTES && HeaderError(s) == NoError && |s| >= FrameLength(s)
  }

  function Prepend(frames: seq<Frame>, p: Parsed): Parsed {
    Parsed(frames + p.frames, p.rest, p.error)
  }

  function Parse(s: seq<Byte>): Parsed {
    if Complete(s) then Prepend([FirstFrame(s)], Parse(s[FrameLength(s)..]))
    else Parsed([], s, if |s| < HEADER_BYTES then NoError else HeaderError(s))
  }

  lemma PrependTwice(a: seq<Frame>, b: seq<Frame>, p: Parsed)
    ensures Prepend(a, Prepend(b, p)) == Prepend(a + b, p)
    ensures Prepend([], p) == p
    ensures p.frames == [] ==> Prepend(a, p) == Parsed(a, p.rest, p.error)
  {
    assert a + (b + p.frames) == (a + b) + p.frames;
  }

  /** Bytes a live decoder may hold: less than one frame of the largest size. */
  lemma {:induction false} RestIsBounded(s: seq<Byte>)
    ensures Parse(s).error == NoError ==> |Parse(s).rest| < HEADER_BYTES + MAX_PAYLOAD_BYTES
  {
    if Complete(s) {
      RestIsBounded(s[FrameLength(s)..]);
    }
  }

  lemma ParseEncoded(f: Frame, s: seq<Byte>)
    requires Encodable(f)
    ensures Parse(Encoded(f) + s) == Prepend([f], Parse(s))
  {
    var e := Encoded(f) + s;
    Limits();
    BigEndianRoundTrip(|f.payload|, 4);
    BigEndianRoundTrip(f.ptsMicros, 8);
    assert e[..4] == BigEndian(|f.payload|, 4);
    assert e[8..16] == BigEndian(f.ptsMicros, 8);
    assert e[4] == f.channel && e[5] == f.flags && e[6] == 0 && e[7] == 0;
    assert e[HEADER_BYTES..FrameLength(e)] == f.payload;
    assert e[FrameLength(e)..] == s;
  }

  lemma {:induction false} ParseEncodedAll(frames: seq<Frame>)
    requires forall f | f in frames :: Encodable(f)
    ensures Parse(EncodedAll(frames)) == Parsed(frames, [], NoError)
  {
    if frames == [] {
    } else {
      ParseEncodedAll(frames[1..]);
      ParseEncoded(frames[0], EncodedAll(frames[1..]));
    }
  }

  lemma FirstFrameIsEncoded(s: seq<Byte>)
    requires Complete(s)
    ensures Encodable(FirstFrame(s)) && Encoded(FirstFrame(s)) == s[..FrameLength(s)]
  {
    var f := FirstFrame(s);
    FromBigEndianRoundTrip(s[..4]);
    FromBigEndianRoundTrip(s[8..16]);
    assert s[4..8] == [f.channel, f.flags, 0, 0];
    assert Header(f) == s[..4] + s[4..8] + s[8..16] == s[..16];
  }

  lemma EncodedAllCons(f: Frame, frames: seq<Frame>)
    ensures EncodedAll([f] + frames) == Encoded(f) + EncodedAll(frames)
  {
    assert ([f] + frames)[1..] == frames;
  }

  /** The parser loses nothing: accepted frames re-encode to the very bytes they came from. */
  lemma {:induction false} ParseIsInverse(s: seq<Byte>)
    ensures EncodedAll(Parse(s).frames) + Parse(s).rest == s
  {
    if Complete(s) {
      var n := FrameLength(s);
      var tail := Parse(s[n..]);
      ParseIsInverse(s[n..]);
      FirstFrameIsEncoded(s);
      EncodedAllCons(FirstFrame(s), tail.frames);
      Rejoin(s, n, EncodedAll(tail.frames), tail.rest);
    }
  }

  lemma Rejoin(s: seq<Byte>, n: nat, middle: seq<Byte>, rest: seq<Byte>)
    requires n <= |s| && middle + rest == s[n..]
    ensures (s[..n] + middle) + rest == s
  {
    Reassociate(s[..n], middle, rest);
    assert s == s[..n] + s[n..];
  }

  lemma {:induction false} ParsedFramesAreEncodable(s: seq<Byte>)
    ensures forall f | f in Parse(s).frames :: Encodable(f)
  {
    if Complete(s) {
      ParsedFramesAreEncodable(s[FrameLength(s)..]);
      FirstFrameIsEncoded(s);
    }
  }

  /** How far the decoder's loop has got with a stream that parses to `whole`. */
  ghost predicate Taken(whole: Parsed, got: seq<Frame>, buffer: seq<Byte>, start: nat, offset: nat) {
    && offset <= |buffer|
    && whole == Prepend(got, Parse(buffer[offset..]))
    && offset == start + |EncodedAll(got)|
  }

  lemma NothingTaken(whole: Parsed, buffer: seq<Byte>, offset: nat)
    requires offset <= |buffer| && whole == Parse(buffer[offset..])
    ensures Taken(whole, [], buffer, offset, offset)
  {
    PrependTwice([], [], whole);
  }

  lemma TakeOne(whole: Parsed, got: seq<Frame>, buffer: seq<Byte>, start: nat, offset: nat, s: seq<Byte>, f: Frame)
    requires Taken(whole, got, buffer, start, offset) && s == buffer[offset..] && Complete(s) && f == FirstFrame(s)
    ensures Taken(whole, got + [f], buffer, start, offset + FrameLength(s))
  {
    ConsumeFrame(got, s);
    assert s[FrameLength(s)..] == buffer[offset + FrameLength(s)..];
  }

  /** When no frame is complete, what has been taken is all there is. */
  lemma NothingMore(whole: Parsed, got: seq<Frame>, s: seq<Byte>)
    requires whole == Prepend(got, Parse(s))
    ensures !Complete(s) ==> whole == Parsed(got, s, if |s| < HEADER_BYTES then NoError else HeaderError(s))
  {
    PrependTwice(got, [], Parse(s));
  }

  /** One turn of the decoder's loop. */
  lemma ConsumeFrame(got: seq<Frame>, s: seq<Byte>)
    requires Complete(s)
    ensures Prepend(got, Parse(s)) == Prepend(got + [FirstFrame(s)], Parse(s[FrameLength(s)..]))
    ensures |EncodedAll(got + [FirstFrame(s)])| == |EncodedAll(got)| + FrameLength(s)
  {
    PrependTwice(got, [FirstFrame(s)], Parse(s[FrameLength(s)..]));
    FirstFrameIsEncoded(s);
    AppendOne(got, FirstFrame(s));
  }

  // ---------------------------------------------------------------------------
  // The streaming decoder on values: what one append does

  datatype DecoderState = DecoderState(pending: seq<Byte>, failure: Error)

  datatype Appended = Appended(state: DecoderState, frames: seq<Frame>, error: Error)

  const FRESH_DECODER := DecoderState([], NoError)

  function AppendTo(st: DecoderState, data: seq<Byte>): Appended {
    if st.failure != NoError then Appended(st, [], st.failure)
    else
      var p := Parse(st.pending + data);
      Appended(DecoderState(p.rest, p.error), p.frames, p.error)
  }

  /** Feeds chunks one after another, as the socket delivers them. */
  function Feed(st: DecoderState, chunks: seq<seq<Byte>>): Appended
    decreases |chunks|
  {
    if chunks == [] then Appended(st, [], st.failure)
    else
      var first := AppendTo(st, chunks[0]);
      var later := Feed(first.state, chunks[1..]);
      Appended(later.state, first.frames + later.frames, later.error)
  }

  function Concat(chunks: seq<seq<Byte>>): seq<Byte> {
    if chunks == [] then [] else chunks[0] + Concat(chunks[1..])
  }

  lemma HeaderIsStable(a: seq<Byte>, b: seq<Byte>)
    requires |a| >= HEADER_BYTES
    ensures HeaderError(a + b) == HeaderError(a) && FrameLength(a + b) == FrameLength(a)
    ensures Complete(a) ==> Complete(a + b) && FirstFrame(a + b) == FirstFrame(a)
    ensures Complete(a) ==> (a + b)[FrameLength(a)..] == a[FrameLength(a)..] + b
  {
    assert (a + b)[..4] == a[..4];
    assert (a + b)[8..16] == a[8..16];
    if Complete(a) {
      assert (a + b)[HEADER_BYTES..FrameLength(a)] == a[HEADER_BYTES..FrameLength(a)];
    }
  }

  /** Parsing can stop anywhere and resume from what was left over. */
  lemma {:induction false} ParseResumes(a: seq<Byte>, b: seq<Byte>)
    ensures Parse(a).error != NoError ==>
              Parse(a + b) == Parsed(Parse(a).frames, Parse(a).rest + b, Parse(a).error)
    ensures Parse(a).error == NoError ==>
              Parse(a + b) == Prepend(Parse(a).frames, Parse(Parse(a).rest + b))
    decreases |a|
  {
    PrependTwice([], [], Parse(a + b));
    if |a| >= HEADER_BYTES {
      HeaderIsStable(a, b);
      if Complete(a) {
        var n := FrameLength(a);
        ParseResumes(a[n..], b);
        PrependTwice([FirstFrame(a)], Parse(a[n..]).frames, Parse(Parse(a).rest + b));
      }
    }
  }

  /** A failed decoder stays as it is, whatever arrives. */
  lemma {:induction false} FailureIsSticky(st: DecoderState, chunks: seq<seq<Byte>>)
    requires st.failure != NoError
    ensures Feed(st, chunks) == Appended(st, [], st.failure)
  {
    if chunks != [] {
      FailureIsSticky(st, chunks[1..]);
    }
  }

  /**
   * Chunking independence, from any live state: the frames and the final error are those of
   * the one-shot parser on the whole stream, and a live decoder ends with the same leftover.
   */
  lemma {:induction false} ChunkingIndependence(st: DecoderState, chunks: seq<seq<Byte>>)
    requires st.failure == NoError && Parse(st.pending) == Parsed([], st.pending, NoError)
    ensures var whole := Parse(st.pending + Concat(chunks));
            && Feed(st, chunks).frames == whole.frames
            && Feed(st, chunks).error == whole.error == Feed(st, chunks).state.failure
            && (whole.error == NoError ==> Feed(st, chunks).state.pending == whole.rest)
    decreases |chunks|
  {
    if chunks == [] {
      assert st.pending + Concat(chunks) == st.pending;
    } else {
      var c, more := chunks[0], Concat(chunks[1..]);
      var first := AppendTo(st, c);
      assert st.pending + Concat(chunks) == (st.pending + c) + more;
      ParseResumes(st.pending + c, more);
      if first.error == NoError {
        RestIsSettled(st.pending + c);
        ChunkingIndependence(first.state, chunks[1..]);
      } else {
        FailureIsSticky(first.state, chunks[1..]);
      }
    }
  }

  /** What a parse leaves over holds no further frame and no error. */
  lemma {:induction false} RestIsSettled(s: seq<Byte>)
    requires Parse(s).error == NoError
    ensures Parse(Parse(s).rest) == Parsed([], Parse(s).rest, NoError)
  {
    if Complete(s) {
      RestIsSettled(s[FrameLength(s)..]);
    }
  }

  /** Encoded frames come back exactly, however the stream is cut, and no error is seen. */
  lemma {:induction false} AnyChunkingDeliversTheFrames(frames: seq<Frame>, chunks: seq<seq<Byte>>)
    requires forall f | f in frames :: Encodable(f)
    requires Concat(chunks) == EncodedAll(frames)
    ensures Feed(FRESH_DECODER, chunks) == Appended(FRESH_DECODER, frames, NoError)
  {
    ParseEncodedAll(frames);
    assert [] + Concat(chunks) == EncodedAll(frames);
    ChunkingIndependence(FRESH_DECODER, chunks);
  }

  // ---------------------------------------------------------------------------
  // The decoder itself: one growing buffer, a read offset, and compaction

  method CheckHeader(header: seq<Byte>) returns (error: Error, payloadLength: nat)
    requires |header| >= HEADER_BYTES
    ensures error == HeaderError(header) && HEADER_BYTES + payloadLength == FrameLength(header)
  {
    payloadLength := ReadBigEndian(header[..4]);
    error := NoError;
    if payloadLength > MAX_PAYLOAD_BYTES {
      error := PayloadTooLarge;
    } else if header[5] >= KNOWN_FLAGS {
      error := ReservedFlagsSet;
    } else if header[6] != 0 || header[7] != 0 {
      error := ReservedHeaderNonZero;
    }
  }

  method ReadFrame(header: seq<Byte>, payloadLength: nat) returns (frame: Frame)
    requires |header| >= HEADER_BYTES + payloadLength == FrameLength(header)
    ensures frame == FirstFrame(header)
  {
    var pts := ReadBigEndian(header[8..16]);
    frame := Frame(header[4], header[5], pts, header[HEADER_BYTES..HEADER_BYTES + payloadLength]);
  }

  class Decoder {
    var buffer: seq<Byte>
    var readOffset: nat
    var failed: bool
    var failure: Error
    ghost var erased: nat   // bytes ever dropped from the front of the buffer
    ghost var moved: nat    // bytes ever shifted down by an erase

    /** The loop's progress, as a fact about the fields alone. */
    ghost predicate Got(whole: Parsed, got: seq<Frame>, start: nat)
      reads this`buffer, this`readOffset
    {
      Taken(whole, got, buffer, start, readOffset)
    }

    ghost predicate Valid()
      reads this
    {
      && readOffset <= |buffer|
      && (failed <==> failure != NoError)
      && (!failed ==> Parse(Pending()) == Parsed([], Pending(), NoError))
      && (!failed ==> readOffset < COMPACT_THRESHOLD && readOffset <= |buffer| / 2)
      && moved <= 17 * erased
    }

    /** The bytes held for the frame in progress. */
    function Pending(): seq<Byte>
      reads this
      requires readOffset <= |buffer|
    {
      buffer[readOffset..]
    }

    ghost function State(): DecoderState
      reads this
      requires readOffset <= |buffer|
    {
      DecoderState(Pending(), failure)
    }

    constructor ()
      ensures Valid() && State() == FRESH_DECODER && erased == moved == 0
    {
      buffer, readOffset, failed, failure := [], 0, false, NoError;
      erased, moved := 0, 0;
    }

    method Reset()
      modifies this
      ensures Valid() && State() == FRESH_DECODER && erased == moved == 0
    {
      buffer, readOffset, failed, failure := [], 0, false, NoError;
      erased, moved := 0, 0;
    }

    method Append(data: seq<Byte>, out: seq<Frame>) returns (error: Error, frames: seq<Frame>)
      requires Valid()
      modifies this
      ensures Valid()
      ensures State() == AppendTo(old(State()), data).state
      ensures error == AppendTo(old(State()), data).error
      ensures frames == out + AppendTo(old(State()), data).frames
      // Every byte of a delivered frame, and no other, has passed the read offset.
      ensures erased + readOffset
           == old(erased + readOffset) + |EncodedAll(AppendTo(old(State()), data).frames)|
      ensures error == NoError ==> |Pending()| < HEADER_BYTES + MAX_PAYLOAD_BYTES
      // The dead prefix stays short, and keeping it so is amortised: at most 17 bytes are ever
      // shifted down for each byte consumed.
      ensures error == NoError ==> readOffset < COMPACT_THRESHOLD && readOffset <= |buffer| / 2
      ensures moved <= 17 * (erased + readOffset)
    {
      frames := out;
      if failed { return failure, frames; }
      buffer := buffer + data;
      assert Pending() == old(Pending()) + data;
      error, frames := TakeFrames(out);
      if error == NoError {
        RestIsBounded(old(Pending()) + data);
        RestIsSettled(old(Pending()) + data);
        Compact();
      }
    }

    /** The loop of append: every frame that is complete, up to the first bad header. */
    method TakeFrames(out: seq<Frame>) returns (error: Error, frames: seq<Frame>)
      requires readOffset <= |buffer| && !failed && failure == NoError
      modifies this`readOffset, this`failed, this`failure
      ensures readOffset <= |buffer|
      ensures var p := Parse(old(Pending()));
              && Pending() == p.rest && frames == out + p.frames
              && error == failure == p.error && (failed <==> failure != NoError)
              && readOffset == old(readOffset) + |EncodedAll(p.frames)|
    {
      frames := out;
      ghost var whole := Parse(Pending());
      ghost var got: seq<Frame> := [];
      NothingTaken(whole, buffer, readOffset);

      while |buffer| - readOffset >= HEADER_BYTES
        invariant !failed && failure == NoError
        invariant frames == out + got
        invariant Got(whole, got, old(readOffset))
        decreases |buffer| - readOffset
      {
        var bad, payloadLength := CheckHeader(Pending());
        if bad != NoError {
          Refuse(bad, whole, got, old(readOffset));
          return failure, frames;
        }
        if |buffer| - readOffset - HEADER_BYTES < payloadLength { break; }
        var frame := TakeFrame(payloadLength, whole, got, old(readOffset));
        frames := frames + [frame];
        got := got + [frame];
      }
      NothingMore(whole, got, Pending());
      error := NoError;
    }

    /** Framing is lost at the offset: what has been taken is all there will be. */
    method Refuse(bad: Error, ghost whole: Parsed, ghost got: seq<Frame>, ghost start: nat)
      requires Got(whole, got, start) && |Pending()| >= HEADER_BYTES && bad == HeaderError(Pending()) != NoError
      modifies this`failed, this`failure
      ensures failed && failure == bad && whole == Parsed(got, Pending(), bad)
      ensures readOffset == start + |EncodedAll(got)|
    {
      NothingMore(whole, got, Pending());
      failed := true;
      failure := bad;
    }

    /** Reads the complete frame at the offset and moves past it. */
    method TakeFrame(payloadLength: nat, ghost whole: Parsed, ghost got: seq<Frame>, ghost start: nat)
      returns (frame: Frame)
      requires Got(whole, got, start) && Complete(Pending())
      requires HEADER_BYTES + payloadLength == FrameLength(Pending())
      modifies this`readOffset
      ensures Got(whole, got + [frame], start)
      ensures readOffset == old(readOffset) + HEADER_BYTES + payloadLength
    {
      ghost var header := Pending();
      frame := ReadFrame(Pending(), payloadLength);
      TakeOne(whole, got, buffer, start, readOffset, header, frame);
      readOffset := readOffset + HEADER_BYTES + payloadLength;
    }

    /** Drops the dead prefix once it is long in itself or half of the buffer. */
    method Compact()
      requires readOffset <= |buffer|
      requires |Pending()| < HEADER_BYTES + MAX_PAYLOAD_BYTES
      requires moved <= 17 * erased
      modifies this`buffer, this`readOffset, this`erased, this`moved
      ensures readOffset <= |buffer| && Pending() == old(Pending())
      ensures readOffset < COMPACT_THRESHOLD && readOffset <= |buffer| / 2
      ensures erased + readOffset == old(erased + readOffset)
      ensures moved <= 17 * erased
    {
      if readOffset == |buffer| {
        erased := erased + readOffset;
        buffer := [];
        readOffset := 0;
      } else if readOffset >= COMPACT_THRESHOLD || readOffset > |buffer| / 2 {
        erased := erased + readOffset;
        moved := moved + (|buffer| - readOffset);
        buffer := buffer[readOffset..];
        readOffset := 0;
      }
    }
  }

  lemma {:induction false} AppendOne(frames: seq<Frame>, f: Frame)
    ensures EncodedAll(frames + [f]) == EncodedAll(frames) + Encoded(f)
  {
    if frames == [] {
      AppendToNone(f);
    } else {
      var head, tail := frames[0], frames[1..];
      AppendOne(tail, f);
      assert frames + [f] == [head] + (tail + [f]) && frames == [head] + tail;
      EncodedAllCons(head, tail + [f]);
      EncodedAllCons(head, tail);
      Reassociate(Encoded(head), EncodedAll(tail), Encoded(f));
    }
  }

  lemma AppendToNone(f: Frame)
    ensures EncodedAll([] + [f]) == EncodedAll([]) + Encoded(f)
  {
    EncodedAllCons(f, []);
    assert [] + [f] == [f] + [] && Encoded(f) + [] == Encoded(f) && [] + Encoded(f) == Encoded(f);
  }

  /** What remains of a feed once some of it has been delivered. */
  ghost predicate Remaining(total: Appended, frames: seq<Frame>, st: DecoderState, chunks: seq<seq<Byte>>) {
    var later := Feed(st, chunks); total.frames == frames + later.frames && total.error == later.error
  }

  lemma DeliverOne(total: Appended, frames: seq<Frame>, st: DecoderState, chunks: seq<seq<Byte>>)
    requires Remaining(total, frames, st, chunks) && chunks != []
    ensures var first := AppendTo(st, chunks[0]);
            Remaining(total, frames + first.frames, first.state, chunks[1..])
  {
    var first := AppendTo(st, chunks[0]);
    Reassociate(frames, first.frames, Feed(first.state, chunks[1..]).frames);
  }

  /** A whole connection: a fresh decoder fed chunk by chunk. */
  method Receive(chunks: seq<seq<Byte>>) returns (frames: seq<Frame>, error: Error)
    ensures frames == Parse(Concat(chunks)).frames
    ensures error == Parse(Concat(chunks)).error
  {
    var d := new Decoder();
    ghost var total := Feed(FRESH_DECODER, chunks);
    frames, error := [], NoError;
    for i := 0 to |chunks|
      invariant fresh(d) && d.Valid()
      invariant Remaining(total, frames, d.State(), chunks[i..])
      invariant error == d.State().failure
    {
      DeliverOne(total, frames, d.State(), chunks[i..]);
      assert chunks[i..][1..] == chunks[i + 1..];
      error, frames := d.Append(chunks[i], frames);
    }
    assert [] + Concat(chunks) == Concat(chunks);
    ChunkingIndependence(FRESH_DECODER, chunks);
  }
}
