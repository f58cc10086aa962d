/**
 Frames out of the byte stream (the reading half of the main loop in src/server/http2/connection.rs): bytes are
 buffered until a whole frame is there, and taken off the front of the buffer frame by frame.
 */
module FrameStream {
  import opened Base
  import opened Frame
  import opened Connection
  import opened Segments

  /** The first frame of the buffer, once it is complete. */
  function Take(maxFrame: U32, buf: seq<Byte>): Verdict<Frame, ErrorCode> {
    if |buf| < FRAME_HEADER_SIZE then Wait
    else
      match ParseHeader(buf[..FRAME_HEADER_SIZE])
      case Err(code) => Fail(code)
      case Ok(h) =>
        if h.length > maxFrame then Fail(FrameSizeError)
        else
          var end := FRAME_HEADER_SIZE + h.length;
          if |buf| < end then Wait
          else
            match Parse(h, buf[FRAME_HEADER_SIZE..end])
            case Err(code) => Fail(code)
            case Ok(f) => Item(f, buf[end..])
  }

  /** A decision about the front of the buffer does not change when more bytes arrive. */
  lemma TakeStable(maxFrame: U32, buf: seq<Byte>, more: seq<Byte>)
    ensures match Take(maxFrame, buf)
            case Wait => true
            case Item(f, rest) => Take(maxFrame, buf + more) == Item(f, rest + more)
            case Fail(code) => Take(maxFrame, buf + more) == Fail(code)
  {
    hide ParseHeader, Parse;
    var all := buf + more;
    if |buf| >= FRAME_HEADER_SIZE {
      assert all[..FRAME_HEADER_SIZE] == buf[..FRAME_HEADER_SIZE];
      var h := ParseHeader(buf[..FRAME_HEADER_SIZE]);
      if h.Ok? {
        var end := FRAME_HEADER_SIZE + h.value.length;
        if end <= |buf| {
          assert all[FRAME_HEADER_SIZE..end] == buf[FRAME_HEADER_SIZE..end] && all[end..] == buf[end..] + more;
        }
      }
    }
  }

  /** Whatever is taken off the stream is a frame the connection can be given. */
  lemma TakenFromWire(maxFrame: U32, buf: seq<Byte>)
    ensures var t := Take(maxFrame, buf); t.Item? ==> FromWire(t.value) && |t.rest| < |buf|
  {
  }

  /** The reader of a connection with the given frame limit. */
  function Reader(maxFrame: U32): seq<Byte> -> Verdict<Frame, ErrorCode> {
    buf => Take(maxFrame, buf)
  }

  lemma ReaderStable(maxFrame: U32)
    ensures Consuming(Reader(maxFrame)) && Stable(Reader(maxFrame))
  {
    forall buf ensures Reader(maxFrame)(buf).Item? ==> |Reader(maxFrame)(buf).rest| < |buf| {
      TakenFromWire(maxFrame, buf);
    }
    forall buf, more ensures StableAt(Reader(maxFrame), buf, more) {
      TakeStable(maxFrame, buf, more);
    }
  }

  /** All frames of a byte stream. */
  function Frames(maxFrame: U32, buf: seq<Byte>): Delivery<Frame, ErrorCode> {
    ReaderStable(maxFrame);
    Deliver(Reader(maxFrame), buf)
  }

  /** All frames are the first one and the others. */
  lemma FramesStep(maxFrame: U32, buf: seq<Byte>)
    ensures Frames(maxFrame, buf) ==
            match Take(maxFrame, buf)
            case Wait => Delivery([], buf, None)
            case Fail(code) => Delivery([], buf, Some(code))
            case Item(f, rest) => var d := Frames(maxFrame, rest); Delivery([f] + d.items, d.left, d.error)
  {
    hide Take;
    ReaderStable(maxFrame);
  }

  lemma FramesAppend(maxFrame: U32, a: seq<Byte>, b: seq<Byte>)
    ensures var d := Frames(maxFrame, a);
            d.error.None? ==>
              var e := Frames(maxFrame, d.left + b);
              Frames(maxFrame, a + b) == Delivery(d.items + e.items, e.left, e.error)
  {
    hide Take;
    ReaderStable(maxFrame);
    DeliverAppend(Reader(maxFrame), a, b);
  }

  /**
   However the client's bytes are cut into reads, the frames, the bytes left over and the first error are the same.
   */
  lemma FrameSegmentation(maxFrame: U32, pieces: seq<seq<Byte>>)
    ensures Consuming(Reader(maxFrame))
    ensures Receive(Reader(maxFrame), pieces) == Frames(maxFrame, Concat(pieces))
  {
    ReaderStable(maxFrame);
    Segmentation(Reader(maxFrame), pieces);
  }

  // ---------------------------------------------------------------- round trip

  predicate Sendable(maxFrame: U32, f: Frame) {
    WellFormed(f) && f.header.length <= maxFrame
  }

  function EncodeAll(frames: seq<Frame>): seq<Byte>
    requires forall i :: 0 <= i < |frames| ==> WellFormed(frames[i])
  {
    if frames == [] then []
    else
      assert WellFormed(frames[0]);
      Encode(frames[0]) + EncodeAll(frames[1..])
  }

  lemma TakeEncoded(maxFrame: U32, f: Frame, rest: seq<Byte>)
    requires Sendable(maxFrame, f)
    ensures Take(maxFrame, Encode(f) + rest) == Item(f, rest)
  {
    var wire := Encode(f);
    FrameRoundTrip(f);
    var h := ParseHeader(wire).value;
    var all := wire + rest;
    var end := FRAME_HEADER_SIZE + f.header.length;
    assert |wire| == end && h == f.header by { EncodedSize(f); }
    hide ParseHeader, Parse, Encode, EncodeBody, WellFormed;
    ParseHeaderPrefix(wire);
    assert all[..FRAME_HEADER_SIZE] == wire[..FRAME_HEADER_SIZE];
    assert all[FRAME_HEADER_SIZE..end] == wire[FRAME_HEADER_SIZE..] && all[end..] == rest;
  }

  lemma EncodedSize(f: Frame)
    requires WellFormed(f)
    ensures |Encode(f)| == FRAME_HEADER_SIZE + f.header.length && ParseHeader(Encode(f)) == Ok(f.header)
  {
    hide EncodeBody, ParseHeader, EncodeHeader;
    HeaderRoundTrip(f.header, EncodeBody(f.payload));
  }

  lemma ParseHeaderPrefix(wire: seq<Byte>)
    requires |wire| >= FRAME_HEADER_SIZE
    ensures ParseHeader(wire[..FRAME_HEADER_SIZE]) == ParseHeader(wire)
  {
  }

  /** A peer reading the server's bytes, in any pieces, gets exactly the frames the server wrote. */
  lemma {:induction false} StreamRoundTrip(maxFrame: U32, frames: seq<Frame>)
    requires forall i :: 0 <= i < |frames| ==> Sendable(maxFrame, frames[i])
    ensures forall i :: 0 <= i < |frames| ==> WellFormed(frames[i])
    ensures Frames(maxFrame, EncodeAll(frames)) == Delivery(frames, [], None)
  {
    hide Take, Sendable, Encode, WellFormed;
    ReaderStable(maxFrame);
    if frames == [] {
      NothingYet(maxFrame);
    } else {
      SendableWellFormed(maxFrame, frames);
      var rest := EncodeAll(frames[1..]);
      TakeEncoded(maxFrame, frames[0], rest);
      StreamRoundTrip(maxFrame, frames[1..]);
      assert [frames[0]] + frames[1..] == frames;
    }
  }

  lemma NothingYet(maxFrame: U32)
    ensures Take(maxFrame, []) == Wait
  {
  }

  lemma SendableWellFormed(maxFrame: U32, frames: seq<Frame>)
    requires forall i :: 0 <= i < |frames| ==> Sendable(maxFrame, frames[i])
    ensures forall i :: 0 <= i < |frames| ==> WellFormed(frames[i])
  {
  }
}
