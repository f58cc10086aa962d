/**
 Padded and prioritised frames, as peers may send them (sections 6.1 and 6.2 of RFC 9113): a pad length, five bytes
 of priority, the contents and the padding, each of the optional parts announced by a flag.
 */
module FrameLayout {
  import opened Base
  import opened Frame

  /** The optional parts agree with the flags: one byte counts the padding, and a priority is five bytes. */
  predicate Announced(h: FrameHeader, padding: Option<seq<Byte>>, priority: Option<seq<Byte>>) {
    && (padding.Some? <==> Bit(h.flags, 8)) && (padding.Some? ==> |padding.value| <= 255)
    && (priority.Some? <==> Bit(h.flags, 32)) && (priority.Some? ==> |priority.value| == 5)
  }

  /** The bytes of such a payload. */
  function Layout(padding: Option<seq<Byte>>, priority: Option<seq<Byte>>, contents: seq<Byte>): seq<Byte>
    requires padding.Some? ==> |padding.value| <= 255
  {
    (if padding.Some? then [|padding.value|] else []) + (if priority.Some? then priority.value else [])
    + contents + (if padding.Some? then padding.value else [])
  }

  /** The bytes that come before the contents. */
  function FixedPart(h: FrameHeader): nat {
    (if Bit(h.flags, 8) then 1 else 0) + (if h.frameType == HeadersType && Bit(h.flags, 32) then 5 else 0)
  }

  /** The padding announced is more than what follows the fixed part. */
  predicate Overpadded(h: FrameHeader, b: seq<Byte>) {
    Bit(h.flags, 8) && |b| >= FixedPart(h) && b != [] && b[0] > |b| - FixedPart(h)
  }

  /** HEADERS is read as its block alone, whatever the padding and the priority. */
  lemma HeadersRead(h: FrameHeader, padding: Option<seq<Byte>>, priority: Option<seq<Byte>>, block: seq<Byte>)
    requires h.frameType == HeadersType && h.streamId != 0 && Announced(h, padding, priority)
    ensures ParsePayload(h, Layout(padding, priority, block)) == Ok(Headers(block, Bit(h.flags, 1), Bit(h.flags, 4)))
  {
    hide Bit;
    var b := Layout(padding, priority, block);
    var skip := (if padding.Some? then 1 else 0) + (if priority.Some? then 5 else 0);
    assert b[skip..skip + |block|] == block;
  }

  /** Both are refused exactly on stream 0, without the fixed part, or with more padding than there is room for. */
  lemma LayoutRefused(h: FrameHeader, b: seq<Byte>)
    requires h.frameType in {DataType, HeadersType}
    ensures var r := ParsePayload(h, b);
            && (r == Err(FrameSizeError) <==> h.streamId != 0 && |b| < FixedPart(h))
            && (r == Err(ProtocolError) <==> h.streamId == 0 || Overpadded(h, b))
            && (r.Ok? <==> h.streamId != 0 && |b| >= FixedPart(h) && !Overpadded(h, b))
  {
    hide Bit;
  }

  /** DATA is read as its data alone, whatever the padding; the flag of a priority means nothing there. */
  lemma DataRead(h: FrameHeader, padding: Option<seq<Byte>>, data: seq<Byte>)
    requires h.frameType == DataType && h.streamId != 0
    requires (padding.Some? <==> Bit(h.flags, 8)) && (padding.Some? ==> |padding.value| <= 255)
    ensures ParsePayload(h, Layout(padding, None, data)) == Ok(Data(data, Bit(h.flags, 1)))
  {
    hide Bit;
    var b := Layout(padding, None, data);
    var skip := if padding.Some? then 1 else 0;
    assert b[skip..skip + |data|] == data;
    assert padding.None? ==> b == data;
  }

  /** Whatever is accepted has that layout, so every accepted payload is one of those read above. */
  lemma AcceptedLayout(h: FrameHeader, b: seq<Byte>)
    returns (padding: Option<seq<Byte>>, priority: Option<seq<Byte>>, contents: seq<Byte>)
    requires h.frameType in {DataType, HeadersType} && ParsePayload(h, b).Ok?
    ensures padding.Some? ==> |padding.value| <= 255
    ensures b == Layout(padding, priority, contents)
    ensures h.frameType == HeadersType ==> Announced(h, padding, priority)
    ensures h.frameType == DataType ==> priority.None? && (padding.Some? <==> Bit(h.flags, 8))
  {
    hide Bit;
    var pad := if Bit(h.flags, 8) then b[0] else 0;
    var skip := if Bit(h.flags, 8) then 1 else 0;
    var start := FixedPart(h);
    padding := if Bit(h.flags, 8) then Some(b[|b| - pad..]) else None;
    priority := if h.frameType == HeadersType && Bit(h.flags, 32) then Some(b[skip..skip + 5]) else None;
    contents := b[start..|b| - pad];
  }
}
