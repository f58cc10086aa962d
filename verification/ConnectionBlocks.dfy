/**
 Header blocks in several frames: how the server splits its own, and what splitting a request's block does.
 */
module ConnectionBlocks {
  import opened Base
  import opened Frame
  import opened HpackTable
  import opened Connection
  import Flow
  import Hpack

  function Assembled(parts: seq<seq<Byte>>): seq<Byte> {
    if parts == [] then [] else parts[0] + Assembled(parts[1..])
  }

  /** Parts that fit in frames. */
  predicate Frameable(parts: seq<seq<Byte>>) {
    forall i :: 0 <= i < |parts| ==> |parts[i]| <= MAX_ALLOWED_FRAME_SIZE
  }

  function ContinuationOf(sid: U32, parts: seq<seq<Byte>>): seq<Frame>
    requires Frameable(parts)
  {
    if parts == [] then []
    else [ContinuationFrame(sid, parts[0], |parts| == 1)] + ContinuationOf(sid, parts[1..])
  }

  /** A header block sent in the given parts: END_HEADERS is on the last frame only. */
  function SplitFrames(sid: U32, parts: seq<seq<Byte>>, endStream: bool): seq<Frame>
    requires parts != [] && Frameable(parts)
  {
    [HeadersFrame(sid, parts[0], endStream, |parts| == 1)] + ContinuationOf(sid, parts[1..])
  }

  // ---------------------------------------------------------------- the server's own blocks

  /** The parts in which the server sends a block to a peer with the given frame size. */
  function Pieces(block: seq<Byte>, max: FrameSize): (parts: seq<seq<Byte>>)
    ensures parts != [] && Frameable(parts)
  {
    if |block| <= max then [block] else [block[..max]] + Pieces(block[max..], max)
  }

  lemma {:induction false} PiecesWhole(block: seq<Byte>, max: FrameSize)
    ensures Assembled(Pieces(block, max)) == block
    decreases |block|
  {
    var parts := Pieces(block, max);
    if |block| <= max {
      assert parts[1..] == [] && block + [] == block;
    } else {
      PiecesWhole(block[max..], max);
      assert parts[1..] == Pieces(block[max..], max) && block[..max] + block[max..] == block;
    }
  }

  /** Every piece but the last is a full frame. */
  lemma {:induction false} PiecesSized(block: seq<Byte>, max: FrameSize, i: nat)
    requires i < |Pieces(block, max)|
    ensures var parts := Pieces(block, max); |parts[i]| <= max && (i < |parts| - 1 ==> |parts[i]| == max)
    decreases |block|
  {
    if |block| > max && i > 0 {
      PiecesSized(block[max..], max, i - 1);
    }
  }

  lemma {:induction false} ContinuationPieces(sid: U32, rest: seq<Byte>, max: FrameSize)
    requires rest != []
    ensures Continuations(sid, rest, max) == ContinuationOf(sid, Pieces(rest, max))
    decreases |rest|
  {
    var n := Min(max, |rest|);
    var parts := Pieces(rest, max);
    if |rest| <= max {
      assert rest[..n] == rest && rest[n..] == [] && parts[1..] == [];
    } else {
      ContinuationPieces(sid, rest[n..], max);
      assert parts[1..] == Pieces(rest[n..], max);
    }
  }

  /** The response frames are the block in pieces: none larger than the peer's frame size, END_HEADERS on the last. */
  lemma ResponseFramesSplit(sid: U32, block: seq<Byte>, endStream: bool, max: FrameSize)
    ensures HeaderFrames(sid, block, endStream, max) == SplitFrames(sid, Pieces(block, max), endStream)
    ensures Assembled(Pieces(block, max)) == block
    ensures forall i :: 0 <= i < |Pieces(block, max)| ==> |Pieces(block, max)[i]| <= max
  {
    PiecesWhole(block, max);
    forall i | 0 <= i < |Pieces(block, max)| ensures |Pieces(block, max)[i]| <= max {
      PiecesSized(block, max, i);
    }
    var parts := Pieces(block, max);
    var n := Min(|block|, max);
    if |block| <= max {
      assert block[..n] == block && block[n..] == [] && parts[1..] == [];
    } else {
      ContinuationPieces(sid, block[n..], max);
      assert parts[1..] == Pieces(block[n..], max);
    }
  }

  /** A peer that puts the fragments together and decodes them has the response's headers, names in lower case. */
  lemma ResponseHeadersArrive(c: Conn, r: Response, lower: seq<Byte> -> seq<Byte>, t: Hpack.Table, limit: nat,
      maxBlock: nat)
    requires c.config.encode == ((hs: seq<Header>) => Hpack.EncodeHeaders(lower, hs))
    requires var hs := [Header(STATUS, r.status)] + r.headers;
             forall h :: h in Hpack.Lowered(lower, hs) ==> Hpack.LegalHeader(h)
    requires |HeaderBlock(c, r)| <= maxBlock
    ensures Hpack.DecodeBlock(t, limit, maxBlock, Assembled(Pieces(HeaderBlock(c, r), c.peerMaxFrame)))
            == Ok(Hpack.Block(Hpack.Lowered(lower, [Header(STATUS, r.status)] + r.headers), t))
  {
    hide Hpack.EncodeHeaders, Hpack.DecodeBlock, Hpack.LegalHeader, Hpack.Lowered;
    PiecesWhole(HeaderBlock(c, r), c.peerMaxFrame);
    Hpack.EncodeRoundTrip(lower, [Header(STATUS, r.status)] + r.headers, t, limit, maxBlock);
  }

  // ---------------------------------------------------------------- a request's block

  /** Frames one after the other, while the connection goes on. */
  function Feed(c: Conn, frames: seq<Frame>, routing: Routing): Step
    requires forall f :: f in frames ==> FromWire(f)
    decreases |frames|
  {
    if frames == [] then Next(c, [])
    else
      match ProcessFrame(c, frames[0], routing)
      case Next(c1, out) => Then(out, Feed(c1, frames[1..], routing))
      case Stop(code, last, out) => Stop(code, last, out)
  }

  lemma {:induction false} ContinuationWire(sid: U32, parts: seq<seq<Byte>>)
    requires Frameable(parts) && 0 < sid < 0x8000_0000
    ensures forall f :: f in ContinuationOf(sid, parts) ==> FromWire(f)
    decreases |parts|
  {
    if parts != [] {
      ContinuationWire(sid, parts[1..]);
    }
  }

  lemma ThenNothing(s: Step, routing: Routing)
    ensures (match s case Next(c, out) => Then(out, Next(c, [])) case Stop(_, _, _) => s) == s
    ensures Then([], s) == s
  {
    if s.Next? {
      assert s.out + [] == s.out;
    }
    assert [] + s.out == s.out;
  }

  /** The rest of a block: what is decoded in the end is all that came, unless it grew beyond the limit. */
  lemma {:induction false} FeedContinuations(c: Conn, sid: U32, parts: seq<seq<Byte>>, routing: Routing)
    requires Frameable(parts) && parts != [] && 0 < sid < 0x8000_0000 && c.contSid == Some(sid)
    ensures forall f :: f in ContinuationOf(sid, parts) ==> FromWire(f)
    ensures var all := c.contBlock + Assembled(parts);
            Feed(c, ContinuationOf(sid, parts), routing) ==
            if |all| > c.config.maxHeaderBlock then Stop(EnhanceYourCalm, c.lastSid, [])
            else FinishHeaders(c.(contSid := None, contBlock := []), sid, all, routing)
    decreases |parts|
  {
    hide FinishHeaders;
    ContinuationWire(sid, parts);
    var frames := ContinuationOf(sid, parts);
    var some := c.contBlock + parts[0];
    assert c.contBlock + Assembled(parts) == some + Assembled(parts[1..]);
    assert frames[0] == ContinuationFrame(sid, parts[0], |parts| == 1)
           && frames[1..] == ContinuationOf(sid, parts[1..]);
    var first := ProcessFrame(c, frames[0], routing);
    assert first == OnContinuation(c, sid, parts[0], |parts| == 1, routing);
    if |parts| == 1 {
      assert Assembled(parts[1..]) == [] && some + [] == some;
      ThenNothing(first, routing);
    } else if |some| <= c.config.maxHeaderBlock {
      FeedContinuations(c.(contBlock := some), sid, parts[1..], routing);
      ThenNothing(Feed(c.(contBlock := some), frames[1..], routing), routing);
    }
  }

  /** The stream limit would refuse this stream. */
  predicate Refused(c: Conn, sid: U32) {
    sid % 2 == 1 && sid > c.lastSid && |c.windows| >= c.config.maxConcurrentStreams
  }

  lemma SplitWire(sid: U32, parts: seq<seq<Byte>>, endStream: bool)
    requires parts != [] && Frameable(parts) && 0 < sid < 0x8000_0000
    ensures forall f :: f in SplitFrames(sid, parts, endStream) ==> FromWire(f)
  {
    ContinuationWire(sid, parts[1..]);
  }

  /**
   A request's header block sent in several frames does exactly what it does in one, the size limit included,
   unless the stream is refused: then the second frame of the block ends the connection.
   */
  lemma SplitLikeWhole(c: Conn, sid: U32, parts: seq<seq<Byte>>, endStream: bool, routing: Routing)
    requires parts != [] && Frameable(parts) && 0 < sid < 0x8000_0000 && c.contSid.None? && c.contBlock == []
    ensures forall f :: f in SplitFrames(sid, parts, endStream) ==> FromWire(f)
    ensures Feed(c, SplitFrames(sid, parts, endStream), routing)
            == OnHeaders(c, sid, Assembled(parts), endStream, true, routing)
            <==> |parts| == 1 || !Refused(c, sid)
  {
    hide FinishHeaders;
    SplitWire(sid, parts, endStream);
    var frames := SplitFrames(sid, parts, endStream);
    var rest := ContinuationOf(sid, parts[1..]);
    assert frames[0] == HeadersFrame(sid, parts[0], endStream, |parts| == 1) && frames[1..] == rest;
    var first := ProcessFrame(c, frames[0], routing);
    assert first == OnHeaders(c, sid, parts[0], endStream, |parts| == 1, routing);
    if |parts| == 1 {
      assert rest == [] && Assembled(parts[1..]) == [] && parts[0] + [] == parts[0];
      ThenNothing(first, routing);
    } else if Refused(c, sid) {
      RefusedSplit(c, sid, parts, endStream, routing);
    } else if sid % 2 == 1 && sid > c.lastSid && |parts[0]| <= c.config.maxHeaderBlock {
      FeedContinuations(first.conn, sid, parts[1..], routing);
      ThenNothing(Feed(first.conn, rest, routing), routing);
      AdmittedWhole(c, sid, parts, endStream, routing);
    } else {
      AdmittedWhole(c, sid, parts, endStream, routing);
    }
  }

  lemma RefusedSplit(c: Conn, sid: U32, parts: seq<seq<Byte>>, endStream: bool, routing: Routing)
    requires |parts| > 1 && Frameable(parts) && 0 < sid < 0x8000_0000 && c.contSid.None? && Refused(c, sid)
    ensures forall f :: f in SplitFrames(sid, parts, endStream) ==> FromWire(f)
    ensures Feed(c, SplitFrames(sid, parts, endStream), routing)
            == Stop(ProtocolError, sid, [Sent(RstFrame(sid, RefusedStream))])
    ensures OnHeaders(c, sid, Assembled(parts), endStream, true, routing).Next?
  {
    hide FinishHeaders, MarkClosed;
    SplitWire(sid, parts, endStream);
    var frames := SplitFrames(sid, parts, endStream);
    assert frames[0] == HeadersFrame(sid, parts[0], endStream, false);
    assert frames[1..][0] == ContinuationFrame(sid, parts[1], |parts| == 2);
    var c1 := ProcessFrame(c, frames[0], routing).conn;
    assert ProcessFrame(c1, frames[1..][0], routing) == Stop(ProtocolError, sid, []);
  }

  /** What an unrefused block does, by its size. */
  lemma AdmittedWhole(c: Conn, sid: U32, parts: seq<seq<Byte>>, endStream: bool, routing: Routing)
    requires !Refused(c, sid) && 0 < sid < 0x8000_0000 && parts != []
    ensures var block := Assembled(parts);
            && |block| >= |parts[0]|
            && (sid % 2 == 1 && sid > c.lastSid && |block| > c.config.maxHeaderBlock ==>
                  OnHeaders(c, sid, block, endStream, true, routing) == Stop(EnhanceYourCalm, sid, []))
  {
  }

  function AllReturned(sid: U32, chunks: seq<seq<Byte>>): seq<Event>
    requires Frameable(chunks)
  {
    if chunks == [] then [] else Credit(sid, |chunks[0]|) + AllReturned(sid, chunks[1..])
  }

  /** A request body in the given chunks: END_STREAM is on the last frame only. */
  function DataFrames(sid: U32, chunks: seq<seq<Byte>>): seq<Frame>
    requires Frameable(chunks)
  {
    if chunks == [] then []
    else [DataFrame(sid, chunks[0], |chunks| == 1)] + DataFrames(sid, chunks[1..])
  }

  lemma {:induction false} DataWire(sid: U32, chunks: seq<seq<Byte>>)
    requires Frameable(chunks) && 0 < sid < 0x8000_0000
    ensures forall f :: f in DataFrames(sid, chunks) ==> FromWire(f)
    decreases |chunks|
  {
    if chunks != [] {
      DataWire(sid, chunks[1..]);
    }
  }

  /** Each chunk is covered by both receive windows. */
  predicate Covered(chunks: seq<seq<Byte>>, connection: int, stream: int) {
    && connection <= Flow.MAX_WINDOW_SIZE && stream <= Flow.MAX_WINDOW_SIZE
    && forall i :: 0 <= i < |chunks| ==> |chunks[i]| <= connection && |chunks[i]| <= stream
  }

  /** One part of a request body. */
  lemma OnePart(c: Conn, sid: U32, data: seq<Byte>, endStream: bool, routing: Routing)
    requires sid in c.active && |data| <= MAX_ALLOWED_FRAME_SIZE
    requires Covered([data], c.recvWindow, c.active[sid].window)
    requires |c.active[sid].requestBody| + |data| <= c.config.maxRequestSize
    ensures var st := c.active[sid].(requestBody := c.active[sid].requestBody + data);
            OnData(c, sid, data, endStream, routing) ==
            if endStream then
              Then(Credit(sid, |data|),
                  Dispatch(c.(active := c.active - {sid}), sid, HalfClose(st.(endStream := true)), routing))
            else Next(c.(active := c.active[sid := st]), Credit(sid, |data|))
  {
    hide Dispatch, HalfClose;
    assert |[data][0]| <= c.recvWindow && |[data][0]| <= c.active[sid].window;
  }

  lemma ThenTwice(a: seq<Event>, b: seq<Event>, s: Step)
    ensures Then(a, Then(b, s)) == Then(a + b, s)
  {
    assert a + (b + s.out) == a + b + s.out;
  }

  /** A request body in any covered chunks is dispatched whole with the headers already there. */
  lemma {:induction false} FeedBody(c: Conn, sid: U32, chunks: seq<seq<Byte>>, routing: Routing)
    requires chunks != [] && Frameable(chunks) && 0 < sid < 0x8000_0000 && sid in c.active && c.contSid.None?
    requires Covered(chunks, c.recvWindow, c.active[sid].window)
    requires |c.active[sid].requestBody| + |Assembled(chunks)| <= c.config.maxRequestSize
    ensures forall f :: f in DataFrames(sid, chunks) ==> FromWire(f)
    ensures var st := c.active[sid].(requestBody := c.active[sid].requestBody + Assembled(chunks), endStream := true);
            Feed(c, DataFrames(sid, chunks), routing) ==
            Then(AllReturned(sid, chunks), Dispatch(c.(active := c.active - {sid}), sid, HalfClose(st), routing))
    decreases |chunks|
  {
    hide Dispatch, HalfClose, OnData, Credit;
    DataWire(sid, chunks);
    var data, rest, frames := chunks[0], chunks[1..], DataFrames(sid, chunks);
    var st := c.active[sid].(requestBody := c.active[sid].requestBody + data);
    OnePart(c, sid, data, |chunks| == 1, routing);
    assert frames[0] == DataFrame(sid, data, |chunks| == 1) && frames[1..] == DataFrames(sid, rest);
    assert ProcessFrame(c, frames[0], routing) == OnData(c, sid, data, |chunks| == 1, routing);
    assert c.active[sid].requestBody + (data + Assembled(rest)) == st.requestBody + Assembled(rest);
    if |chunks| == 1 {
      assert rest == [] && data + [] == data && Credit(sid, |data|) + [] == Credit(sid, |data|);
      ThenNothing(OnData(c, sid, data, true, routing), routing);
    } else {
      var c1 := c.(active := c.active[sid := st]);
      assert c1.active - {sid} == c.active - {sid};
      FeedBody(c1, sid, rest, routing);
      var last := st.(requestBody := st.requestBody + Assembled(rest), endStream := true);
      ThenTwice(Credit(sid, |data|), AllReturned(sid, rest),
          Dispatch(c.(active := c.active - {sid}), sid, HalfClose(last), routing));
    }
  }

  lemma {:induction false} FeedAppend(c: Conn, a: seq<Frame>, b: seq<Frame>, routing: Routing)
    requires forall f :: f in a + b ==> FromWire(f)
    ensures forall f :: f in a ==> FromWire(f)
    ensures forall f :: f in b ==> FromWire(f)
    ensures Feed(c, a + b, routing) ==
            match Feed(c, a, routing)
            case Next(c1, out) => Then(out, Feed(c1, b, routing))
            case Stop(code, last, out) => Stop(code, last, out)
    decreases |a|
  {
    hide ProcessFrame;
    assert forall f :: f in b ==> f in a + b;
    if a == [] {
      assert a + b == b;
      ThenNothing(Feed(c, b, routing), routing);
    } else {
      assert (a + b)[0] == a[0] && (a + b)[1..] == a[1..] + b;
      assert a[0] in a + b && forall f :: f in a[1..] + b ==> f in a + b;
      var first := ProcessFrame(c, a[0], routing);
      if first.Next? {
        FeedAppend(first.conn, a[1..], b, routing);
        var middle := Feed(first.conn, a[1..], routing);
        if middle.Next? {
          ThenTwice(first.out, middle.out, Feed(middle.conn, b, routing));
        }
      }
    }
  }

  /** Routing that does not reject hands the request over first, and leaves the table alone. */
  lemma DispatchedFirst(c: Conn, sid: U32, st: Stream, routing: Routing)
    requires !routing.Reject?
    ensures var s := Dispatch(c, sid, st, routing);
            s.Next? && s.out != [] && s.out[0] == Dispatched(sid, st.requestHeaders, st.requestBody)
                && s.conn.table == c.table
  {
    hide HeaderFrames, HeaderBlock, ResponseBody, MarkClosed;
  }

  /** A stream that may be opened. */
  predicate Openable(c: Conn, sid: U32) {
    0 < sid < 0x8000_0000 && sid % 2 == 1 && sid > c.lastSid && |c.windows| < c.config.maxConcurrentStreams
    && c.contSid.None? && c.contBlock == []
  }

  /** The parts carry a block that an encoder in step with the connection may send. */
  ghost predicate Carries(c: Conn, parts: seq<seq<Byte>>, fields: seq<Hpack.Field>) {
    && parts != [] && Frameable(parts) && Assembled(parts) == Hpack.WireAll(fields)
    && |Hpack.WireAll(fields)| <= c.config.maxHeaderBlock && Hpack.MeaningAll(c.table, TABLE_LIMIT, fields).Some?
  }

  lemma CarriedDecodes(c: Conn, parts: seq<seq<Byte>>, fields: seq<Hpack.Field>)
    requires Carries(c, parts, fields)
    ensures Hpack.DecodeBlock(c.table, TABLE_LIMIT, c.config.maxHeaderBlock, Assembled(parts))
            == Ok(Hpack.MeaningAll(c.table, TABLE_LIMIT, fields).value)
  {
    Hpack.BlockRoundTrip(c.table, TABLE_LIMIT, fields);
  }

  /**
   A request without a body, its headers written by any RFC 7541 encoder whose table matches the connection's and cut
   into any frames, is dispatched with exactly those headers, whatever routing answers, and the two tables match again.
   */
  lemma RequestHeadersArrive(c: Conn, sid: U32, parts: seq<seq<Byte>>, fields: seq<Hpack.Field>, routing: Routing)
    requires Openable(c, sid) && Carries(c, parts, fields) && !routing.Reject?
    ensures forall f :: f in SplitFrames(sid, parts, true) ==> FromWire(f)
    ensures var s := Feed(c, SplitFrames(sid, parts, true), routing);
            var meant := Hpack.MeaningAll(c.table, TABLE_LIMIT, fields).value;
            s.Next? && s.out != [] && s.out[0] == Dispatched(sid, meant.headers, []) && s.conn.table == meant.table
  {
    hide Hpack.DecodeBlock, Hpack.WireAll, Hpack.MeaningAll, Feed, SplitFrames, Assembled, Frameable, OnHeaders;
    hide Dispatch;
    SplitLikeWhole(c, sid, parts, true, routing);
    CarriedDecodes(c, parts, fields);
    WholeBlock(c, sid, Assembled(parts), true, Hpack.MeaningAll(c.table, TABLE_LIMIT, fields).value, routing);
  }

  /** The connection with a new stream whose headers are complete, in the middle of HEADERS. */
  function Opened(c: Conn, sid: U32, endStream: bool, meant: Hpack.Block): Conn {
    c.(lastSid := sid, table := meant.table, windows := c.windows[sid := Flow.AsI32(c.peerInitial)],
       active := c.active[sid := HeadersComplete(NewStream(c, endStream), meant.headers)])
  }

  lemma WholeBlock(c: Conn, sid: U32, block: seq<Byte>, endStream: bool, meant: Hpack.Block, routing: Routing)
    requires Openable(c, sid) && !routing.Reject?
    requires Hpack.DecodeBlock(c.table, TABLE_LIMIT, c.config.maxHeaderBlock, block) == Ok(meant)
    ensures var s := OnHeaders(c, sid, block, endStream, true, routing);
            if endStream then
              s.Next? && s.out != [] && s.out[0] == Dispatched(sid, meant.headers, []) && s.conn.table == meant.table
            else s == Next(Opened(c, sid, false, meant), [])
  {
    hide Hpack.DecodeBlock, Dispatch, Flow.AsI32;
    assert [] + meant.headers == meant.headers;
    var c0 := c.(lastSid := sid, windows := c.windows[sid := Flow.AsI32(c.peerInitial)],
      active := c.active[sid := NewStream(c, endStream)]);
    var st := HeadersComplete(NewStream(c, endStream), meant.headers);
    assert c0.active[sid := st] == c.active[sid := st];
    DispatchedFirst(c0.(table := meant.table, active := c0.active - {sid}), sid, HalfClose(st), routing);
  }

  /**
   The same for a request with a body: its headers stay with the stream until the DATA that ends it, and the request
   is dispatched once with exactly those headers and exactly that body, after the credit for the body was given back.
   */
  lemma RequestWithBodyArrives(c: Conn, sid: U32, parts: seq<seq<Byte>>, fields: seq<Hpack.Field>,
      chunks: seq<seq<Byte>>, routing: Routing)
    requires Openable(c, sid) && Carries(c, parts, fields) && !routing.Reject?
    requires chunks != [] && Frameable(chunks) && |Assembled(chunks)| <= c.config.maxRequestSize
    requires Covered(chunks, c.recvWindow, Flow.AsI32(c.config.initialWindow))
    ensures forall f :: f in SplitFrames(sid, parts, false) + DataFrames(sid, chunks) ==> FromWire(f)
    ensures var s := Feed(c, SplitFrames(sid, parts, false) + DataFrames(sid, chunks), routing);
            var meant := Hpack.MeaningAll(c.table, TABLE_LIMIT, fields).value; var n := |AllReturned(sid, chunks)|;
            && s.Next? && s.conn.table == meant.table && n < |s.out| && s.out[..n] == AllReturned(sid, chunks)
            && s.out[n] == Dispatched(sid, meant.headers, Assembled(chunks))
  {
    hide Hpack.DecodeBlock, Hpack.WireAll, Hpack.MeaningAll, Feed, SplitFrames, DataFrames, Assembled, Frameable;
    hide OnHeaders, Dispatch, AllReturned, Covered;
    var meant := Hpack.MeaningAll(c.table, TABLE_LIMIT, fields).value;
    SplitLikeWhole(c, sid, parts, false, routing);
    CarriedDecodes(c, parts, fields);
    WholeBlock(c, sid, Assembled(parts), false, meant, routing);
    DataWire(sid, chunks);
    FeedAppend(c, SplitFrames(sid, parts, false), DataFrames(sid, chunks), routing);
    var c1 := Opened(c, sid, false, meant);
    assert [] + Assembled(chunks) == Assembled(chunks) && [] + meant.headers == meant.headers;
    FeedBody(c1, sid, chunks, routing);
    var st := c1.active[sid].(requestBody := Assembled(chunks), endStream := true);
    DispatchedFirst(c1.(active := c1.active - {sid}), sid, HalfClose(st), routing);
    ThenNothing(Feed(c1, DataFrames(sid, chunks), routing), routing);
  }

  /**
   A refused stream's header block is not decoded, so the compression state stays in step with the peer's exactly if
   the stream is not refused or its block would have left the table as it was.
   */
  lemma TablesMatchExactly(c: Conn, sid: U32, fields: seq<Hpack.Field>, endStream: bool, routing: Routing)
    requires sid % 2 == 1 && sid > c.lastSid && |Hpack.WireAll(fields)| <= c.config.maxHeaderBlock
    requires Hpack.MeaningAll(c.table, TABLE_LIMIT, fields).Some?
    ensures var s := OnHeaders(c, sid, Hpack.WireAll(fields), endStream, true, routing);
            var meant := Hpack.MeaningAll(c.table, TABLE_LIMIT, fields).value.table;
            s.Next? ==> (s.conn.table == meant <==> !Refused(c, sid) || meant == c.table)
  {
    var meant := Hpack.MeaningAll(c.table, TABLE_LIMIT, fields).value;
    Hpack.BlockRoundTrip(c.table, TABLE_LIMIT, fields);
    assert Hpack.DecodeBlock(c.table, TABLE_LIMIT, c.config.maxHeaderBlock, Hpack.WireAll(fields)) == Ok(meant);
    hide Hpack.DecodeBlock, Hpack.WireAll, Hpack.MeaningAll, HeaderFrames, HeaderBlock, ResponseBody, MarkClosed;
  }
}
