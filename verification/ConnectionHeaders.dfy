/**
 The headers of a request. A history determines by itself what its header blocks said: they are decoded in the order
 they were completed, each with the table its predecessors left, and a refused block leaves no trace. Every request
 is dispatched with exactly the headers that its own block says.
 */
module ConnectionHeaders {
  import opened Base
  import opened Frame
  import opened HpackTable
  import opened Connection
  import opened ConnectionTrace
  import opened ConnectionInv
  import opened ConnectionRuns
  import Hpack
  import HpackDrift
  import Flow
  import Sources

  // ---------------------------------------------------------------- what a history says

  /** The table so far and the one before the last HEADERS, the block still incomplete, and what each stream's said. */
  datatype Reading = Reading(
    table: Hpack.Table, before: Hpack.Table, partSid: Option<U32>, part: seq<Byte>, said: map<U32, seq<Header>>)

  const UNREAD := Reading(Hpack.Table([], TABLE_LIMIT), Hpack.Table([], TABLE_LIMIT), None, [], map[])

  function Completed(r: Reading, sid: U32, block: seq<Byte>): Reading {
    match Hpack.DecodeFields(r.table, TABLE_LIMIT, block)
    case Ok(b) => r.(table := b.table, said := r.said[sid := b.headers], partSid := None, part := [])
    case Err(_) => r
  }

  function ReadFrame(r: Reading, sid: U32, p: FramePayload): Reading {
    match p
    case Headers(block, _, endHeaders) =>
      var r := r.(before := r.table);
      if endHeaders then Completed(r, sid, block) else r.(partSid := Some(sid), part := block)
    case Continuation(block, endHeaders) =>
      if r.partSid != Some(sid) then r
      else if endHeaders then Completed(r, sid, r.part + block)
      else r.(part := r.part + block)
    case _ => r
  }

  /** A stream that is refused takes its block back. */
  function Refusal(e: Event): bool {
    e.Sent? && e.frame.payload == RstStream(RefusedStream)
  }

  function ReadEvent(r: Reading, e: Event): Reading {
    if e.Received? then ReadFrame(r, e.frame.header.streamId, e.frame.payload)
    else if Refusal(e) then r.(table := r.before, partSid := None, part := [],
        said := r.said - {e.frame.header.streamId})
    else r
  }

  function ReadAll(t: Trace): Reading {
    match t
    case Start => UNREAD
    case After(prev, e) => ReadEvent(ReadAll(prev), e)
  }

  /** Every request was dispatched with the headers its block said. */
  predicate Truthful(t: Trace) {
    match t
    case Start => true
    case After(prev, e) =>
      && Truthful(prev)
      && (e.Dispatched? ==> e.sid in ReadAll(prev).said && ReadAll(prev).said[e.sid] == e.headers)
  }

  // ---------------------------------------------------------------- the state agrees

  predicate StreamAgrees(c: Conn, sid: U32, r: Reading)
    requires sid in c.active
  {
    if c.contSid == Some(sid) then c.active[sid].requestHeaders == []
    else sid in r.said && c.active[sid].requestHeaders == r.said[sid]
  }

  predicate Agrees(c: Conn, r: Reading) {
    && r.table == c.table && r.partSid == c.contSid && (c.contSid.Some? ==> r.part == c.contBlock)
    && (forall sid :: sid in c.active ==> StreamAgrees(c, sid, r))
    && HpackDrift.Fits(c.table) && c.table.maxSize <= TABLE_LIMIT
  }

  /** What a step does to a history, the state agreeing with it still, should there be one. */
  ghost predicate Told(s: Step, t: Trace) {
    && Truthful(Extend(t, s.out)) && (forall e :: e in s.out ==> !e.Received?)
    && (s.Next? ==> Agrees(s.conn, ReadAll(Extend(t, s.out))))
  }

  /** Sent frames other than a refusal, and answers, say nothing about request headers. */
  predicate Quiet(e: Event) {
    (e.Sent? || e.Responded?) && !Refusal(e)
  }

  ghost predicate AllQuiet(out: seq<Event>) {
    forall e :: e in out ==> Quiet(e)
  }

  lemma {:induction false} QuietOut(t: Trace, out: seq<Event>)
    requires AllQuiet(out)
    ensures ReadAll(Extend(t, out)) == ReadAll(t) && (Truthful(t) ==> Truthful(Extend(t, out)))
    decreases |out|
  {
    if out != [] {
      assert Quiet(out[0]) && AllQuiet(out[1..]);
      QuietOut(After(t, out[0]), out[1..]);
    }
  }

  /** The parts of the state that requests' headers live in. */
  ghost predicate SameHeaders(c: Conn, c': Conn) {
    && c'.table == c.table && c'.contSid == c.contSid && c'.contBlock == c.contBlock
    && forall sid :: sid in c'.active ==>
       sid in c.active && c'.active[sid].requestHeaders == c.active[sid].requestHeaders
  }

  /** A step that touches no request headers. */
  ghost predicate Aside(c: Conn, s: Step) {
    AllQuiet(s.out) && (s.Next? ==> SameHeaders(c, s.conn))
  }

  lemma AgreesStill(c: Conn, c': Conn, r: Reading)
    requires Agrees(c, r) && SameHeaders(c, c')
    ensures Agrees(c', r)
  {
    hide HpackDrift.Fits;
    forall sid | sid in c'.active ensures StreamAgrees(c', sid, r) {
      assert StreamAgrees(c, sid, r);
    }
  }

  lemma AsideTold(c: Conn, s: Step, t: Trace)
    requires Agrees(c, ReadAll(t)) && Truthful(t) && Aside(c, s)
    ensures Told(s, t)
  {
    hide ReadAll, Truthful, Extend, Refusal, HpackDrift.Fits;
    QuietOut(t, s.out);
    if s.Next? {
      AgreesStill(c, s.conn, ReadAll(t));
    }
  }

  // ---------------------------------------------------------------- polling and sending

  lemma {:induction false} BlockQuiet(sid: U32, rest: seq<Byte>, max: FrameSize)
    ensures AllQuiet(Sends(Continuations(sid, rest, max)))
    decreases |rest|
  {
    if rest != [] {
      var n := Min(max, |rest|);
      BlockQuiet(sid, rest[n..], max);
      var later := Continuations(sid, rest[n..], max);
      SendsSplit(ContinuationFrame(sid, rest[..n], n == |rest|), later);
    }
  }

  lemma SendsSplit(f: Frame, later: seq<Frame>)
    ensures Sends([f] + later) == [Sent(f)] + Sends(later)
  {
  }

  lemma ResponseQuiet(c: Conn, sid: U32, r: Response, reader: Option<Reader>)
    ensures Aside(c, QueueResponse(c, sid, r, reader))
  {
    var block, body := HeaderBlock(c, r), ResponseBody(r, reader);
    var n := Min(|block|, c.peerMaxFrame);
    var f := HeadersFrame(sid, block[..n], body.None?, n == |block|);
    BlockQuiet(sid, block[n..], c.peerMaxFrame);
    SendsSplit(f, Continuations(sid, block[n..], c.peerMaxFrame));
    hide HeaderBlock, ResponseBody, Continuations, HeadersFrame, Sends, MarkClosed;
    assert Quiet(Sent(f)) by { Plain(sid, block[..n], body.None?, n == |block|); }
  }

  lemma Plain(sid: U32, block: seq<Byte>, endStream: bool, endHeaders: bool)
    requires |block| <= MAX_ALLOWED_FRAME_SIZE
    ensures Quiet(Sent(HeadersFrame(sid, block, endStream, endHeaders)))
  {
  }

  ghost predicate TurnAside(c: Conn, turn: Turn) {
    AllQuiet(turn.out) && SameHeaders(c, turn.conn)
  }

  lemma PollFrontAside(c: Conn)
    requires c.headerQ != []
    ensures TurnAside(c, PollFront(c))
  {
    hide QueueResponse, MarkClosed;
    var p := c.headerQ[0];
    if p.script != [] && p.script[0].HeadersReady? {
      ResponseQuiet(c.(headerQ := c.headerQ[1..]), p.sid, p.script[0].response, p.script[0].reader);
    }
  }

  lemma {:induction false} PollManyAside(c: Conn, n: nat)
    requires n <= |c.headerQ|
    ensures TurnAside(c, PollMany(c, n))
    decreases n
  {
    hide PollFront, Quiet;
    if n > 0 {
      PollFrontAside(c);
      PollManyAside(PollFront(c).conn, n - 1);
    }
  }

  lemma PollAside(c: Conn)
    ensures TurnAside(c, Poll(c))
  {
    hide PollMany, Quiet;
    PollManyAside(c, |c.headerQ|);
  }

  /** A body that cannot be read fails with an internal error. */
  lemma ReadFailure(b: Body, max: nat)
    ensures var r := ReadChunk(b, max); r.Err? ==> r.code == InternalError
  {
    hide Sources.ReadSource;
  }

  lemma SendReadAside(c: Conn, sid: U32, step: BodyStep)
    requires sid in c.windows
    requires step.read.Chunk? ==>
               && |step.read.data| <= MAX_ALLOWED_FRAME_SIZE
               && Flow.Consumed(c.connWindow, |step.read.data|).Ok?
               && Flow.Consumed(c.windows[sid], |step.read.data|).Ok?
    ensures TurnAside(c, SendRead(c, sid, step))
  {
    hide MarkClosed, Flow.Consumed;
  }

  lemma ServeFrontAside(c: Conn, quota: nat)
    requires c.bodyQ != []
    ensures TurnAside(c, ServeFront(c, quota))
  {
    hide SendRead, ReadChunk, MarkClosed;
    var p := c.bodyQ[0];
    var c' := c.(bodyQ := c.bodyQ[1..]);
    if p.sid in c.windows && c.windows[p.sid] > 0 && c.connWindow > 0 {
      var amount := Amount(c', quota, c.windows[p.sid]);
      ReadFailure(p.body, amount);
      var r := ReadChunk(p.body, amount);
      if r.Ok? {
        SendReadAside(c', p.sid, r.value);
      }
    }
  }

  lemma {:induction false} ServeManyAside(c: Conn, quota: nat, n: nat)
    requires n <= |c.bodyQ|
    ensures TurnAside(c, ServeMany(c, quota, n))
    decreases n
  {
    hide ServeFront, Quiet;
    if n > 0 {
      ServeFrontAside(c, quota);
      ServeManyAside(ServeFront(c, quota).conn, quota, n - 1);
    }
  }

  lemma ScheduleAside(c: Conn)
    ensures TurnAside(c, Schedule(c))
  {
    hide ServeMany, Quiet;
    if c.bodyQ != [] && c.connWindow > 0 {
      ServeManyAside(c, Share(c.connWindow, |c.bodyQ|), |c.bodyQ|);
    }
  }

  // ---------------------------------------------------------------- tables stay within their size

  lemma FieldFits(t: Hpack.Table, limit: nat, buf: seq<Byte>)
    requires buf != [] && HpackDrift.Fits(t) && t.maxSize <= limit
    ensures var r := Hpack.DecodeField(t, limit, buf);
            r.Ok? ==> HpackDrift.Fits(r.value.table) && r.value.table.maxSize <= limit
  {
    hide Hpack.DecodeLiteral, Hpack.DecodeName, Hpack.Lookup, Evict, Total;
  }

  lemma {:induction false} FieldsFit(t: Hpack.Table, limit: nat, buf: seq<Byte>)
    requires HpackDrift.Fits(t) && t.maxSize <= limit
    ensures var r := Hpack.DecodeFields(t, limit, buf);
            r.Ok? ==> HpackDrift.Fits(r.value.table) && r.value.table.maxSize <= limit
    decreases |buf|
  {
    hide Hpack.DecodeField, HpackDrift.Fits;
    if buf != [] {
      FieldFits(t, limit, buf);
      var step := Hpack.DecodeField(t, limit, buf);
      if step.Ok? {
        FieldsFit(step.value.table, limit, buf[step.value.length..]);
      }
    }
  }

  // ---------------------------------------------------------------- dispatching

  lemma DispatchTold(c: Conn, sid: U32, st: Stream, routing: Routing, t: Trace)
    requires Agrees(c, ReadAll(t)) && Truthful(t)
    requires sid in ReadAll(t).said && ReadAll(t).said[sid] == st.requestHeaders
    ensures Told(Dispatch(c, sid, st, routing), t)
  {
    var e := Dispatched(sid, st.requestHeaders, st.requestBody);
    var t1 := After(t, e);
    assert ReadAll(t1) == ReadAll(t) && Truthful(t1);
    var s := if routing.Immediate? then QueueResponse(c, sid, routing.response, None) else Next(c, []);
    if routing.Immediate? {
      ResponseQuiet(c, sid, routing.response, None);
    }
    hide ReadAll, Truthful, QueueResponse, Agrees, Quiet;
    if !routing.Reject? {
      var d := Dispatch(c, sid, st, routing);
      assert d.out == [e] + s.out && d.out[1..] == s.out;
      assert Extend(t, d.out) == Extend(t1, s.out);
      if routing.Immediate? {
        AsideTold(c, s, t1);
      } else {
        ExtendNone(t1);
        assert Agrees(d.conn, ReadAll(t1)) by { AgreesStill(c, d.conn, ReadAll(t1)); }
      }
    }
  }

  // ---------------------------------------------------------------- header blocks

  /** The reading agrees but for the stream whose block is being completed. */
  ghost predicate AgreesBut(c: Conn, r: Reading, sid: U32) {
    && r.table == c.table && c.contSid.None?
    && (forall other :: other in c.active && other != sid ==> StreamAgrees(c, other, r))
    && HpackDrift.Fits(c.table) && c.table.maxSize <= TABLE_LIMIT
  }

  lemma FinishAgrees(c: Conn, sid: U32, b: Hpack.Block, r: Reading, r': Reading)
    requires AgreesBut(c, r, sid) && sid in c.active && c.active[sid].requestHeaders == []
    requires HpackDrift.Fits(b.table) && b.table.maxSize <= TABLE_LIMIT
    requires r' == r.(table := b.table, said := r.said[sid := b.headers], partSid := None, part := [])
    ensures Agrees(c.(table := b.table, active := c.active - {sid}), r')
    ensures Agrees(c.(table := b.table, active := c.active[sid := HeadersComplete(c.active[sid], b.headers)]), r')
    ensures HeadersComplete(c.active[sid], b.headers).requestHeaders == b.headers
  {
    hide HpackDrift.Fits;
    assert [] + b.headers == b.headers;
    var c1 := c.(table := b.table, active := c.active - {sid});
    var c2 := c.(table := b.table, active := c.active[sid := HeadersComplete(c.active[sid], b.headers)]);
    forall other | other in c1.active ensures StreamAgrees(c1, other, r') {
      assert StreamAgrees(c, other, r);
    }
    forall other | other in c2.active ensures StreamAgrees(c2, other, r') {
      assert other == sid || StreamAgrees(c, other, r);
    }
  }

  lemma FinishTold(c: Conn, sid: U32, block: seq<Byte>, routing: Routing, r: Reading, t: Trace)
    requires AgreesBut(c, r, sid) && sid in c.active && c.active[sid].requestHeaders == [] && Truthful(t)
    requires ReadAll(t) == Completed(r, sid, block)
    ensures Told(FinishHeaders(c, sid, block, routing), t)
  {
    hide Hpack.DecodeFields, ReadAll, Truthful, Agrees, Dispatch, HalfClose, HpackDrift.Fits, StreamAgrees;
    ExtendNone(t);
    FieldsFit(c.table, TABLE_LIMIT, block);
    var d := Hpack.DecodeBlock(c.table, TABLE_LIMIT, c.config.maxHeaderBlock, block);
    if d.Ok? {
      var b := d.value;
      FinishAgrees(c, sid, b, r, ReadAll(t));
      var st := HeadersComplete(c.active[sid], b.headers);
      if st.endStream {
        assert HalfClose(st).requestHeaders == st.requestHeaders by { HalfCloseKeeps(st); }
        DispatchTold(c.(table := b.table, active := c.active - {sid}), sid, HalfClose(st), routing, t);
      }
    }
  }

  lemma HalfCloseKeeps(st: Stream)
    ensures HalfClose(st).requestHeaders == st.requestHeaders
  {
  }

  /** Only streams up to the last one opened are known. */
  lemma NewSid(c: Conn, t: Trace, sid: U32)
    requires Inv(c, t) && sid > c.lastSid
    ensures sid !in c.active
  {
    hide SafeTrace, Ties, Credits, OpenStreams, Numbers;
    assert sid !in c.windows;
    assert c.active.Keys <= c.windows.Keys;
  }

  /** Until a block is taken back, only its own stream's headers differ. */
  lemma TakenBack(r: Reading, sid: U32, p: FramePayload)
    requires p.Headers?
    ensures var r' := ReadFrame(r, sid, p);
            && r'.before == r.table
            && forall other :: other in r.said && other != sid ==> other in r'.said && r'.said[other] == r.said[other]
  {
    hide Hpack.DecodeFields;
  }

  lemma RefusedAgrees(c: Conn, c': Conn, r: Reading, f: Frame)
    requires Agrees(c, r) && c.contSid.None? && f.payload.Headers? && f.header.streamId !in c.active
             && SameHeaders(c, c')
    ensures Agrees(c', ReadEvent(ReadEvent(r, Received(f)), Sent(RstFrame(f.header.streamId, RefusedStream))))
  {
    var sid := f.header.streamId;
    TakenBack(r, sid, f.payload);
    var r1 := ReadFrame(r, sid, f.payload);
    var r' := ReadEvent(ReadEvent(r, Received(f)), Sent(RstFrame(sid, RefusedStream)));
    assert r' == r1.(table := r1.before, partSid := None, part := [], said := r1.said - {sid});
    hide HpackDrift.Fits, ReadFrame;
    forall other | other in c'.active ensures StreamAgrees(c', other, r') {
      assert StreamAgrees(c, other, r);
    }
  }

  lemma RefusedTold(c: Conn, t: Trace, f: Frame, s: Step)
    requires Agrees(c, ReadAll(t)) && Truthful(t) && c.contSid.None? && f.payload.Headers?
             && f.header.streamId !in c.active
    requires s.Next? && s.out == [Sent(RstFrame(f.header.streamId, RefusedStream))] && SameHeaders(c, s.conn)
    ensures Told(s, After(t, Received(f)))
  {
    hide Agrees, SameHeaders, ReadEvent;
    var t1, e := After(t, Received(f)), Sent(RstFrame(f.header.streamId, RefusedStream));
    ExtendNone(After(t1, e));
    assert s.out[0] == e && s.out[1..] == [];
    assert Extend(t1, s.out) == After(t1, e);
    assert ReadAll(After(t1, e)) == ReadEvent(ReadEvent(ReadAll(t), Received(f)), e);
    RefusedAgrees(c, s.conn, ReadAll(t), f);
    assert Truthful(t1);
    assert Truthful(After(t1, e));
  }

  lemma HeadersTold(c: Conn, t: Trace, f: Frame, routing: Routing)
    requires Inv(c, t) && Agrees(c, ReadAll(t)) && Truthful(t) && c.contSid.None? && f.payload.Headers?
    ensures Told(OnHeaders(c, f.header.streamId, f.payload.headerBlock, f.payload.endStream, f.payload.endHeaders,
            routing), After(t, Received(f)))
  {
    hide Inv, Agrees, ReadAll, MarkClosed, FinishHeaders, Extend;
    var sid, p, t1 := f.header.streamId, f.payload, After(t, Received(f));
    assert Truthful(t1);
    ExtendNone(t1);
    if sid % 2 == 1 && sid > c.lastSid {
      NewSid(c, t, sid);
      var s := OnHeaders(c, sid, p.headerBlock, p.endStream, p.endHeaders, routing);
      if |c.windows| >= c.config.maxConcurrentStreams {
        RefusedTold(c, t, f, s);
      } else {
        OpenedTold(c, t, f, routing);
      }
    }
  }

  /** The connection with a new stream, its header block still to be read. */
  function WithStream(c: Conn, sid: U32, endStream: bool): Conn {
    c.(lastSid := sid, windows := c.windows[sid := Flow.AsI32(c.peerInitial)],
       active := c.active[sid := NewStream(c, endStream)])
  }

  lemma NewStreamAgrees(c: Conn, sid: U32, endStream: bool, r: Reading, block: seq<Byte>)
    requires Agrees(c, r) && c.contSid.None? && sid !in c.active
    ensures AgreesBut(WithStream(c, sid, endStream), r.(before := r.table), sid)
    ensures Agrees(WithStream(c, sid, endStream).(contSid := Some(sid), contBlock := block),
                   r.(before := r.table, partSid := Some(sid), part := block))
  {
    hide HpackDrift.Fits;
    var c1, r1 := WithStream(c, sid, endStream), r.(before := r.table);
    var c2, r2 := c1.(contSid := Some(sid), contBlock := block), r1.(partSid := Some(sid), part := block);
    forall other | other in c1.active && other != sid
      ensures StreamAgrees(c1, other, r1) && StreamAgrees(c2, other, r2)
    {
      assert StreamAgrees(c, other, r);
    }
    assert StreamAgrees(c2, sid, r2);
  }

  lemma OpenedTold(c: Conn, t: Trace, f: Frame, routing: Routing)
    requires Agrees(c, ReadAll(t)) && Truthful(t) && c.contSid.None? && f.payload.Headers?
    requires f.header.streamId !in c.active && |c.windows| < c.config.maxConcurrentStreams
    requires f.header.streamId % 2 == 1 && f.header.streamId > c.lastSid
    ensures Told(OnHeaders(c, f.header.streamId, f.payload.headerBlock, f.payload.endStream, f.payload.endHeaders,
            routing), After(t, Received(f)))
  {
    hide HpackDrift.Fits, Completed, FinishHeaders, Extend, Agrees, AgreesBut;
    var sid, p, t1, r := f.header.streamId, f.payload, After(t, Received(f)), ReadAll(t);
    ExtendNone(t1);
    NewStreamAgrees(c, sid, p.endStream, r, p.headerBlock);
    if p.endHeaders {
      FinishTold(WithStream(c, sid, p.endStream), sid, p.headerBlock, routing, r.(before := r.table), t1);
    }
  }

  lemma PartActive(c: Conn, t: Trace)
    requires Inv(c, t) && c.contSid.Some?
    ensures c.contSid.value in c.active
  {
  }

  lemma ContinuationTold(c: Conn, t: Trace, f: Frame, routing: Routing)
    requires Inv(c, t) && Agrees(c, ReadAll(t)) && Truthful(t) && f.payload.Continuation?
             && c.contSid == Some(f.header.streamId)
    ensures Told(OnContinuation(c, f.header.streamId, f.payload.headerBlock, f.payload.endHeaders, routing),
            After(t, Received(f)))
  {
    hide Inv, HpackDrift.Fits, Completed, FinishHeaders, Extend;
    var sid, p, t1, r := f.header.streamId, f.payload, After(t, Received(f)), ReadAll(t);
    PartActive(c, t);
    ExtendNone(t1);
    assert StreamAgrees(c, sid, r);
    var all := c.contBlock + p.headerBlock;
    if |all| <= c.config.maxHeaderBlock {
      if p.endHeaders {
        var c1 := c.(contSid := None, contBlock := []);
        forall other | other in c1.active && other != sid ensures StreamAgrees(c1, other, r) {
          assert StreamAgrees(c, other, r);
        }
        FinishTold(c1, sid, all, routing, r, t1);
      } else {
        var c1 := c.(contBlock := all);
        forall other | other in c1.active ensures StreamAgrees(c1, other, ReadAll(t1)) {
          assert StreamAgrees(c, other, r);
        }
      }
    }
  }

  // ---------------------------------------------------------------- the other frames

  lemma ThenTold(out: seq<Event>, s: Step, t: Trace)
    requires AllQuiet(out) && Told(s, Extend(t, out))
    ensures Told(Then(out, s), t)
  {
    hide Agrees, Truthful, ReadAll, Refusal, Extend;
    ExtendAppend(t, out, s.out);
  }

  /** The request is complete, once credit for its last part has been given back. */
  lemma CompleteTold(c: Conn, sid: U32, st: Stream, credit: seq<Event>, routing: Routing, t: Trace)
    requires Agrees(c, ReadAll(t)) && Truthful(t) && AllQuiet(credit)
    requires sid in ReadAll(t).said && ReadAll(t).said[sid] == st.requestHeaders
    ensures Told(Then(credit, Dispatch(c, sid, HalfClose(st), routing)), t)
  {
    hide Agrees, ReadAll, Truthful, Dispatch, HalfClose, Extend, AllQuiet;
    HalfCloseKeeps(st);
    QuietOut(t, credit);
    DispatchTold(c, sid, HalfClose(st), routing, Extend(t, credit));
    ThenTold(credit, Dispatch(c, sid, HalfClose(st), routing), t);
  }

  lemma SettledStream(c: Conn, sid: U32, r: Reading)
    requires Agrees(c, r) && c.contSid.None? && sid in c.active
    ensures sid in r.said && r.said[sid] == c.active[sid].requestHeaders
  {
    assert StreamAgrees(c, sid, r);
  }

  /** DATA that completes a request hands it over; any other leaves the headers alone. */
  lemma DataShape(c: Conn, sid: U32, data: seq<Byte>, endStream: bool, routing: Routing)
    requires sid in c.active && |data| <= MAX_ALLOWED_FRAME_SIZE
    ensures var s, st := OnData(c, sid, data, endStream, routing), c.active[sid];
            var r := Replenish(c.recvWindow, st.window, |data|);
            if r.Ok? && endStream && |data| <= SaturatingSub(c.config.maxRequestSize, |st.requestBody|) then
              var c1 := c.(recvWindow := r.value.0, active := c.active - {sid});
              var st' := st.(window := r.value.1, requestBody := st.requestBody + data, endStream := true);
              s == Then(Credit(sid, |data|), Dispatch(c1, sid, HalfClose(st'), routing))
            else Aside(c, s)
  {
    hide Replenish, Dispatch, HalfClose, Then;
  }

  lemma CreditQuiet(sid: U32, n: nat)
    requires n <= MAX_ALLOWED_FRAME_SIZE
    ensures AllQuiet(Credit(sid, n))
  {
  }

  lemma DataTold(c: Conn, t: Trace, f: Frame, routing: Routing)
    requires Agrees(c, ReadAll(t)) && Truthful(t) && c.contSid.None? && f.payload.Data? && FromWire(f)
    ensures Told(OnData(c, f.header.streamId, f.payload.data, f.payload.endStream, routing), After(t, Received(f)))
  {
    var sid, data, t1 := f.header.streamId, f.payload.data, After(t, Received(f));
    assert ReadAll(t1) == ReadAll(t) && Truthful(t1);
    if sid !in c.active {
      assert OnData(c, sid, data, f.payload.endStream, routing) == Stop(StreamClosed, c.lastSid, []);
      StopTold(StreamClosed, c.lastSid, t1);
    } else {
      hide ReadAll, Truthful, Replenish, Dispatch, HalfClose, Extend, Agrees, Told, Then, OnData, Aside, Credit;
      hide AllQuiet;
      DataShape(c, sid, data, f.payload.endStream, routing);
      var st, s := c.active[sid], OnData(c, sid, data, f.payload.endStream, routing);
      var r := Replenish(c.recvWindow, st.window, |data|);
      if r.Ok? && f.payload.endStream && |data| <= SaturatingSub(c.config.maxRequestSize, |st.requestBody|) {
        var c1 := c.(recvWindow := r.value.0, active := c.active - {sid});
        var st' := st.(window := r.value.1, requestBody := st.requestBody + data, endStream := true);
        SettledStream(c, sid, ReadAll(t));
        AgreesStill(c, c1, ReadAll(t));
        CreditQuiet(sid, |data|);
        CompleteTold(c1, sid, st', Credit(sid, |data|), routing, t1);
      } else {
        AsideTold(c, s, t1);
      }
    }
  }

  lemma SettingSame(c: Conn, s: Setting)
    ensures var r := ApplySetting(c, s); r.Ok? ==> SameHeaders(c, r.value)
  {
    hide Flow.Adjusted;
  }

  lemma {:induction false} SettingsSame(c: Conn, settings: seq<Setting>)
    ensures var r := ApplySettings(c, settings); r.Ok? ==> SameHeaders(c, r.value)
    decreases |settings|
  {
    hide ApplySetting;
    if settings != [] {
      SettingSame(c, settings[0]);
      var next := ApplySetting(c, settings[0]);
      if next.Ok? {
        SettingsSame(next.value, settings[1..]);
      }
    }
  }

  /** Every other frame leaves the headers alone. */
  lemma OtherAside(c: Conn, f: Frame, routing: Routing)
    requires FromWire(f) && !f.payload.Headers? && !f.payload.Continuation? && !f.payload.Data?
    ensures Aside(c, ProcessFrame(c, f, routing))
  {
    hide ApplySettings, MarkClosed, WithoutHeader, WithoutBody, Flow.Updated;
    if f.payload.Settings? {
      SettingsSame(c, f.payload.settings);
    }
  }

  lemma FrameTold(c: Conn, t: Trace, f: Frame, routing: Routing)
    requires Inv(c, t) && Agrees(c, ReadAll(t)) && Truthful(t) && FromWire(f)
    ensures Told(ProcessFrame(c, f, routing), After(t, Received(f)))
  {
    hide Inv, Agrees, OnHeaders, OnContinuation, OnData, OnWindowUpdate, OnReset, ApplySettings, Told, Extend, Aside;
    var t1 := After(t, Received(f));
    if f.payload.Headers? || f.payload.Continuation? || f.payload.Data? {
      if c.contSid.None? && f.payload.Headers? {
        HeadersTold(c, t, f, routing);
      } else if c.contSid == Some(f.header.streamId) && f.payload.Continuation? {
        ContinuationTold(c, t, f, routing);
      } else if c.contSid.None? && f.payload.Data? {
        DataTold(c, t, f, routing);
      } else {
        assert ProcessFrame(c, f, routing) == Stop(ProtocolError, c.lastSid, []);
        StopTold(ProtocolError, c.lastSid, t1);
      }
    } else {
      OtherAside(c, f, routing);
      assert ReadAll(t1) == ReadAll(t) && Truthful(t1);
      AsideTold(c, ProcessFrame(c, f, routing), t1);
    }
  }

  lemma StopTold(code: ErrorCode, last: U32, t: Trace)
    requires Truthful(t)
    ensures Told(Stop(code, last, []), t)
  {
    ExtendNone(t);
  }

  // ---------------------------------------------------------------- whole runs

  /** The history tells the truth about headers, and a state that goes on agrees with it. */
  ghost predicate Honest(s: Status) {
    Truthful(s.history) && (s.Running? ==> Agrees(s.conn, ReadAll(s.history)))
  }

  lemma TurnHonest(c: Conn, turn: Turn, t: Trace)
    requires Agrees(c, ReadAll(t)) && Truthful(t) && TurnAside(c, turn)
    ensures Honest(Running(turn.conn, Extend(t, turn.out)))
  {
    hide Agrees, Truthful, ReadAll, Extend, SameHeaders, AllQuiet;
    AsideTold(c, Next(turn.conn, turn.out), t);
  }

  lemma SettleHonest(s: Step, t: Trace)
    requires Told(s, t)
    ensures Honest(Settle(s, t))
  {
    hide Agrees, Extend;
  }

  lemma ReactHonest(c: Conn, t: Trace, i: Input)
    requires Inv(c, t) && Possible(i) && Honest(Running(c, t))
    ensures Honest(React(c, t, i))
  {
    hide Inv, Agrees, Truthful, ReadAll, Extend, ProcessFrame, Poll, Schedule, Settle, Told, Honest, TurnAside;
    HonestRunning(c, t);
    match i
    case Incoming(f, routing) =>
      FrameTold(c, t, f, routing);
      SettleHonest(ProcessFrame(c, f, routing), After(t, Received(f)));
    case Unreadable(code) =>
      StopTold(code, c.lastSid, t);
      SettleHonest(Stop(code, c.lastSid, []), t);
    case PollUpstreams =>
      PollAside(c);
      TurnHonest(c, Poll(c), t);
    case SendRound =>
      ScheduleAside(c);
      TurnHonest(c, Schedule(c), t);
  }

  lemma HonestRunning(c: Conn, t: Trace)
    ensures Honest(Running(c, t)) <==> Truthful(t) && Agrees(c, ReadAll(t))
  {
  }

  lemma {:induction false} RunHonest(config: Config, inputs: seq<Input>)
    requires forall i :: i in inputs ==> Possible(i)
    ensures Honest(Execute(config, inputs))
    decreases |inputs|
  {
    hide React, Initial, Opening, Honest, Possible, Sound;
    if inputs == [] {
      StartHonest(config);
    } else {
      var before := inputs[..|inputs| - 1];
      RunHonest(config, before);
      RunSound(config, before);
      var s := Execute(config, before);
      if s.Running? {
        SoundRunning(s);
        ReactHonest(s.conn, s.history, inputs[|inputs| - 1]);
      }
    }
  }

  lemma SoundRunning(s: Status)
    requires Sound(s) && s.Running?
    ensures Inv(s.conn, s.history)
  {
    hide Inv;
  }

  lemma StartHonest(config: Config)
    ensures Honest(Running(Initial(config), Opening(config)))
  {
    assert ReadAll(Start) == UNREAD && ReadAll(Opening(config)) == UNREAD;
  }

  /**
   In every run, every request was dispatched with the headers that its own header block says, the blocks being read
   in order; and a run that goes on has, in its table, the compression state its history leads to.
   */
  lemma HeadersAsSent(config: Config, inputs: seq<Input>)
    requires forall i :: i in inputs ==> Possible(i)
    ensures var s := Execute(config, inputs);
            && Truthful(s.history)
            && (s.Running? ==>
                  && s.conn.table == ReadAll(s.history).table
                  && Total(s.conn.table.entries) <= s.conn.table.maxSize <= TABLE_LIMIT)
  {
    hide Execute, Truthful, ReadAll, Total;
    RunHonest(config, inputs);
  }

  /** A block in the form of RFC 7541 says what its encoder meant, given the encoder's table. */
  lemma SaysAsMeant(r: Reading, sid: U32, fields: seq<Hpack.Field>)
    requires Hpack.MeaningAll(r.table, TABLE_LIMIT, fields).Some?
    ensures var r' := Completed(r, sid, Hpack.WireAll(fields));
            var meant := Hpack.MeaningAll(r.table, TABLE_LIMIT, fields).value;
            sid in r'.said && r'.said[sid] == meant.headers && r'.table == meant.table
  {
    hide Hpack.MeaningAll, Hpack.WireAll, Hpack.DecodeFields;
    Hpack.BlockRoundTrip(r.table, TABLE_LIMIT, fields);
  }

  // ---------------------------------------------------------------- refused blocks

  lemma MeaningFits(t: Hpack.Table, fields: seq<Hpack.Field>)
    requires HpackDrift.Fits(t) && t.maxSize <= TABLE_LIMIT && Hpack.MeaningAll(t, TABLE_LIMIT, fields).Some?
    ensures var u := Hpack.MeaningAll(t, TABLE_LIMIT, fields).value.table;
            HpackDrift.Fits(u) && u.maxSize <= TABLE_LIMIT
  {
    hide Hpack.MeaningAll, Hpack.WireAll, Hpack.DecodeFields, HpackDrift.Fits;
    Hpack.BlockRoundTrip(t, TABLE_LIMIT, fields);
    FieldsFit(t, TABLE_LIMIT, Hpack.WireAll(fields));
  }

  /**
   The encoder goes on with the table its refused block left it, the server with the one before. In every run, from
   there on all blocks within the size limit are read as they are meant if the server still has all that the encoder
   may refer to, and only then; otherwise legal blocks are read as other headers or end the connection.
   */
  lemma RefusalExact(config: Config, inputs: seq<Input>, sid: U32, fields: seq<Hpack.Field>, routing: Routing)
    requires forall i :: i in inputs ==> Possible(i)
    ensures var s := Execute(config, inputs);
            s.Running? && sid % 2 == 1 && sid > s.conn.lastSid && |s.conn.windows| >= s.conn.config.maxConcurrentStreams
            && Hpack.MeaningAll(s.conn.table, TABLE_LIMIT, fields).Some? ==>
              var max := s.conn.config.maxHeaderBlock;
              var encoder := Hpack.MeaningAll(s.conn.table, TABLE_LIMIT, fields).value.table;
              var next := OnHeaders(s.conn, sid, Hpack.WireAll(fields), true, true, routing);
              && next.Next?
              && (HpackDrift.InStep(s.conn.table, encoder) ==>
                    HpackDrift.AlwaysReads(next.conn.table, encoder, TABLE_LIMIT, max))
              && (max >= HpackDrift.SMALL_BLOCK ==>
                    HpackDrift.AlwaysReads(next.conn.table, encoder, TABLE_LIMIT, max) ==>
                    HpackDrift.InStep(s.conn.table, encoder))
  {
    hide Execute, Hpack.MeaningAll, Hpack.WireAll, FinishHeaders, MarkClosed, ReadAll, Truthful, Total;
    hide HpackDrift.AlwaysReads, HpackDrift.InStep;
    HeadersAsSent(config, inputs);
    var s := Execute(config, inputs);
    if s.Running? && Hpack.MeaningAll(s.conn.table, TABLE_LIMIT, fields).Some? {
      var max, t := s.conn.config.maxHeaderBlock, s.conn.table;
      var encoder := Hpack.MeaningAll(t, TABLE_LIMIT, fields).value.table;
      MeaningFits(t, fields);
      if HpackDrift.InStep(t, encoder) {
        HpackDrift.InStepAlwaysReads(t, encoder, TABLE_LIMIT, max);
      } else if max >= HpackDrift.SMALL_BLOCK {
        HpackDrift.ReadsExactlyInStep(t, encoder, TABLE_LIMIT, max);
      }
    }
  }
}
