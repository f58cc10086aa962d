/**
 Every step of the connection keeps the invariant: answering, dispatching, polling and scheduling.
 */
module ConnectionSteps {
  import opened Base
  import opened Frame
  import opened Connection
  import opened ConnectionTrace
  import opened ConnectionInv

  // ---------------------------------------------------------------- histories

  lemma SafeEvents(t: Trace, t': Trace, sid: U32)
    requires SafeTrace(t) && OnlyOn(t, t', sid)
    requires sid != 0 ==> SafeView(Observe(t', sid))
    requires WritingOf(t') == Clear && AllWellFormed(t')
    ensures SafeTrace(t')
  {
    hide Observe, SafeView, WritingOf, AllWellFormed;
  }

  /** Nothing but the response grammar of stream `sid` moves from t to t'. */
  ghost predicate Books(t: Trace, t': Trace) {
    && ConnectionCredit(t') == ConnectionCredit(t) && TotalSent(t') == TotalSent(t)
    && InitialSetting(t') == InitialSetting(t) && Owed(t') == Owed(t)
  }

  // ---------------------------------------------------------------- header blocks

  /** What writing the frames of a header block does to a history. */
  ghost predicate BlockWritten(t: Trace, t': Trace, sid: U32, endStream: bool) {
    && OnlyOn(t, t', sid) && Books(t, t')
    && Observe(t', sid) == Observe(t, sid).(phase := AfterBlock(endStream, true), endInHead := endStream)
    && WritingOf(t') == Clear && AllWellFormed(t')
  }

  lemma {:induction false} ContinuationsWritten(t: Trace, sid: U32, rest: seq<Byte>, max: FrameSize, endStream: bool)
    requires rest != [] && 0 < sid < 0x8000_0000
    requires Observe(t, sid).phase == InHeaders(endStream) && Observe(t, sid).endInHead == endStream
    requires WritingOf(t) == Within(sid) && AllWellFormed(t)
    ensures BlockWritten(t, Extend(t, Sends(Continuations(sid, rest, max))), sid, endStream)
    decreases |rest|
  {
    var n := Min(max, |rest|);
    var f := ContinuationFrame(sid, rest[..n], n == |rest|);
    var frames := Continuations(sid, rest, max);
    var t1 := After(t, Sent(f));
    assert frames == [f] + Continuations(sid, rest[n..], max);
    assert Sends(frames)[0] == Sent(f) && Sends(frames)[1..] == Sends(Continuations(sid, rest[n..], max));
    assert WellFormed(f);
    if n < |rest| {
      ContinuationsWritten(t1, sid, rest[n..], max, endStream);
    }
  }

  /** What the first frame of a header block does to a history. */
  lemma FirstFrame(t: Trace, sid: U32, part: seq<Byte>, endStream: bool, endHeaders: bool)
    requires 0 < sid < 0x8000_0000 && |part| <= MAX_ALLOWED_FRAME_SIZE
    requires Observe(t, sid).phase == NotStarted && WritingOf(t) == Clear && AllWellFormed(t)
    ensures var t1 := After(t, Sent(HeadersFrame(sid, part, endStream, endHeaders)));
            && OnlyOn(t, t1, sid) && Books(t, t1) && AllWellFormed(t1)
            && Observe(t1, sid) == Observe(t, sid).(phase := AfterBlock(endStream, endHeaders), endInHead := endStream)
            && WritingOf(t1) == if endHeaders then Clear else Within(sid)
  {
    assert WellFormed(HeadersFrame(sid, part, endStream, endHeaders));
  }

  /** A header block is written as its first frame and then the others. */
  lemma FirstThenRest(t: Trace, sid: U32, block: seq<Byte>, endStream: bool, max: FrameSize)
    ensures var n := Min(|block|, max); var f := HeadersFrame(sid, block[..n], endStream, n == |block|);
            Extend(t, Sends(HeaderFrames(sid, block, endStream, max)))
            == Extend(After(t, Sent(f)), Sends(Continuations(sid, block[n..], max)))
  {
    hide Continuations, HeadersFrame;
    var n := Min(|block|, max);
    var out := Sends(HeaderFrames(sid, block, endStream, max));
    assert out[0] == Sent(HeadersFrame(sid, block[..n], endStream, n == |block|));
    assert out[1..] == Sends(Continuations(sid, block[n..], max));
  }

  lemma HeadersWritten(t: Trace, sid: U32, block: seq<Byte>, endStream: bool, max: FrameSize)
    requires 0 < sid < 0x8000_0000
    requires Observe(t, sid).phase == NotStarted && WritingOf(t) == Clear && AllWellFormed(t)
    ensures BlockWritten(t, Extend(t, Sends(HeaderFrames(sid, block, endStream, max))), sid, endStream)
  {
    hide HeaderFrames, HeadersFrame, Continuations, Sends, Extend, Observe, WritingOf, AllWellFormed, Books;
    var n := Min(|block|, max);
    var t1 := After(t, Sent(HeadersFrame(sid, block[..n], endStream, n == |block|)));
    FirstFrame(t, sid, block[..n], endStream, n == |block|);
    FirstThenRest(t, sid, block, endStream, max);
    if n < |block| {
      ContinuationsWritten(t1, sid, block[n..], max, endStream);
      BooksTwice(t, t1, Extend(t1, Sends(Continuations(sid, block[n..], max))));
    } else {
      NoContinuations(t1, sid, max);
    }
  }

  lemma BooksTwice(a: Trace, b: Trace, c: Trace)
    requires Books(a, b) && Books(b, c)
    ensures Books(a, c)
  {
  }

  lemma NoContinuations(t: Trace, sid: U32, max: FrameSize)
    ensures Extend(t, Sends(Continuations(sid, [], max))) == t
  {
  }

  // ---------------------------------------------------------------- answering

  lemma StreamIdOk(c: Conn, sid: U32)
    requires Ids(c) && Places(c, Some(sid))
    ensures 0 < sid < 0x8000_0000 && sid in c.windows && sid % 2 == 1 && c.lastSid < 0x8000_0000
  {
    assert sid in c.windows.Keys;
  }

  lemma NewBody(r: Response, reader: Option<Reader>)
    ensures var b := ResponseBody(r, reader); b.Some? ==> Progress(b.value, [], b.value)
  {
    var b := ResponseBody(r, reader);
    if b.Some? {
      assert [] + Left(b.value) == Left(b.value);
    }
  }

  /** What answering does to the history of the stream answered. */
  ghost predicate Answered(t: Trace, t': Trace, sid: U32, body: Option<Body>) {
    && OnlyOn(t, t', sid) && Books(t, t')
    && Observe(t', sid) == Observe(t, sid).(responses := Observe(t, sid).responses + 1, body := body,
                                            phase := AfterBlock(body.None?, true), endInHead := body.None?)
    && WritingOf(t') == Clear && AllWellFormed(t')
  }

  lemma AnswerEvents(t: Trace, sid: U32, body: Option<Body>, block: seq<Byte>, max: FrameSize)
    requires 0 < sid < 0x8000_0000
    requires Observe(t, sid).phase == NotStarted && WritingOf(t) == Clear && AllWellFormed(t)
    ensures Answered(t, Extend(t, [Responded(sid, body)] + Sends(HeaderFrames(sid, block, body.None?, max))), sid, body)
  {
    hide HeaderFrames, Sends, WellFormed;
    var t1 := After(t, Responded(sid, body));
    HeadersWritten(t1, sid, block, body.None?, max);
    ExtendAppend(t, [Responded(sid, body)], Sends(HeaderFrames(sid, block, body.None?, max)));
    ExtendOne(t, Responded(sid, body));
  }

  /** Answering a waiting stream keeps the invariant, whether or not there is a body. */
  lemma QueueKeeps(c: Conn, t: Trace, sid: U32, r: Response, reader: Option<Reader>)
    requires Loose(c, t, Some(sid)) && WaitingTie(Observe(t, sid)) && SafeTrace(t)
    ensures var s := QueueResponse(c, sid, r, reader); s.Next? && Inv(s.conn, Extend(t, s.out))
  {
    var body := ResponseBody(r, reader);
    StreamIdOk(c, sid);
    NewBody(r, reader);
    AnswerEvents(t, sid, body, HeaderBlock(c, r), c.peerMaxFrame);
    hide Loose, SafeTrace, Answered, WaitingTie, Observe, Release, ResponseBody, Progress, HeaderFrames, HeaderBlock;
    hide Extend, Sends;
    QueueKeepsState(c, t, Extend(t, QueueResponse(c, sid, r, reader).out), sid, body);
  }

  lemma AnsweredSafe(t: Trace, t': Trace, sid: U32, body: Option<Body>)
    requires WaitingTie(Observe(t, sid)) && SafeTrace(t) && sid != 0 && Answered(t, t', sid, body)
    requires body.Some? ==> Progress(body.value, [], body.value)
    ensures SafeTrace(t') && (body.Some? ==> SendingTie(body.value, Observe(t', sid)))
  {
    hide Observe, WritingOf, AllWellFormed, ConnectionCredit, TotalSent, InitialSetting, Owed;
    assert SafeView(Observe(t, sid));
    SafeEvents(t, t', sid);
  }

  lemma QueueKeepsState(c: Conn, t: Trace, t': Trace, sid: U32, body: Option<Body>)
    requires Loose(c, t, Some(sid)) && WaitingTie(Observe(t, sid)) && SafeTrace(t) && sid != 0
    requires Answered(t, t', sid, body)
    requires body.Some? ==> Progress(body.value, [], body.value)
    ensures Inv(if body.None? then Release(c, sid) else c.(bodyQ := c.bodyQ + [PendingResponse(sid, body.value)]), t')
  {
    AnsweredSafe(t, t', sid, body);
    hide Loose, SafeTrace, OnlyOn, Release, Progress, Observe, WritingOf, AllWellFormed, ConnectionCredit, TotalSent;
    hide InitialSetting, Owed, SendingTie, WaitingTie;
    QuietEvents(c, t, t', sid);
    if body.None? {
      ReleaseDetached(c, t', sid);
    } else {
      AttachBody(c, t', PendingResponse(sid, body.value));
    }
  }

  /** No stream above `last` has been dispatched, answered or sent anything. */
  ghost predicate Untouched(t: Trace, last: U32) {
    forall sid: U32 :: sid > last ==> FreshView(Observe(t, sid))
  }

  /** The connection may stop here, naming `last` as the last stream it acted on. */
  ghost predicate MayStop(t: Trace, last: U32) {
    last < 0x8000_0000 && SafeTrace(t) && Untouched(t, last)
  }

  /** A step's result: the invariant goes on, or the connection stops with a safe history. */
  ghost predicate Good(s: Step, t: Trace) {
    match s
    case Next(c, out) => Inv(c, Extend(t, out))
    case Stop(_, last, out) => MayStop(Extend(t, out), last)
  }

  lemma StopOk(c: Conn, t: Trace, d: Option<U32>)
    requires Loose(c, t, d) && SafeTrace(t)
    ensures MayStop(t, c.lastSid)
  {
    hide Numbers, OpenStreams, Places, Credits, SafeTrace, Observe, FreshView, ActiveTie, WaitingTie, SendingTie;
  }

  lemma DispatchSafe(t: Trace, sid: U32, st: Stream)
    requires ActiveTie(st, Observe(t, sid)) && st.endHeaders && st.endStream && SafeTrace(t) && sid != 0
    ensures var t' := After(t, Dispatched(sid, st.requestHeaders, st.requestBody));
            && OnlyOn(t, t', sid) && Books(t, t') && WaitingTie(Observe(t', sid)) && SafeTrace(t')
            && Observe(t', sid).credit == Observe(t, sid).credit && Observe(t', sid).sent == Observe(t, sid).sent
  {
    hide BodySafe;
    var t' := After(t, Dispatched(sid, st.requestHeaders, st.requestBody));
    assert SafeView(Observe(t, sid));
    assert BodySafe(Observe(t', sid)) by { DispatchBodySafe(Observe(t, sid), Observe(t', sid)); }
    SafeEvents(t, t', sid);
  }

  lemma DispatchBodySafe(v: View, v': View)
    requires BodySafe(v) && v'.body == v.body && v'.sent == v.sent && v'.phase == v.phase && v'.responses == v.responses
    ensures BodySafe(v')
  {
  }

  /** A complete request reaches routing once, with the body that was received. */
  lemma DispatchKeeps(c: Conn, t: Trace, sid: U32, st: Stream, routing: Routing)
    requires Loose(c, t, Some(sid)) && ActiveTie(st, Observe(t, sid)) && st.endHeaders && st.endStream && SafeTrace(t)
    ensures Good(Dispatch(c, sid, st, routing), t)
  {
    var e := Dispatched(sid, st.requestHeaders, st.requestBody);
    StreamIdOk(c, sid);
    ExtendOne(t, e);
    hide Good, Loose, SafeTrace, OnlyOn, Books, WaitingTie, ActiveTie, Dispatch, Extend, Observe, MayStop;
    StopOk(c, t, Some(sid));
    DispatchSafe(t, sid, st);
    DispatchKeepsState(c, t, After(t, e), e, sid, st, routing);
  }

  lemma DispatchKeepsState(c: Conn, t: Trace, t1: Trace, e: Event, sid: U32, st: Stream, routing: Routing)
    requires Loose(c, t, Some(sid)) && SafeTrace(t) && SafeTrace(t1) && OnlyOn(t, t1, sid) && Books(t, t1)
    requires e == Dispatched(sid, st.requestHeaders, st.requestBody) && t1 == Extend(t, [e])
    requires WaitingTie(Observe(t1, sid)) && MayStop(t, c.lastSid)
    requires Observe(t1, sid).credit == Observe(t, sid).credit && Observe(t1, sid).sent == Observe(t, sid).sent
    ensures Good(Dispatch(c, sid, st, routing), t)
  {
    hide Loose, SafeTrace, OnlyOn, QueueResponse, Observe, WaitingTie, ConnectionCredit, TotalSent, InitialSetting;
    hide Owed, MayStop;
    QuietEvents(c, t, t1, sid);
    match routing
    case Reject(code) =>
    case Immediate(r) =>
      QueueKeeps(c, t1, sid, r, None);
      ExtendAppend(t, [e], QueueResponse(c, sid, r, None).out);
    case Upstream(script) =>
      AttachHeader(c, t1, PendingHeader(sid, script));
  }

  // ---------------------------------------------------------------- polling

  lemma PollFrontKeeps(c: Conn, t: Trace)
    requires Inv(c, t) && c.headerQ != []
    ensures var turn := PollFront(c); Inv(turn.conn, Extend(t, turn.out))
  {
    hide Loose, SafeTrace, Observe, WaitingTie, QueueResponse, Release;
    var p := c.headerQ[0];
    var c1 := c.(headerQ := c.headerQ[1..]);
    DetachHeader(c, t);
    if p.script == [] {
      AttachHeader(c1, t, p);
    } else {
      match p.script[0]
      case HeadersPending => AttachHeader(c1, t, PendingHeader(p.sid, p.script[1..]));
      case UpstreamFailed =>
        WaitingPhase(Observe(t, p.sid));
        AbortKeeps(c1, t, p.sid, InternalError);
      case HeadersReady(response, reader) => QueueKeeps(c1, t, p.sid, response, reader);
    }
  }

  lemma WaitingPhase(v: View)
    requires WaitingTie(v)
    ensures v.phase == NotStarted
  {
  }

  lemma AbortSafe(t: Trace, sid: U32, code: ErrorCode)
    requires SafeTrace(t) && 0 < sid < 0x8000_0000
    requires Observe(t, sid).phase == NotStarted || Observe(t, sid).phase == Streaming
    ensures var t' := After(t, Sent(RstFrame(sid, code)));
            && OnlyOn(t, t', sid) && Books(t, t') && SafeTrace(t')
            && Observe(t', sid).credit == Observe(t, sid).credit && Observe(t', sid).sent == Observe(t, sid).sent
  {
    var t' := After(t, Sent(RstFrame(sid, code)));
    assert WellFormed(RstFrame(sid, code));
    assert SafeView(Observe(t, sid));
    SafeEvents(t, t', sid);
  }

  /** RST_STREAM for a detached stream whose response is not finished. */
  lemma AbortKeeps(c: Conn, t: Trace, sid: U32, code: ErrorCode)
    requires Loose(c, t, Some(sid)) && SafeTrace(t)
    requires Observe(t, sid).phase == NotStarted || Observe(t, sid).phase == Streaming
    ensures Inv(Release(c, sid), Extend(t, [Sent(RstFrame(sid, code))]))
  {
    StreamIdOk(c, sid);
    ExtendOne(t, Sent(RstFrame(sid, code)));
    var t' := After(t, Sent(RstFrame(sid, code)));
    AbortSafe(t, sid, code);
    hide Loose, SafeTrace, OnlyOn, Release, Observe, ConnectionCredit, TotalSent, InitialSetting, Owed;
    QuietEvents(c, t, t', sid);
    ReleaseDetached(c, t', sid);
  }

  lemma {:induction false} PollManyKeeps(c: Conn, t: Trace, n: nat)
    requires Inv(c, t) && n <= |c.headerQ|
    ensures var turn := PollMany(c, n); Inv(turn.conn, Extend(t, turn.out))
    decreases n
  {
    hide Inv, PollFront, Extend;
    if n == 0 {
      ExtendNone(t);
    } else {
      var first := PollFront(c);
      PollFrontKeeps(c, t);
      PollManyKeeps(first.conn, Extend(t, first.out), n - 1);
      ExtendAppend(t, first.out, PollMany(first.conn, n - 1).out);
    }
  }
}
