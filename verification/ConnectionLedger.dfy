/**
 Two more ledgers of a history: which streams have ended, and how large the peer lets frames be. In every run the
 server's list of closed streams is what the history says it must remember, and no frame it sends is too large.
 */
module ConnectionLedger {
  import opened Base
  import opened Frame
  import opened Connection
  import opened ConnectionTrace
  import opened ConnectionRuns
  import Flow
  import Hpack

  // ---------------------------------------------------------------- what the history says

  /** The stream that an event ends: END_STREAM or RST_STREAM sent on it, or RST_STREAM received. */
  function Ending(e: Event): Option<U32> {
    match e
    case Sent(f) => (
      match f.payload
      case Headers(_, endStream, _) => if endStream then Some(f.header.streamId) else None
      case Data(_, endStream) => if endStream then Some(f.header.streamId) else None
      case RstStream(_) => Some(f.header.streamId)
      case _ => None)
    case Received(f) => if f.payload.RstStream? then Some(f.header.streamId) else None
    case _ => None
  }

  /** One more stream to remember: nothing if it is remembered already, else last, the oldest making room. */
  function Remember(closed: seq<U32>, e: Event, limit: nat): seq<U32> {
    if Ending(e).None? || Ending(e).value in closed then closed
    else
      var all := closed + [Ending(e).value];
      if |all| > limit then all[|all| - limit..] else all
  }

  function RememberAll(closed: seq<U32>, out: seq<Event>, limit: nat): seq<U32>
    decreases |out|
  {
    if out == [] then closed else RememberAll(Remember(closed, out[0], limit), out[1..], limit)
  }

  /** The streams a history leaves remembered, oldest first. */
  function Remembered(t: Trace, limit: nat): seq<U32> {
    match t
    case Start => []
    case After(prev, e) => Remember(Remembered(prev, limit), e, limit)
  }

  /** The last SETTINGS_MAX_FRAME_SIZE in a list, or `current` if there is none; values out of range do not count. */
  function LastMaxFrame(settings: seq<Setting>, current: U32): (max: U32)
    ensures current >= 16_384 ==> max >= 16_384
    decreases |settings|
  {
    if settings == [] then current
    else
      var s := settings[0];
      LastMaxFrame(settings[1..], if s.id == MaxFrameSize && 16_384 <= s.value <= 16_777_215 then s.value else current)
  }

  /** The largest frame the peer lets the server send. */
  function MaxFrameSetting(t: Trace): (max: U32)
    ensures max >= 16_384
  {
    match t
    case Start => 16_384
    case After(prev, Received(f)) =>
      if f.payload.Settings? && !f.payload.ack then LastMaxFrame(f.payload.settings, MaxFrameSetting(prev))
      else MaxFrameSetting(prev)
    case After(prev, _) => MaxFrameSetting(prev)
  }

  /** Every frame sent was no larger than the peer allowed at that time. */
  predicate FramesFit(t: Trace) {
    match t
    case Start => true
    case After(prev, e) => FramesFit(prev) && (e.Sent? ==> e.frame.header.length <= MaxFrameSetting(prev))
  }

  lemma {:induction false} RememberedExtend(t: Trace, out: seq<Event>, limit: nat)
    ensures Remembered(Extend(t, out), limit) == RememberAll(Remembered(t, limit), out, limit)
    decreases |out|
  {
    if out != [] {
      RememberedExtend(After(t, out[0]), out[1..], limit);
    }
  }

  lemma {:induction false} RememberAppend(closed: seq<U32>, a: seq<Event>, b: seq<Event>, limit: nat)
    ensures RememberAll(closed, a + b, limit) == RememberAll(RememberAll(closed, a, limit), b, limit)
    decreases |a|
  {
    if a == [] {
      assert a + b == b;
    } else {
      assert (a + b)[0] == a[0] && (a + b)[1..] == a[1..] + b;
      RememberAppend(Remember(closed, a[0], limit), a[1..], b, limit);
    }
  }

  // ---------------------------------------------------------------- what a step does

  /** Frames of at most `max` bytes, none of the events being a frame received. */
  ghost predicate Fitting(out: seq<Event>, max: nat) {
    forall e :: e in out ==> !e.Received? && (e.Sent? ==> e.frame.header.length <= max)
  }

  /** The list of closed streams follows the events, and the frames fit. */
  ghost predicate Booked(c: Conn, c': Conn, out: seq<Event>) {
    && c'.config == c.config && c'.peerMaxFrame == c.peerMaxFrame && Fitting(out, c.peerMaxFrame)
    && c'.closed == RememberAll(c.closed, out, ClosedLimit(c.config))
  }

  lemma BookedNone(c: Conn, c': Conn)
    requires c'.config == c.config && c'.peerMaxFrame == c.peerMaxFrame && c'.closed == c.closed
    ensures Booked(c, c', [])
  {
  }

  lemma BookedTwice(a: Conn, b: Conn, c: Conn, out: seq<Event>, more: seq<Event>)
    requires Booked(a, b, out) && Booked(b, c, more)
    ensures Booked(a, c, out + more)
  {
    hide RememberAll;
    RememberAppend(a.closed, out, more, ClosedLimit(a.config));
  }

  /** An event that ends no stream. */
  lemma BookedOne(c: Conn, c': Conn, e: Event)
    requires c'.config == c.config && c'.peerMaxFrame == c.peerMaxFrame
    requires !e.Received? && (e.Sent? ==> e.frame.header.length <= c.peerMaxFrame)
    requires c'.closed == Remember(c.closed, e, ClosedLimit(c.config))
    ensures Booked(c, c', [e])
  {
    assert [e][1..] == [];
  }

  /** Releasing a stream remembers it. */
  lemma ReleaseRemembers(c: Conn, sid: U32, e: Event)
    requires Ending(e) == Some(sid)
    ensures Release(c, sid).closed == Remember(c.closed, e, ClosedLimit(c.config))
    ensures MarkClosed(c.closed, sid, ClosedLimit(c.config)) == Remember(c.closed, e, ClosedLimit(c.config))
  {
  }

  lemma {:induction false} ContinuationsBooked(c: Conn, sid: U32, rest: seq<Byte>)
    ensures Booked(c, c, Sends(Continuations(sid, rest, c.peerMaxFrame)))
    decreases |rest|
  {
    if rest == [] {
      BookedNone(c, c);
      assert Sends(Continuations(sid, rest, c.peerMaxFrame)) == [];
    } else {
      var n := Min(c.peerMaxFrame, |rest|);
      var f := ContinuationFrame(sid, rest[..n], n == |rest|);
      var later := Continuations(sid, rest[n..], c.peerMaxFrame);
      ContinuationsBooked(c, sid, rest[n..]);
      BookedOne(c, c, Sent(f));
      BookedTwice(c, c, c, [Sent(f)], Sends(later));
      assert Sends([f] + later) == [Sent(f)] + Sends(later);
    }
  }

  lemma HeadersBooked(c: Conn, c': Conn, sid: U32, block: seq<Byte>, endStream: bool)
    requires c'.config == c.config && c'.peerMaxFrame == c.peerMaxFrame
    requires c'.closed == if endStream then MarkClosed(c.closed, sid, ClosedLimit(c.config)) else c.closed
    ensures Booked(c, c', Sends(HeaderFrames(sid, block, endStream, c.peerMaxFrame)))
  {
    var n := Min(|block|, c.peerMaxFrame);
    var f := HeadersFrame(sid, block[..n], endStream, n == |block|);
    var later := Continuations(sid, block[n..], c.peerMaxFrame);
    ReleaseRemembers(c, sid, Sent(RstFrame(sid, NoError)));
    BookedOne(c, c', Sent(f));
    hide MarkClosed, Booked, Continuations, RememberAll;
    ContinuationsBooked(c', sid, block[n..]);
    BookedTwice(c, c', c', [Sent(f)], Sends(later));
    assert Sends([f] + later) == [Sent(f)] + Sends(later);
  }

  lemma QueueBooked(c: Conn, sid: U32, r: Response, reader: Option<Reader>)
    ensures var s := QueueResponse(c, sid, r, reader); Booked(c, s.conn, s.out)
  {
    hide MarkClosed, Booked, HeaderFrames, HeaderBlock, ResponseBody, Sends, ClosedLimit;
    var body := ResponseBody(r, reader);
    var frames := HeaderFrames(sid, HeaderBlock(c, r), body.None?, c.peerMaxFrame);
    var s := QueueResponse(c, sid, r, reader);
    assert Booked(c, c, [Responded(sid, body)]) by { AnswerBooked(c, sid, body); }
    HeadersBooked(c, s.conn, sid, HeaderBlock(c, r), body.None?);
    BookedTwice(c, c, s.conn, [Responded(sid, body)], Sends(frames));
  }

  lemma AnswerBooked(c: Conn, sid: U32, body: Option<Body>)
    ensures Booked(c, c, [Responded(sid, body)])
  {
    BookedOne(c, c, Responded(sid, body));
  }

  lemma DispatchBooked(c: Conn, sid: U32, st: Stream, routing: Routing)
    ensures var s := Dispatch(c, sid, st, routing); s.Next? ==> Booked(c, s.conn, s.out)
    ensures Fitting(Dispatch(c, sid, st, routing).out, c.peerMaxFrame)
  {
    hide QueueResponse, RememberAll;
    var e := Dispatched(sid, st.requestHeaders, st.requestBody);
    match routing
    case Reject(_) =>
    case Immediate(r) =>
      QueueBooked(c, sid, r, None);
      BookedOne(c, c, e);
      var s := QueueResponse(c, sid, r, None);
      BookedTwice(c, c, s.conn, [e], s.out);
    case Upstream(script) =>
      BookedOne(c, c.(headerQ := c.headerQ + [PendingHeader(sid, script)]), e);
  }

  // ---------------------------------------------------------------- polling and sending

  lemma PollFrontBooked(c: Conn)
    requires c.headerQ != []
    ensures var turn := PollFront(c); Booked(c, turn.conn, turn.out)
  {
    hide QueueResponse, Booked, MarkClosed;
    var p, c1 := c.headerQ[0], c.(headerQ := c.headerQ[1..]);
    var turn := PollFront(c);
    if p.script == [] || p.script[0].HeadersPending? {
      BookedNone(c, turn.conn);
    } else if p.script[0].UpstreamFailed? {
      var e := Sent(RstFrame(p.sid, InternalError));
      ReleaseRemembers(c1, p.sid, e);
      BookedOne(c, Release(c1, p.sid), e);
    } else {
      QueueBooked(c1, p.sid, p.script[0].response, p.script[0].reader);
      QueueSame(c, c1, turn.conn, turn.out);
    }
  }

  lemma QueueSame(c: Conn, c1: Conn, c': Conn, out: seq<Event>)
    requires Booked(c1, c', out) && c1.config == c.config && c1.peerMaxFrame == c.peerMaxFrame && c1.closed == c.closed
    ensures Booked(c, c', out)
  {
  }

  lemma {:induction false} PollManyBooked(c: Conn, n: nat)
    requires n <= |c.headerQ|
    ensures var turn := PollMany(c, n); Booked(c, turn.conn, turn.out)
    decreases n
  {
    hide PollFront, Booked;
    if n == 0 {
      BookedNone(c, c);
    } else {
      var first := PollFront(c);
      PollFrontBooked(c);
      PollManyBooked(first.conn, n - 1);
      var rest := PollMany(first.conn, n - 1);
      BookedTwice(c, first.conn, rest.conn, first.out, rest.out);
    }
  }

  lemma SendReadBooked(c: Conn, sid: U32, step: BodyStep)
    requires sid in c.windows
    requires step.read.Chunk? ==>
               && |step.read.data| <= MAX_ALLOWED_FRAME_SIZE && |step.read.data| <= c.peerMaxFrame
               && Flow.Consumed(c.connWindow, |step.read.data|).Ok?
               && Flow.Consumed(c.windows[sid], |step.read.data|).Ok?
    ensures var turn := SendRead(c, sid, step); Booked(c, turn.conn, turn.out)
  {
    hide Booked, MarkClosed, Flow.Consumed, ClosedLimit, Remember;
    var turn := SendRead(c, sid, step);
    if turn.out == [] {
      BookedNone(c, turn.conn);
    } else {
      var e := turn.out[0];
      assert turn.out == [e];
      assert e.Sent? && e.frame.payload.Data? && e.frame.header.length <= c.peerMaxFrame;
      if e.frame.payload.endStream {
        assert Ending(e) == Some(sid);
        ReleaseRemembers(c, sid, e);
      } else {
        NotEnding(c.closed, e, ClosedLimit(c.config));
      }
      BookedOne(c, turn.conn, e);
    }
  }

  lemma NotEnding(closed: seq<U32>, e: Event, limit: nat)
    requires Ending(e).None?
    ensures Remember(closed, e, limit) == closed
  {
  }

  lemma ServeFrontBooked(c: Conn, quota: nat)
    requires c.bodyQ != []
    ensures var turn := ServeFront(c, quota); Booked(c, turn.conn, turn.out)
  {
    hide Booked, SendRead, ReadChunk, MarkClosed;
    var p, c1 := c.bodyQ[0], c.(bodyQ := c.bodyQ[1..]);
    var turn := ServeFront(c, quota);
    if p.sid !in c.windows || c.windows[p.sid] <= 0 || c.connWindow <= 0 {
      BookedNone(c, turn.conn);
    } else {
      var r := ReadChunk(p.body, Amount(c1, quota, c.windows[p.sid]));
      if r.Ok? {
        SendReadBooked(c1, p.sid, r.value);
        QueueSame(c, c1, turn.conn, turn.out);
      } else {
        var e := Sent(RstFrame(p.sid, r.code));
        ReleaseRemembers(c1, p.sid, e);
        BookedOne(c, turn.conn, e);
      }
    }
  }

  lemma {:induction false} ServeManyBooked(c: Conn, quota: nat, n: nat)
    requires n <= |c.bodyQ|
    ensures var turn := ServeMany(c, quota, n); Booked(c, turn.conn, turn.out)
    decreases n
  {
    hide ServeFront, Booked;
    if n == 0 {
      BookedNone(c, c);
    } else {
      var first := ServeFront(c, quota);
      ServeFrontBooked(c, quota);
      ServeManyBooked(first.conn, quota, n - 1);
      var rest := ServeMany(first.conn, quota, n - 1);
      BookedTwice(c, first.conn, rest.conn, first.out, rest.out);
    }
  }

  lemma ScheduleBooked(c: Conn)
    ensures var turn := Schedule(c); Booked(c, turn.conn, turn.out)
  {
    hide ServeMany, Booked;
    if c.bodyQ == [] || c.connWindow <= 0 {
      BookedNone(c, c);
    } else {
      ServeManyBooked(c, Share(c.connWindow, |c.bodyQ|), |c.bodyQ|);
    }
  }

  lemma PollBooked(c: Conn)
    ensures var turn := Poll(c); Booked(c, turn.conn, turn.out)
  {
    PollManyBooked(c, |c.headerQ|);
  }

  // ---------------------------------------------------------------- received frames

  /** What a frame does to both ledgers: first as it is received, then by what it causes. */
  ghost predicate FrameBooked(c: Conn, f: Frame, s: Step) {
    var max := if f.payload.Settings? && !f.payload.ack then LastMaxFrame(f.payload.settings, c.peerMaxFrame)
      else c.peerMaxFrame;
    var limit := ClosedLimit(c.config);
    && Fitting(s.out, max)
    && (s.Next? ==>
          && s.conn.config == c.config && s.conn.peerMaxFrame == max
          && s.conn.closed == RememberAll(Remember(c.closed, Received(f), limit), s.out, limit))
  }

  lemma FromBooked(c: Conn, f: Frame, s: Step)
    requires !f.payload.RstStream? && !(f.payload.Settings? && !f.payload.ack)
    requires Fitting(s.out, c.peerMaxFrame) && (s.Next? ==> Booked(c, s.conn, s.out))
    ensures FrameBooked(c, f, s)
  {
  }

  lemma FinishBooked(c: Conn, sid: U32, block: seq<Byte>, routing: Routing)
    ensures var s := FinishHeaders(c, sid, block, routing);
            Fitting(s.out, c.peerMaxFrame) && (s.Next? ==> Booked(c, s.conn, s.out))
  {
    hide Hpack.DecodeBlock, Dispatch, Booked, HalfClose;
    var r := Hpack.DecodeBlock(c.table, TABLE_LIMIT, c.config.maxHeaderBlock, block);
    if r.Ok? {
      var c1 := c.(table := r.value.table);
      var s := FinishHeaders(c, sid, block, routing);
      if sid in c.active && c.active[sid].endStream {
        var st := HeadersComplete(c.active[sid], r.value.headers);
        var c2 := c1.(active := c1.active - {sid});
        DispatchBooked(c2, sid, HalfClose(st), routing);
        if s.Next? {
          QueueSame(c, c2, s.conn, s.out);
        }
      } else {
        BookedNone(c, s.conn);
      }
    }
  }

  lemma HeadersFrameBooked(c: Conn, f: Frame, routing: Routing)
    requires f.payload.Headers?
    ensures FrameBooked(c, f, OnHeaders(c, f.header.streamId, f.payload.headerBlock, f.payload.endStream,
            f.payload.endHeaders, routing))
  {
    hide FinishHeaders, Booked, MarkClosed, FrameBooked, RememberAll;
    var sid, p := f.header.streamId, f.payload;
    var s := OnHeaders(c, sid, p.headerBlock, p.endStream, p.endHeaders, routing);
    if sid % 2 == 1 && sid > c.lastSid {
      var c1 := c.(lastSid := sid);
      if |c.windows| >= c.config.maxConcurrentStreams {
        var e := Sent(RstFrame(sid, RefusedStream));
        ReleaseRemembers(c1, sid, e);
        BookedOne(c, s.conn, e);
      } else {
        var c2 := c1.(windows := c.windows[sid := Flow.AsI32(c.peerInitial)],
          active := c.active[sid := NewStream(c1, p.endStream)]);
        if p.endHeaders {
          FinishBooked(c2, sid, p.headerBlock, routing);
          if s.Next? {
            QueueSame(c, c2, s.conn, s.out);
          }
        } else if s.Next? {
          BookedNone(c, s.conn);
        }
      }
    }
    FromBooked(c, f, s);
  }

  lemma ContinuationFrameBooked(c: Conn, f: Frame, routing: Routing)
    requires f.payload.Continuation?
    ensures FrameBooked(c, f, OnContinuation(c, f.header.streamId, f.payload.headerBlock, f.payload.endHeaders,
            routing))
  {
    hide FinishHeaders, Booked, FrameBooked;
    var s := OnContinuation(c, f.header.streamId, f.payload.headerBlock, f.payload.endHeaders, routing);
    var all, c1 := c.contBlock + f.payload.headerBlock, c.(contSid := None, contBlock := []);
    if |all| <= c.config.maxHeaderBlock {
      if f.payload.endHeaders {
        FinishBooked(c1, f.header.streamId, all, routing);
        if s.Next? {
          QueueSame(c, c1, s.conn, s.out);
        }
      } else {
        BookedNone(c, s.conn);
      }
    }
    FromBooked(c, f, s);
  }

  lemma CreditBooked(c: Conn, c': Conn, sid: U32, n: nat)
    requires n <= MAX_ALLOWED_FRAME_SIZE
    requires c'.config == c.config && c'.peerMaxFrame == c.peerMaxFrame && c'.closed == c.closed
    ensures Booked(c, c', Credit(sid, n))
  {
    if n == 0 {
      BookedNone(c, c');
    } else {
      var a, b := Sent(WindowUpdateFrame(0, n)), Sent(WindowUpdateFrame(sid, n));
      BookedOne(c, c', a);
      BookedOne(c', c', b);
      BookedTwice(c, c', c', [a], [b]);
      assert [a] + [b] == Credit(sid, n);
    }
  }

  lemma DataFrameBooked(c: Conn, f: Frame, routing: Routing)
    requires f.payload.Data? && |f.payload.data| <= MAX_ALLOWED_FRAME_SIZE
    ensures FrameBooked(c, f, OnData(c, f.header.streamId, f.payload.data, f.payload.endStream, routing))
  {
    hide Replenish, Dispatch, HalfClose, Booked, FrameBooked, Credit;
    var sid, data := f.header.streamId, f.payload.data;
    var s := OnData(c, sid, data, f.payload.endStream, routing);
    if sid in c.active {
      var st := c.active[sid];
      var r := Replenish(c.recvWindow, st.window, |data|);
      if r.Ok? {
        CreditBooked(c, c, sid, |data|);
        BookedFits(c, c, Credit(sid, |data|));
        if |data| <= SaturatingSub(c.config.maxRequestSize, |st.requestBody|) {
          var st' := st.(window := r.value.1, requestBody := st.requestBody + data);
          var c1 := c.(recvWindow := r.value.0);
          if f.payload.endStream {
            var c2 := c1.(active := c1.active - {sid});
            var d := Dispatch(c2, sid, HalfClose(st'.(endStream := true)), routing);
            DispatchBooked(c2, sid, HalfClose(st'.(endStream := true)), routing);
            CreditBooked(c, c2, sid, |data|);
            if d.Next? {
              BookedTwice(c, c2, d.conn, Credit(sid, |data|), d.out);
            }
          } else {
            CreditBooked(c, s.conn, sid, |data|);
          }
        }
      }
    }
    FromBooked(c, f, s);
  }

  lemma BookedFits(c: Conn, c': Conn, out: seq<Event>)
    requires Booked(c, c', out)
    ensures Fitting(out, c.peerMaxFrame)
  {
  }

  lemma {:induction false} SettingsBooked(c: Conn, settings: seq<Setting>)
    ensures var r := ApplySettings(c, settings);
            r.Ok? ==>
              && r.value.config == c.config && r.value.closed == c.closed
              && r.value.peerMaxFrame == LastMaxFrame(settings, c.peerMaxFrame)
    decreases |settings|
  {
    hide AdjustStreams, AdjustWindows;
    if settings != [] {
      var next := ApplySetting(c, settings[0]);
      if next.Ok? {
        SettingsBooked(next.value, settings[1..]);
      }
    }
  }

  lemma Uneventful(closed: seq<U32>, out: seq<Event>, limit: nat)
    requires out == [] || (|out| == 1 && Ending(out[0]).None?)
    ensures RememberAll(closed, out, limit) == closed
  {
    assert |out| == 1 ==> out[1..] == [];
  }

  lemma OtherFrameBooked(c: Conn, f: Frame, routing: Routing)
    requires FromWire(f) && !f.payload.Headers? && !f.payload.Continuation? && !f.payload.Data?
    ensures FrameBooked(c, f, ProcessFrame(c, f, routing))
  {
    hide ApplySettings, WithoutHeader, WithoutBody, Flow.Updated, RememberAll, MarkClosed, LastMaxFrame;
    var s := ProcessFrame(c, f, routing);
    var limit := ClosedLimit(c.config);
    assert s.out == [] || (|s.out| == 1 && Ending(s.out[0]).None?);
    Uneventful(Remember(c.closed, Received(f), limit), s.out, limit);
    if f.payload.Settings? {
      SettingsBooked(c, f.payload.settings);
    } else if f.payload.RstStream? {
      ReleaseRemembers(c, f.header.streamId, Received(f));
    }
  }

  lemma FrameRecords(c: Conn, f: Frame, routing: Routing)
    requires FromWire(f)
    ensures FrameBooked(c, f, ProcessFrame(c, f, routing))
  {
    hide OnHeaders, OnContinuation, OnData, OnWindowUpdate, OnReset, ApplySettings, RememberAll;
    if f.payload.Headers? && c.contSid.None? {
      HeadersFrameBooked(c, f, routing);
    } else if f.payload.Continuation? && c.contSid == Some(f.header.streamId) {
      ContinuationFrameBooked(c, f, routing);
    } else if f.payload.Data? && c.contSid.None? {
      DataFrameBooked(c, f, routing);
    } else if !f.payload.Headers? && !f.payload.Continuation? && !f.payload.Data? {
      OtherFrameBooked(c, f, routing);
    }
  }

  // ---------------------------------------------------------------- whole runs

  /** Both ledgers agree with the state, should the run go on, and every frame sent fits. */
  ghost predicate Recorded(config: Config, s: Status) {
    && FramesFit(s.history)
    && (s.Running? ==>
          && s.conn.config == config && s.conn.closed == Remembered(s.history, ClosedLimit(config))
          && s.conn.peerMaxFrame == MaxFrameSetting(s.history))
  }

  lemma {:induction false} FitExtend(t: Trace, out: seq<Event>)
    requires FramesFit(t) && Fitting(out, MaxFrameSetting(t))
    ensures FramesFit(Extend(t, out)) && MaxFrameSetting(Extend(t, out)) == MaxFrameSetting(t)
    decreases |out|
  {
    if out != [] {
      FitExtend(After(t, out[0]), out[1..]);
    }
  }

  lemma TurnRecorded(config: Config, c: Conn, t: Trace, c': Conn, out: seq<Event>)
    requires Recorded(config, Running(c, t)) && Booked(c, c', out)
    ensures Recorded(config, Running(c', Extend(t, out)))
  {
    hide Extend, RememberAll, FramesFit;
    FitExtend(t, out);
    RememberedExtend(t, out, ClosedLimit(config));
  }

  lemma ReceivedRecorded(config: Config, c: Conn, t: Trace, f: Frame, s: Step)
    requires Recorded(config, Running(c, t)) && FrameBooked(c, f, s)
    ensures Recorded(config, Settle(s, After(t, Received(f))))
  {
    var t1 := After(t, Received(f));
    assert FramesFit(t1);
    assert Remembered(t1, ClosedLimit(config)) == Remember(c.closed, Received(f), ClosedLimit(config));
    assert MaxFrameSetting(t1) == if f.payload.Settings?
           && !f.payload.ack then LastMaxFrame(f.payload.settings, c.peerMaxFrame)
                                  else c.peerMaxFrame;
    hide Extend, RememberAll, FramesFit, Remember, MaxFrameSetting;
    FitExtend(t1, s.out);
    RememberedExtend(t1, s.out, ClosedLimit(config));
    if s.Stop? {
      GoodbyeFits(Extend(t1, s.out), s.lastSid, s.code);
    }
  }

  lemma GoodbyeFits(t: Trace, last: U32, code: ErrorCode)
    requires FramesFit(t)
    ensures FramesFit(After(t, Sent(GoAwayFrame(last, code))))
  {
  }

  lemma ReactRecorded(config: Config, c: Conn, t: Trace, i: Input)
    requires Possible(i) && Recorded(config, Running(c, t))
    ensures Recorded(config, React(c, t, i))
  {
    hide ProcessFrame, Poll, Schedule, Settle, Recorded, Booked, FrameBooked, Extend;
    match i
    case Incoming(f, routing) =>
      FrameRecords(c, f, routing);
      ReceivedRecorded(config, c, t, f, ProcessFrame(c, f, routing));
    case Unreadable(code) => UnreadableRecorded(config, c, t, code);
    case PollUpstreams =>
      PollBooked(c);
      TurnRecorded(config, c, t, Poll(c).conn, Poll(c).out);
    case SendRound =>
      ScheduleBooked(c);
      TurnRecorded(config, c, t, Schedule(c).conn, Schedule(c).out);
  }

  lemma UnreadableRecorded(config: Config, c: Conn, t: Trace, code: ErrorCode)
    requires Recorded(config, Running(c, t))
    ensures Recorded(config, Settle(Stop(code, c.lastSid, []), t))
  {
    hide FramesFit;
    ExtendNone(t);
    GoodbyeFits(t, c.lastSid, code);
  }

  lemma {:induction false} RunRecorded(config: Config, inputs: seq<Input>)
    requires forall i :: i in inputs ==> Possible(i)
    ensures Recorded(config, Execute(config, inputs))
    decreases |inputs|
  {
    hide React, Recorded, Possible, Initial, Opening;
    if inputs == [] {
      StartRecorded(config);
    } else {
      var before := inputs[..|inputs| - 1];
      RunRecorded(config, before);
      var s := Execute(config, before);
      if s.Running? {
        ReactRecorded(config, s.conn, s.history, inputs[|inputs| - 1]);
      }
    }
  }

  lemma StartRecorded(config: Config)
    ensures Recorded(config, Running(Initial(config), Opening(config)))
  {
    assert FramesFit(Start) && Remembered(Start, ClosedLimit(config)) == [];
    assert Ending(Sent(ServerSettings(config))).None?;
  }

  /**
   In every run no frame is larger than the peer allowed when it was sent, and the server has remembered exactly the
   streams that its history says are to be remembered.
   */
  lemma LedgersKept(config: Config, inputs: seq<Input>)
    requires forall i :: i in inputs ==> Possible(i)
    ensures var s := Execute(config, inputs);
            && FramesFit(s.history)
            && (s.Running? ==>
                  && s.conn.peerMaxFrame == MaxFrameSetting(s.history)
                  && s.conn.closed == Remembered(s.history, Max(2 * config.maxConcurrentStreams, 16)))
  {
    hide Execute, FramesFit, Remembered, MaxFrameSetting;
    RunRecorded(config, inputs);
  }
}
