/**
 The connection driver as the object it is (src/server/http2/connection.rs): fields updated in place by every frame,
 every poll and every scheduling round, and queues rotated by loops. Each method is proved against the state
 machine on values, so what holds of its runs holds of the object.
 */
module Http2Connection {
  import opened Base
  import opened Frame
  import opened HpackTable
  import opened Connection
  import Hpack
  import Flow

  // ---------------------------------------------------------------- writing a header block

  lemma SendsFirst(log: seq<Event>, f: Frame, rest: seq<Frame>)
    ensures log + Sends([f] + rest) == log + [Sent(f)] + Sends(rest)
  {
    assert Sends([f] + rest) == [Sent(f)] + Sends(rest);
  }

  lemma FirstFragment(log: seq<Event>, sid: U32, block: seq<Byte>, endStream: bool, max: FrameSize)
    ensures var n := Min(|block|, max);
            log + Sends(HeaderFrames(sid, block, endStream, max))
            == log + [Sent(HeadersFrame(sid, block[..n], endStream, n == |block|))]
                + Sends(Continuations(sid, block[n..], max))
  {
    var n := Min(|block|, max);
    SendsFirst(log, HeadersFrame(sid, block[..n], endStream, n == |block|), Continuations(sid, block[n..], max));
  }

  lemma NextFragment(log: seq<Event>, sid: U32, block: seq<Byte>, offset: nat, max: FrameSize)
    requires offset < |block|
    ensures var end := Min(offset + max, |block|);
            log + Sends(Continuations(sid, block[offset..], max))
            == log + [Sent(ContinuationFrame(sid, block[offset..end], end == |block|))]
                + Sends(Continuations(sid, block[end..], max))
  {
    var end := Min(offset + max, |block|);
    var n := end - offset;
    assert block[offset..][..n] == block[offset..end] && block[offset..][n..] == block[end..];
    SendsFirst(log, ContinuationFrame(sid, block[offset..end], end == |block|), Continuations(sid, block[end..], max));
  }

  lemma LastFragment(log: seq<Event>, sid: U32, rest: seq<Byte>, max: FrameSize)
    requires rest == []
    ensures log + Sends(Continuations(sid, rest, max)) == log
  {
  }

  // ---------------------------------------------------------------- queue loops

  lemma BothThree(a: Turn, b: Turn, c: Turn)
    ensures Both(Both(a, b), c) == Both(a, Both(b, c))
  {
    assert a.out + b.out + c.out == a.out + (b.out + c.out);
  }

  lemma BothIs(a: Turn, b: Turn)
    ensures Both(a, b) == Turn(b.conn, a.out + b.out, a.progressed || b.progressed)
  {
  }

  lemma BothEnd(a: Turn)
    ensures Both(a, Turn(a.conn, [], false)) == a
  {
    assert a.out + [] == a.out;
  }

  lemma BothStart(c: Conn, a: Turn)
    ensures Both(Turn(c, [], false), a) == a
  {
    assert [] + a.out == a.out;
  }

  /** What a filter does with the item at one place. */
  lemma HeaderKept(q: seq<PendingHeader>, i: nat, sid: U32)
    requires i <= |q|
    ensures WithoutHeader(q[i..], sid) ==
            if i == |q| then [] else (if q[i].sid == sid then [] else [q[i]]) + WithoutHeader(q[i + 1..], sid)
  {
    assert i < |q| ==> q[i..][1..] == q[i + 1..];
  }

  lemma BodyKept(q: seq<PendingResponse>, i: nat, sid: U32)
    requires i <= |q|
    ensures WithoutBody(q[i..], sid) ==
            if i == |q| then [] else (if q[i].sid == sid then [] else [q[i]]) + WithoutBody(q[i + 1..], sid)
  {
    assert i < |q| ==> q[i..][1..] == q[i + 1..];
  }

  class Driver {
    const config: Config
    const decoder: Hpack.HpackDecoder
    const recvWindow: Flow.Window
    const connWindow: Flow.Window
    var peerMaxFrame: FrameSize
    var peerInitial: U32
    var windows: map<U32, int>
    var active: map<U32, Stream>
    var lastSid: U32
    var contSid: Option<U32>
    var contBlock: seq<Byte>
    var headerQ: seq<PendingHeader>
    var bodyQ: seq<PendingResponse>
    var closed: seq<U32>
    /** What has been written and exchanged, oldest first. */
    var log: seq<Event>

    ghost predicate Valid()
      reads this, decoder.dynamicTable, recvWindow, connWindow
    {
      && decoder.dynamicTable.Valid() && recvWindow.Valid() && connWindow.Valid() && recvWindow != connWindow
      && decoder.maxDynamicTableSize == TABLE_LIMIT && decoder.maxHeaderBlockSize == config.maxHeaderBlock
    }

    ghost function Value(): Conn
      reads this, decoder.dynamicTable, recvWindow, connWindow
    {
      Conn(config, decoder.Value(), recvWindow.available, peerMaxFrame, connWindow.available, peerInitial,
           windows, active, lastSid, contSid, contBlock, headerQ, bodyQ, closed)
    }

    constructor (config: Config)
      ensures Valid() && Value() == Initial(config) && log == [] && this.config == config
      ensures fresh(decoder.dynamicTable) && fresh(recvWindow) && fresh(connWindow)
    {
      this.config := config;
      decoder := new Hpack.HpackDecoder(TABLE_LIMIT, config.maxHeaderBlock);
      recvWindow := new Flow.Window(config.initialWindow);
      connWindow := new Flow.Window(PEER_DEFAULT_WINDOW);
      peerMaxFrame, peerInitial := DEFAULT_MAX_FRAME_SIZE, PEER_DEFAULT_WINDOW;
      windows, active, lastSid := map[], map[], 0;
      contSid, contBlock := None, [];
      headerQ, bodyQ, closed, log := [], [], [], [];
    }

    method MarkClosedStream(sid: U32)
      modifies this`closed
      ensures closed == MarkClosed(old(closed), sid, ClosedLimit(config))
    {
      if sid in closed {
        return;
      }
      closed := closed + [sid];
      var limit := ClosedLimit(config);
      ghost var full, dropped := closed, 0;
      while |closed| > limit
        invariant 0 <= dropped <= |full| && closed == full[dropped..]
        invariant dropped > 0 ==> |closed| >= limit
      {
        closed := closed[1..];
        dropped := dropped + 1;
      }
    }

    method ReleaseStream(sid: U32)
      requires Valid()
      modifies this`windows, this`closed
      ensures Valid() && Value() == Release(old(Value()), sid)
    {
      windows := windows - {sid};
      MarkClosedStream(sid);
    }

    /** The HEADERS frame and its continuations, a frame at a time. */
    method SendHeaderBlock(sid: U32, block: seq<Byte>, endStream: bool)
      modifies this`log
      ensures log == old(log) + Sends(HeaderFrames(sid, block, endStream, peerMaxFrame))
    {
      hide HeaderFrames, Continuations, Sends;
      var offset := Min(|block|, peerMaxFrame);
      log := log + [Sent(HeadersFrame(sid, block[..offset], endStream, offset == |block|))];
      FirstFragment(old(log), sid, block, endStream, peerMaxFrame);
      ghost var whole := old(log) + Sends(HeaderFrames(sid, block, endStream, peerMaxFrame));
      while offset < |block|
        invariant 0 <= offset <= |block|
        invariant log + Sends(Continuations(sid, block[offset..], peerMaxFrame)) == whole
      {
        var end := Min(offset + peerMaxFrame, |block|);
        NextFragment(log, sid, block, offset, peerMaxFrame);
        log := log + [Sent(ContinuationFrame(sid, block[offset..end], end == |block|))];
        offset := end;
      }
      LastFragment(log, sid, block[offset..], peerMaxFrame);
    }

    method QueueResponse(sid: U32, r: Response, reader: Option<Reader>)
      requires Valid()
      modifies this`log, this`windows, this`closed, this`bodyQ
      ensures Valid()
      ensures var s := Connection.QueueResponse(old(Value()), sid, r, reader);
              Value() == s.conn && log == old(log) + s.out
    {
      hide HeaderFrames, ResponseBody, Release, Sends;
      var block := config.encode([Header(STATUS, r.status)] + r.headers);
      var body := ResponseBody(r, reader);
      log := log + [Responded(sid, body)];
      SendHeaderBlock(sid, block, body.None?);
      if body.None? {
        ReleaseStream(sid);
      } else {
        bodyQ := bodyQ + [PendingResponse(sid, body.value)];
      }
    }

    /** Routing answers a complete request. */
    method DispatchRequest(sid: U32, st: Stream, routing: Routing) returns (r: Result<()>)
      requires Valid()
      modifies this`log, this`windows, this`closed, this`bodyQ, this`headerQ
      ensures Valid()
      ensures match Dispatch(old(Value()), sid, st, routing)
              case Next(c, out) => r.Ok? && Value() == c && log == old(log) + out
              case Stop(code, last, out) => r == Err(code) && lastSid == last && log == old(log) + out
    {
      hide Connection.QueueResponse;
      match routing
      case Reject(code) => return Err(code);
      case Immediate(response) =>
        log := log + [Dispatched(sid, st.requestHeaders, st.requestBody)];
        QueueResponse(sid, response, None);
        return Ok(());
      case Upstream(script) =>
        log := log + [Dispatched(sid, st.requestHeaders, st.requestBody)];
        headerQ := headerQ + [PendingHeader(sid, script)];
        return Ok(());
    }

    // -------------------------------------------------------------- settings

    method AdjustStreamWindows(delta: int) returns (r: Result<()>)
      modifies this`active
      ensures match AdjustStreams(old(active), delta)
              case Ok(m) => r.Ok? && active == m
              case Err(code) => r == Err(code)
    {
      var todo := active.Keys;
      while todo != {}
        invariant todo <= active.Keys == old(active).Keys
        invariant forall sid :: sid in todo ==> active[sid] == old(active)[sid]
        invariant forall sid :: sid in active.Keys - todo ==>
                    var was := old(active)[sid];
                    Flow.Adjusted(was.sendWindow, delta).Ok?
                        && active[sid] == was.(sendWindow := was.sendWindow + delta)
        decreases todo
      {
        var sid :| sid in todo;
        var w := Flow.Adjusted(active[sid].sendWindow, delta);
        if w.Err? {
          return Err(w.code);
        }
        active := active[sid := active[sid].(sendWindow := w.value)];
        todo := todo - {sid};
      }
      return Ok(());
    }

    method AdjustSendWindows(delta: int) returns (r: Result<()>)
      modifies this`windows
      ensures match AdjustWindows(old(windows), delta)
              case Ok(m) => r.Ok? && windows == m
              case Err(code) => r == Err(code)
    {
      var todo := windows.Keys;
      while todo != {}
        invariant todo <= windows.Keys == old(windows).Keys
        invariant forall sid :: sid in todo ==> windows[sid] == old(windows)[sid]
        invariant forall sid :: sid in windows.Keys - todo ==>
                    Flow.Adjusted(old(windows)[sid], delta).Ok? && windows[sid] == old(windows)[sid] + delta
        decreases todo
      {
        var sid :| sid in todo;
        var w := Flow.Adjusted(windows[sid], delta);
        if w.Err? {
          return Err(w.code);
        }
        windows := windows[sid := w.value];
        todo := todo - {sid};
      }
      return Ok(());
    }

    method ApplyOne(s: Setting) returns (r: Result<()>)
      requires Valid()
      modifies this`peerMaxFrame, this`peerInitial, this`active, this`windows
      ensures Valid()
      ensures match ApplySetting(old(Value()), s)
              case Ok(c) => r.Ok? && Value() == c
              case Err(code) => r == Err(code)
    {
      hide AdjustWindows, AdjustStreams;
      if s.id == MaxFrameSize {
        if s.value < 16_384 || s.value > 16_777_215 {
          return Err(FrameSizeError);
        }
        peerMaxFrame := s.value;
      } else if s.id == InitialWindowSize {
        if s.value > 2_147_483_647 {
          return Err(FlowControlError);
        }
        var delta := s.value - peerInitial;
        var _ :- AdjustStreamWindows(delta);
        var _ :- AdjustSendWindows(delta);
        peerInitial := s.value;
      }
      return Ok(());
    }

    method ApplyAll(settings: seq<Setting>) returns (r: Result<()>)
      requires Valid()
      modifies this`peerMaxFrame, this`peerInitial, this`active, this`windows
      ensures Valid()
      ensures match ApplySettings(old(Value()), settings)
              case Ok(c) => r.Ok? && Value() == c
              case Err(code) => r == Err(code)
    {
      hide ApplySetting;
      var i := 0;
      while i < |settings|
        invariant 0 <= i <= |settings| && Valid()
        invariant ApplySettings(old(Value()), settings) == ApplySettings(Value(), settings[i..])
      {
        assert settings[i..][1..] == settings[i + 1..];
        var _ :- ApplyOne(settings[i]);
        i := i + 1;
      }
      assert settings[i..] == [];
      return Ok(());
    }

    // -------------------------------------------------------------- header blocks

    method FinishBlock(sid: U32, block: seq<Byte>, routing: Routing) returns (r: Result<()>)
      requires Valid()
      modifies this, decoder.dynamicTable
      ensures Valid()
      ensures match FinishHeaders(old(Value()), sid, block, routing)
              case Next(c, out) => r.Ok? && Value() == c && log == old(log) + out
              case Stop(code, last, out) => r == Err(code) && lastSid == last && log == old(log) + out
    {
      hide Hpack.DecodeBlock, Dispatch, HalfClose;
      var headers :- decoder.DecodeHeaderBlock(block);
      if sid in active {
        var st := HeadersComplete(active[sid], headers);
        if st.endStream {
          active := active - {sid};
          r := DispatchRequest(sid, HalfClose(st), routing);
          return;
        }
        active := active[sid := st];
      }
      return Ok(());
    }

    /** A new stream gets its windows and is open. */
    method AdmitStream(sid: U32, endStream: bool)
      modifies this`windows, this`active
      ensures windows == old(windows)[sid := Flow.AsI32(peerInitial)]
      ensures active == old(active)[sid := NewStream(old(Value()), endStream)]
    {
      var st := Stream(Idle, Flow.AsI32(config.initialWindow), Flow.AsI32(peerInitial), [], [], false, false);
      windows := windows[sid := Flow.AsI32(peerInitial)];
      var state := Transition(st.state, Open);
      assert state == Ok(Open);   // a new stream can always open
      active := active[sid := st.(state := state.value, endStream := endStream)];
    }

    method RefuseStream(sid: U32)
      modifies this`log, this`closed
      ensures log == old(log) + [Sent(RstFrame(sid, RefusedStream))]
      ensures closed == MarkClosed(old(closed), sid, ClosedLimit(config))
    {
      log := log + [Sent(RstFrame(sid, RefusedStream))];
      MarkClosedStream(sid);
    }

    method OnHeaders(sid: U32, block: seq<Byte>, endStream: bool, endHeaders: bool, routing: Routing)
        returns (r: Result<()>)
      requires Valid()
      modifies this, decoder.dynamicTable
      ensures Valid()
      ensures match Connection.OnHeaders(old(Value()), sid, block, endStream, endHeaders, routing)
              case Next(c, out) => r.Ok? && Value() == c && log == old(log) + out
              case Stop(code, last, out) => r == Err(code) && lastSid == last && log == old(log) + out
    {
      hide FinishHeaders, MarkClosed, ClosedLimit, Flow.AsI32;
      if sid == 0 || sid % 2 == 0 {
        return Err(ProtocolError);
      }
      if sid <= lastSid {
        return Err(ProtocolError);
      }
      lastSid := sid;
      if |windows| >= config.maxConcurrentStreams {
        RefuseStream(sid);
        return Ok(());
      }
      AdmitStream(sid, endStream);
      if endHeaders {
        r := FinishBlock(sid, block, routing);
      } else if |block| > config.maxHeaderBlock {
        return Err(EnhanceYourCalm);
      } else {
        contSid, contBlock := Some(sid), block;
        return Ok(());
      }
    }

    method OnContinuation(sid: U32, block: seq<Byte>, endHeaders: bool, routing: Routing) returns (r: Result<()>)
      requires Valid()
      modifies this, decoder.dynamicTable
      ensures Valid()
      ensures match Connection.OnContinuation(old(Value()), sid, block, endHeaders, routing)
              case Next(c, out) => r.Ok? && Value() == c && log == old(log) + out
              case Stop(code, last, out) => r == Err(code) && lastSid == last && log == old(log) + out
    {
      hide FinishHeaders;
      if |contBlock| + |block| > config.maxHeaderBlock {
        return Err(EnhanceYourCalm);
      }
      contBlock := contBlock + block;
      if endHeaders {
        var all := contBlock;
        contSid, contBlock := None, [];
        r := FinishBlock(sid, all, routing);
      } else {
        return Ok(());
      }
    }

    // -------------------------------------------------------------- request data

    /** Both receive windows give up n bytes and get them back. */
    method TakeAndReturn(stream: int, n: nat) returns (r: Result<int>)
      requires Valid()
      modifies recvWindow
      ensures Valid()
      ensures match Replenish(old(recvWindow.available), stream, n)
              case Ok(pair) => r == Ok(pair.1) && recvWindow.available == pair.0
              case Err(code) => r == Err(code)
    {
      if n == 0 {
        return Ok(stream);
      }
      if n > recvWindow.available || n > stream {
        return Err(FlowControlError);
      }
      var taken := recvWindow.Consume(n);
      var left := Flow.Consumed(stream, n);
      var given := recvWindow.Update(n);
      assert taken.Ok? && left.Ok? && given.Ok?;
      var back :- Flow.Updated(left.value, n);
      return Ok(back);
    }

    method OnData(sid: U32, data: seq<Byte>, endStream: bool, routing: Routing) returns (r: Result<()>)
      requires Valid() && |data| <= MAX_ALLOWED_FRAME_SIZE
      modifies this, recvWindow
      ensures Valid()
      ensures match Connection.OnData(old(Value()), sid, data, endStream, routing)
              case Next(c, out) => r.Ok? && Value() == c && log == old(log) + out
              case Stop(code, last, out) => r == Err(code) && lastSid == last && log == old(log) + out
    {
      hide Dispatch, Replenish, HalfClose;
      if sid !in active {
        return Err(StreamClosed);
      }
      var st := active[sid];
      var window :- TakeAndReturn(st.window, |data|);
      if data != [] {
        log := log + [Sent(WindowUpdateFrame(0, |data|)), Sent(WindowUpdateFrame(sid, |data|))];
      }
      if |data| > SaturatingSub(config.maxRequestSize, |st.requestBody|) {
        return Err(EnhanceYourCalm);
      }
      st := st.(window := window, requestBody := st.requestBody + data);
      if endStream {
        active := active - {sid};
        r := DispatchRequest(sid, HalfClose(st.(endStream := true)), routing);
      } else {
        active := active[sid := st];
        return Ok(());
      }
    }

    // -------------------------------------------------------------- credit and resets

    method OnWindowUpdate(sid: U32, increment: U32) returns (r: Result<()>)
      requires Valid()
      modifies this`active, this`windows, connWindow
      ensures Valid()
      ensures match Connection.OnWindowUpdate(old(Value()), sid, increment)
              case Next(c, out) => r.Ok? && Value() == c && out == []
              case Stop(code, last, out) => r == Err(code) && lastSid == last && out == []
    {
      if sid == 0 {
        var _ :- connWindow.Update(increment);
      } else if sid in active {
        var shadow :- Flow.Updated(active[sid].sendWindow, increment);
        active := active[sid := active[sid].(sendWindow := shadow)];
        var w :- Flow.Updated(if sid in windows then windows[sid] else Flow.AsI32(peerInitial), increment);
        windows := windows[sid := w];
      } else if sid in windows {
        var w :- Flow.Updated(windows[sid], increment);
        windows := windows[sid := w];
      } else if sid !in closed {
        return Err(ProtocolError);
      }
      return Ok(());
    }

    method DropHeader(sid: U32)
      modifies this`headerQ
      ensures headerQ == WithoutHeader(old(headerQ), sid)
    {
      hide WithoutHeader;
      var q, i := headerQ, 0;
      headerQ := [];
      assert q[0..] == q;
      while i < |q|
        invariant 0 <= i <= |q|
        invariant headerQ + WithoutHeader(q[i..], sid) == WithoutHeader(q, sid)
      {
        HeaderKept(q, i, sid);
        if q[i].sid != sid {
          ghost var later := WithoutHeader(q[i + 1..], sid);
          assert headerQ + ([q[i]] + later) == headerQ + [q[i]] + later;
          headerQ := headerQ + [q[i]];
        } else {
          assert [] + WithoutHeader(q[i + 1..], sid) == WithoutHeader(q[i + 1..], sid);
        }
        i := i + 1;
      }
      HeaderKept(q, i, sid);
    }

    method DropBody(sid: U32)
      modifies this`bodyQ
      ensures bodyQ == WithoutBody(old(bodyQ), sid)
    {
      hide WithoutBody;
      var q, i := bodyQ, 0;
      bodyQ := [];
      assert q[0..] == q;
      while i < |q|
        invariant 0 <= i <= |q|
        invariant bodyQ + WithoutBody(q[i..], sid) == WithoutBody(q, sid)
      {
        BodyKept(q, i, sid);
        if q[i].sid != sid {
          ghost var later := WithoutBody(q[i + 1..], sid);
          assert bodyQ + ([q[i]] + later) == bodyQ + [q[i]] + later;
          bodyQ := bodyQ + [q[i]];
        } else {
          assert [] + WithoutBody(q[i + 1..], sid) == WithoutBody(q[i + 1..], sid);
        }
        i := i + 1;
      }
      BodyKept(q, i, sid);
    }

    method OnReset(sid: U32)
      requires Valid()
      modifies this`active, this`headerQ, this`bodyQ, this`windows, this`closed
      ensures Valid() && Connection.OnReset(old(Value()), sid) == Next(Value(), [])
    {
      hide MarkClosed, WithoutHeader, WithoutBody;
      active := active - {sid};
      DropBody(sid);
      DropHeader(sid);
      ReleaseStream(sid);
    }

    // -------------------------------------------------------------- any frame

    /** A SETTINGS frame is applied as a whole and acknowledged. */
    method OnSettings(settings: seq<Setting>) returns (r: Result<()>)
      requires Valid()
      modifies this`peerMaxFrame, this`peerInitial, this`active, this`windows, this`log
      ensures Valid() && lastSid == old(lastSid)
      ensures match ApplySettings(old(Value()), settings)
              case Ok(c) => r.Ok? && Value() == c && log == old(log) + [Sent(SETTINGS_ACK)]
              case Err(code) => r == Err(code) && log == old(log)
    {
      hide ApplySettings;
      var _ :- ApplyAll(settings);
      log := log + [Sent(SETTINGS_ACK)];
      return Ok(());
    }

    /** Frames that carry no part of a request. */
    method OnControl(f: Frame, routing: Routing) returns (r: Result<()>)
      requires Valid() && FromWire(f) && contSid.None?
      requires !f.payload.Headers? && !f.payload.Continuation? && !f.payload.Data?
      modifies this, connWindow
      ensures Valid()
      ensures match Connection.ProcessFrame(old(Value()), f, routing)
              case Next(c, out) => r.Ok? && Value() == c && log == old(log) + out
              case Stop(code, last, out) => r == Err(code) && lastSid == last && log == old(log) + out
    {
      hide ApplySettings, Connection.OnHeaders, Connection.OnContinuation, Connection.OnData, Connection.OnWindowUpdate;
      hide Connection.OnReset;
      var sid := f.header.streamId;
      match f.payload {
        case Settings(settings, ack) =>
          if !ack {
            r := OnSettings(settings);
            return;
          }
        case Ping(data, ack) =>
          if !ack {
            log := log + [Sent(PingAck(data))];
          }
        case WindowUpdate(increment) =>
          r := OnWindowUpdate(sid, increment);
          return;
        case RstStream(_) =>
          OnReset(sid);
        case GoAway(_, _, _) =>
          return Err(NoError);
        case _ =>
      }
      return Ok(());
    }

    method ProcessFrame(f: Frame, routing: Routing) returns (r: Result<()>)
      requires Valid() && FromWire(f)
      modifies this, decoder.dynamicTable, recvWindow, connWindow
      ensures Valid()
      ensures match Connection.ProcessFrame(old(Value()), f, routing)
              case Next(c, out) => r.Ok? && Value() == c && log == old(log) + out
              case Stop(code, last, out) => r == Err(code) && lastSid == last && log == old(log) + out
    {
      hide ApplySettings, Connection.OnHeaders, Connection.OnContinuation, Connection.OnData, Connection.OnWindowUpdate;
      hide Connection.OnReset;
      var sid := f.header.streamId;
      if contSid.Some? {
        if sid != contSid.value || f.header.frameType != ContinuationType {
          return Err(ProtocolError);
        }
      } else if f.header.frameType == ContinuationType {
        return Err(ProtocolError);
      }
      match f.payload {
        case Headers(block, endStream, endHeaders) =>
          r := OnHeaders(sid, block, endStream, endHeaders, routing);
        case Continuation(block, endHeaders) =>
          r := OnContinuation(sid, block, endHeaders, routing);
        case Data(data, endStream) =>
          r := OnData(sid, data, endStream, routing);
        case _ =>
          r := OnControl(f, routing);
      }
    }

    // -------------------------------------------------------------- polling

    method PollOne() returns (progressed: bool)
      requires Valid() && headerQ != []
      modifies this
      ensures Valid()
      ensures var turn := PollFront(old(Value()));
              Value() == turn.conn && log == old(log) + turn.out && progressed == turn.progressed
    {
      hide Connection.QueueResponse, Release;
      var p := headerQ[0];
      headerQ := headerQ[1..];
      if p.script == [] {
        headerQ := headerQ + [p];
        return false;
      }
      match p.script[0]
      case HeadersPending =>
        headerQ := headerQ + [PendingHeader(p.sid, p.script[1..])];
        return false;
      case UpstreamFailed =>
        log := log + [Sent(RstFrame(p.sid, InternalError))];
        ReleaseStream(p.sid);
        return true;
      case HeadersReady(response, reader) =>
        QueueResponse(p.sid, response, reader);
        return true;
    }

    /** Each waiting upstream is polled once. */
    method PollPendingHeaders() returns (progressed: bool)
      requires Valid()
      modifies this
      ensures Valid()
      ensures var turn := Poll(old(Value()));
              Value() == turn.conn && log == old(log) + turn.out && progressed == turn.progressed
    {
      hide PollFront, Both;
      var rounds, i := |headerQ|, 0;
      progressed := false;
      ghost var out := [];
      BothStart(Value(), PollMany(Value(), rounds));
      while i < rounds
        invariant 0 <= i <= rounds && rounds - i <= |headerQ| && Valid()
        invariant log == old(log) + out
        invariant Poll(old(Value())) == Both(Turn(Value(), out, progressed), PollMany(Value(), rounds - i))
      {
        ghost var before, first := Turn(Value(), out, progressed), PollFront(Value());
        BothThree(before, first, PollMany(first.conn, rounds - i - 1));
        var p := PollOne();
        progressed := progressed || p;
        out := out + first.out;
        BothIs(before, first);
        i := i + 1;
      }
      BothEnd(Turn(Value(), out, progressed));
    }

    // -------------------------------------------------------------- sending

    /** The front response takes its turn. */
    method ServeOne(quota: nat) returns (sent: bool)
      requires Valid() && bodyQ != []
      modifies this, connWindow
      ensures Valid()
      ensures var turn := ServeFront(old(Value()), quota);
              Value() == turn.conn && log == old(log) + turn.out && sent == turn.progressed
    {
      hide ReadChunk, Release;
      var p := bodyQ[0];
      bodyQ := bodyQ[1..];
      if p.sid !in windows {
        return false;
      }
      var streamWindow := windows[p.sid];
      if streamWindow <= 0 || connWindow.available <= 0 {
        bodyQ := bodyQ + [p];
        return false;
      }
      var amount := Min(Min(Min(quota, peerMaxFrame), connWindow.available), streamWindow);
      var r := ReadChunk(p.body, amount);
      if r.Err? {
        log := log + [Sent(RstFrame(p.sid, r.code))];
        ReleaseStream(p.sid);
        return true;
      }
      sent := SendPart(p.sid, r.value);
    }

    /** What was read is sent; both windows always allow it. */
    method SendPart(sid: U32, step: BodyStep) returns (sent: bool)
      requires Valid() && sid in windows
      requires step.read.Chunk? ==>
                 |step.read.data| <= MAX_ALLOWED_FRAME_SIZE && |step.read.data| <= connWindow.available
                     && |step.read.data| <= windows[sid]
      modifies this, connWindow
      ensures Valid()
      ensures var turn := SendRead(old(Value()), sid, step);
              Value() == turn.conn && log == old(log) + turn.out && sent == turn.progressed
    {
      hide Release;
      if step.read.NotReady? || (step.read.Chunk? && step.read.data == [] && !step.read.done) {
        bodyQ := bodyQ + [PendingResponse(sid, step.body)];
        return false;
      }
      if step.read.Done? || step.read.data == [] {
        log := log + [Sent(DataFrame(sid, [], true))];
        ReleaseStream(sid);
        return true;
      }
      var data, done := step.read.data, step.read.done;
      var taken := connWindow.Consume(|data|);
      assert taken.Ok?;
      windows := windows[sid := windows[sid] - |data|];
      log := log + [Sent(DataFrame(sid, data, done))];
      if done {
        ReleaseStream(sid);
      } else {
        bodyQ := bodyQ + [PendingResponse(sid, step.body)];
      }
      return true;
    }

    /** One round over the waiting responses. */
    method SchedulePendingResponses() returns (sent: bool)
      requires Valid()
      modifies this, connWindow
      ensures Valid()
      ensures var turn := Schedule(old(Value()));
              Value() == turn.conn && log == old(log) + turn.out && sent == turn.progressed
    {
      hide ServeFront, Both, Share;
      var rounds, i := |bodyQ|, 0;
      if rounds == 0 || connWindow.available <= 0 {
        return false;
      }
      var quota := Share(connWindow.available, rounds);
      sent := false;
      ghost var out := [];
      BothStart(Value(), ServeMany(Value(), quota, rounds));
      while i < rounds
        invariant 0 <= i <= rounds && rounds - i <= |bodyQ| && Valid()
        invariant log == old(log) + out
        invariant ServeMany(old(Value()), quota, rounds)
                  == Both(Turn(Value(), out, sent), ServeMany(Value(), quota, rounds - i))
      {
        ghost var before, first := Turn(Value(), out, sent), ServeFront(Value(), quota);
        BothThree(before, first, ServeMany(first.conn, quota, rounds - i - 1));
        var s := ServeOne(quota);
        sent := sent || s;
        out := out + first.out;
        BothIs(before, first);
        i := i + 1;
      }
      BothEnd(Turn(Value(), out, sent));
    }
  }
}
