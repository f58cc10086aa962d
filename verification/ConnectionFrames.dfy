/**
 The frame handlers, one by one: HEADERS, CONTINUATION, DATA, WINDOW_UPDATE, RST_STREAM.
 */
module ConnectionFrames {
  import opened Base
  import opened Frame
  import opened Connection
  import opened ConnectionTrace
  import opened ConnectionInv
  import opened ConnectionSteps
  import opened ConnectionReceiving
  import Flow

  lemma GoodStop(code: ErrorCode, last: U32, t: Trace)
    requires MayStop(t, last)
    ensures Good(Stop(code, last, []), t)
  {
    hide MayStop;
  }

  // ---------------------------------------------------------------- HEADERS

  lemma ContState(c: Conn, d: Option<U32>, cont: Option<U32>, block: seq<Byte>)
    requires Numbers(c) && Ids(c) && Places(c, d)
    ensures var c' := c.(contSid := cont, contBlock := block); Numbers(c') && Ids(c') && Places(c', d)
  {
    hide Distinct, DistinctHeaders, DistinctBodies, HeaderIds, BodyIds;
  }

  lemma ContTies(c: Conn, t: Trace, cont: Option<U32>, block: seq<Byte>)
    requires Ties(c, t) && Credits(c, t)
    ensures var c' := c.(contSid := cont, contBlock := block); Ties(c', t) && Credits(c', t)
  {
    hide Observe, ActiveTie, WaitingTie, SendingTie, FreshView, Balanced, ConnectionCredit, TotalSent, InitialSetting;
    hide Owed;
  }

  lemma BeginOpen(c: Conn, t: Trace, sid: U32, st: Stream, block: seq<Byte>)
    requires OpenStreams(c) && Openable(c, t, sid, st) && c.contSid.None? && !st.endHeaders && sid !in c.active
    requires |block| <= c.config.maxHeaderBlock
    ensures OpenStreams(c.(active := c.active[sid := st], contSid := Some(sid), contBlock := block))
  {
    hide Observe, ActiveTie;
    var c' := c.(active := c.active[sid := st], contSid := Some(sid), contBlock := block);
    forall x | x in c'.active ensures OpenStream(c', x) {
      if x != sid {
        assert OpenStream(c, x);
      }
    }
  }

  /** The first part of a header block opens the stream and reserves the connection for the rest. */
  lemma BeginBlock(c: Conn, t: Trace, sid: U32, st: Stream, block: seq<Byte>)
    requires Loose(c, t, Some(sid)) && Openable(c, t, sid, st) && c.contSid.None? && !st.endHeaders
    requires |block| <= c.config.maxHeaderBlock
    ensures Loose(c.(active := c.active[sid := st], contSid := Some(sid), contBlock := block), t, None)
  {
    hide Numbers, Ids, OpenStreams, Places, Ties, Credits, Observe, ActiveTie;
    DetachedNotActive(c, t, sid, st);
    BeginOpen(c, t, sid, st, block);
    AttachActivePlaces(c, sid, st);
    AttachActiveTies(c, t, sid, st);
    ContState(c.(active := c.active[sid := st]), None, Some(sid), block);
    ContTies(c.(active := c.active[sid := st]), t, Some(sid), block);
  }

  lemma HeadersSeen(t: Trace, f: Frame, st: Stream)
    requires f.payload.Headers? && f.header.streamId != 0 && FreshView(Observe(t, f.header.streamId))
    requires st.requestBody == [] && st.endStream == f.payload.endStream && st.endHeaders == f.payload.endHeaders
    ensures var sid := f.header.streamId; var t1 := After(t, Received(f));
            && OnlyOn(t, t1, sid) && Books(t, t1) && ActiveTie(st, Observe(t1, sid))
            && Observe(t1, sid).credit == 0 && Observe(t1, sid).sent == []
  {
  }

  lemma NewFacts(c: Conn, t: Trace, sid: U32)
    requires Loose(c, t, None) && sid > c.lastSid
    ensures FreshView(Observe(t, sid)) && c.peerInitial <= Flow.MAX_WINDOW_SIZE
  {
    hide Observe, FreshView, OpenStreams, Places, Credits;
  }

  /** A new stream is admitted: its header block is finished at once or begun. */
  lemma AdmitKeeps(c: Conn, t: Trace, f: Frame, routing: Routing)
    requires Inv(c, t) && FromWire(f) && f.payload.Headers? && c.contSid.None?
    requires c.lastSid < f.header.streamId && f.header.streamId % 2 == 1 && |c.windows| < c.config.maxConcurrentStreams
    ensures var p := f.payload;
            Good(OnHeaders(c, f.header.streamId, p.headerBlock, p.endStream, p.endHeaders, routing),
                After(t, Received(f)))
  {
    hide Loose, SafeTrace, Observe, FreshView, ActiveTie, Extend, Good, FinishHeaders;
    var sid, p, t1 := f.header.streamId, f.payload, After(t, Received(f));
    var st := NewStream(c, p.endStream);
    var c0 := Admitted(c, sid);
    NewFacts(c, t, sid);
    HeadersSeen(t, f, st.(endHeaders := p.endHeaders));
    AdmittedLoose(c, t, t1, sid);
    ReceivedSafe(t, f);
    StopOk(c0, t1, Some(sid));
    if p.endHeaders {
      FinishKeeps(c0, t1, sid, st, p.headerBlock, routing);
    } else if |p.headerBlock| > c.config.maxHeaderBlock {
      GoodStop(EnhanceYourCalm, sid, t1);
    } else {
      BeginBlock(c0, t1, sid, st, p.headerBlock);
      GoodNext(c0.(active := c0.active[sid := st], contSid := Some(sid), contBlock := p.headerBlock), t1);
    }
  }

  lemma HeadersKeep(c: Conn, t: Trace, f: Frame, routing: Routing)
    requires Inv(c, t) && FromWire(f) && f.payload.Headers? && c.contSid.None?
    ensures var p := f.payload;
            Good(OnHeaders(c, f.header.streamId, p.headerBlock, p.endStream, p.endHeaders, routing),
                After(t, Received(f)))
  {
    hide Loose, SafeTrace, Observe, Extend, FinishHeaders, MarkClosed, MayStop;
    var sid, p, t1 := f.header.streamId, f.payload, After(t, Received(f));
    StopOk(c, t, None);
    ReceivedStop(t, f, c.lastSid);
    ExtendNone(t1);
    if sid % 2 == 1 && sid > c.lastSid {
      if |c.windows| >= c.config.maxConcurrentStreams {
        RefusedKeeps(c, t, f, sid);
      } else {
        AdmitKeeps(c, t, f, routing);
      }
    }
  }

  // ---------------------------------------------------------------- CONTINUATION

  lemma EndOpen(c: Conn, sid: U32)
    requires OpenStreams(c) && c.contSid == Some(sid)
    ensures OpenStreams(c.(active := c.active - {sid}, contSid := None, contBlock := []))
  {
    forall x | x in c.active && x != sid
      ensures OpenStream(c.(active := c.active - {sid}, contSid := None, contBlock := []), x)
    {
      assert OpenStream(c, x);
    }
  }

  /** The stream whose header block was being received, taken out with the connection free again. */
  lemma EndBlock(c: Conn, t: Trace, sid: U32)
    requires Loose(c, t, None) && c.contSid == Some(sid) && sid in c.active
    ensures Loose(c.(active := c.active - {sid}, contSid := None, contBlock := []), t, Some(sid))
    ensures ActiveTie(c.active[sid], Observe(t, sid))
  {
    hide Numbers, Ids, OpenStreams, Places, Ties, Credits, Observe, ActiveTie;
    EndOpen(c, sid);
    DetachActivePlaces(c, sid);
    DetachActiveTies(c, t, sid);
    ContState(c.(active := c.active - {sid}), Some(sid), None, []);
    ContTies(c.(active := c.active - {sid}), t, None, []);
  }

  /** What is known of an open stream. */
  lemma OpenFacts(c: Conn, t: Trace, sid: U32)
    requires Loose(c, t, None) && sid in c.active
    ensures var st := c.active[sid];
            && Openable(c, t, sid, st) && OpenStream(c, sid)
  {
    hide Numbers, Ids, Observe, ActiveTie, Balanced, DistinctBodies, DistinctHeaders;
    assert sid in c.windows.Keys;
  }

  lemma ReceivingFacts(c: Conn, t: Trace)
    requires Loose(c, t, None) && c.contSid.Some?
    ensures c.contSid.value in c.active
  {
    hide Numbers, Ids, Observe, Places, Ties, Credits, OpenStream;
  }

  lemma MoreBlockKeeps(c: Conn, t: Trace, f: Frame, all: seq<Byte>)
    requires Inv(c, t) && c.contSid.Some? && f.payload.Continuation? && !f.payload.endHeaders
             && |all| <= c.config.maxHeaderBlock
    ensures Inv(c.(contBlock := all), After(t, Received(f)))
  {
    hide Numbers, Ids, OpenStreams, Places, Ties, Credits, SafeTrace;
    ReceivedSafe(t, f);
    Unnoticed(c, t, After(t, Received(f)), None);
    assert Beside(c, c.(contBlock := all)) by { BesideBlock(c, all); }
    SideMove(c, c.(contBlock := all), After(t, Received(f)), None);
  }

  lemma BesideBlock(c: Conn, all: seq<Byte>)
    requires Numbers(c) && Ids(c) && c.contSid.Some? && |all| <= c.config.maxHeaderBlock
    ensures Beside(c, c.(contBlock := all))
  {
  }

  lemma BlockSeen(t: Trace, f: Frame, st: Stream)
    requires f.payload.Continuation? && f.payload.endHeaders && f.header.streamId != 0
    requires ActiveTie(st, Observe(t, f.header.streamId))
    ensures var sid := f.header.streamId; var t1 := After(t, Received(f));
            && OnlyOn(t, t1, sid) && Books(t, t1) && ActiveTie(st.(endHeaders := true), Observe(t1, sid))
            && Observe(t1, sid).credit == Observe(t, sid).credit && Observe(t1, sid).sent == Observe(t, sid).sent
  {
  }

  lemma LastBlockKeeps(c: Conn, t: Trace, f: Frame, all: seq<Byte>, routing: Routing)
    requires Inv(c, t) && FromWire(f) && f.payload.Continuation? && f.payload.endHeaders
             && c.contSid == Some(f.header.streamId)
    ensures Good(FinishHeaders(c.(contSid := None, contBlock := []), f.header.streamId, all, routing),
            After(t, Received(f)))
  {
    hide Loose, SafeTrace, Observe, ActiveTie, FinishHeaders, Good;
    var sid, t1 := f.header.streamId, After(t, Received(f));
    ReceivingFacts(c, t);
    OpenFacts(c, t, sid);
    EndBlock(c, t, sid);
    var st := c.active[sid];
    var c1 := c.(active := c.active - {sid}, contSid := None, contBlock := []);
    BlockSeen(t, f, st);
    ReceivedSafe(t, f);
    QuietEvents(c1, t, t1, sid);
    assert c1.active[sid := st] == c.active;
    FinishKeeps(c1, t1, sid, st, all, routing);
  }

  lemma ContinuationKeep(c: Conn, t: Trace, f: Frame, routing: Routing)
    requires Inv(c, t) && FromWire(f) && f.payload.Continuation? && c.contSid == Some(f.header.streamId)
    ensures Good(OnContinuation(c, f.header.streamId, f.payload.headerBlock, f.payload.endHeaders, routing),
            After(t, Received(f)))
  {
    hide Inv, MayStop, Good, FinishHeaders;
    var t1 := After(t, Received(f));
    var all := c.contBlock + f.payload.headerBlock;
    if |all| > c.config.maxHeaderBlock {
      InvSafe(c, t);
      ReceivedStop(t, f, c.lastSid);
      GoodStop(EnhanceYourCalm, c.lastSid, t1);
    } else if f.payload.endHeaders {
      LastBlockKeeps(c, t, f, all, routing);
    } else {
      MoreBlockKeeps(c, t, f, all);
      GoodNext(c.(contBlock := all), t1);
    }
  }

  lemma InvSafe(c: Conn, t: Trace)
    requires Inv(c, t)
    ensures MayStop(t, c.lastSid)
  {
    hide Loose, SafeTrace, MayStop;
    StopOk(c, t, None);
  }

  // ---------------------------------------------------------------- DATA

  /** Both receive windows are as before: what was taken was given back. */
  lemma ReplenishRestores(connection: int, stream: int, n: nat)
    ensures var r := Replenish(connection, stream, n);
            && (r.Ok? <==> n == 0 || (n <= connection <= Flow.MAX_WINDOW_SIZE && n <= stream <= Flow.MAX_WINDOW_SIZE))
            && (r.Ok? ==> r.value == (connection, stream))
  {
  }

  /** The data was received and its credit given back, on the stream and on the connection. */
  ghost predicate DataCredited(t: Trace, t': Trace, sid: U32, data: seq<Byte>, endStream: bool) {
    && OnlyOn(t, t', sid) && Books(t, t') && SafeTrace(t')
    && Observe(t', sid) == Observe(t, sid).(request := Observe(t, sid).request + data,
                                            gotEnd := Observe(t, sid).gotEnd || endStream,
                                            granted := Observe(t, sid).granted + |data|)
  }

  lemma CreditSent(t: Trace, sid: U32, n: nat)
    requires 0 < n <= MAX_ALLOWED_FRAME_SIZE && 0 < sid < 0x8000_0000 && SafeTrace(t)
             && Observe(t, sid).phase == NotStarted
    requires Observe(t, sid).granted + n <= |Observe(t, sid).request|
    ensures var t' := Extend(t, Credit(sid, n));
            && OnlyOn(t, t', sid) && SafeTrace(t')
            && Observe(t', sid) == Observe(t, sid).(granted := Observe(t, sid).granted + n)
            && ConnectionCredit(t') == ConnectionCredit(t) && TotalSent(t') == TotalSent(t)
            && InitialSetting(t') == InitialSetting(t) && Owed(t') == Owed(t).(data := Owed(t).data - n)
  {
    var t1 := After(t, Sent(WindowUpdateFrame(0, n)));
    var t2 := After(t1, Sent(WindowUpdateFrame(sid, n)));
    assert Extend(t, Credit(sid, n)) == t2 by {
      assert Credit(sid, n)[1..] == [Sent(WindowUpdateFrame(sid, n))];
      ExtendOne(t1, Sent(WindowUpdateFrame(sid, n)));
    }
    assert WellFormed(WindowUpdateFrame(0, n)) && WellFormed(WindowUpdateFrame(sid, n));
    ConnectionFrameSent(t, WindowUpdateFrame(0, n));
    assert SafeView(Observe(t1, sid));
    SafeEvents(t1, t2, sid);
  }

  lemma DataIsCredited(t: Trace, f: Frame)
    requires f.payload.Data? && |f.payload.data| <= MAX_ALLOWED_FRAME_SIZE && 0 < f.header.streamId < 0x8000_0000
             && SafeTrace(t)
    requires var v := Observe(t, f.header.streamId); v.phase == NotStarted && v.granted == |v.request|
    ensures var sid := f.header.streamId;
            DataCredited(t, Extend(After(t, Received(f)), Credit(sid, |f.payload.data|)), sid, f.payload.data,
                f.payload.endStream)
  {
    var sid, data, t1 := f.header.streamId, f.payload.data, After(t, Received(f));
    ReceivedSafe(t, f);
    assert OnlyOn(t, t1, sid) && Owed(t1) == Owed(t).(data := Owed(t).data + |data|);
    if data == [] {
      ExtendNone(t1);
      assert Observe(t, sid).request + data == Observe(t, sid).request;
    } else {
      CreditSent(t1, sid, |data|);
    }
  }

  lemma ThenGood(out: seq<Event>, s: Step, t: Trace)
    requires Good(s, Extend(t, out))
    ensures Good(Then(out, s), t)
  {
    hide Inv, SafeTrace, Extend;
    ExtendAppend(t, out, s.out);
  }

  /** Request data on an open stream: its credit is returned and the request grows, or is complete. */
  lemma BodyKeeps(c: Conn, t: Trace, f: Frame, routing: Routing)
    requires Inv(c, t) && FromWire(f) && f.payload.Data? && c.contSid.None? && f.header.streamId in c.active
    requires Replenish(c.recvWindow, c.active[f.header.streamId].window, |f.payload.data|).Ok?
    ensures Good(OnData(c, f.header.streamId, f.payload.data, f.payload.endStream, routing), After(t, Received(f)))
  {
    hide Loose, SafeTrace, Observe, Good, Dispatch, Replenish, Then, Extend;
    var sid, data, endStream, t1 := f.header.streamId, f.payload.data, f.payload.endStream, After(t, Received(f));
    var st, out, c1 := c.active[sid], Credit(sid, |data|), c.(active := c.active - {sid});
    var t2 := Extend(t1, out);
    OpenFacts(c, t, sid);
    ReplenishRestores(c.recvWindow, st.window, |data|);
    DetachActive(c, t, sid);
    DataIsCredited(t, f);
    QuietEvents(c1, t, t2, sid);
    var st1 := st.(requestBody := st.requestBody + data, endStream := endStream);
    if |data| > SaturatingSub(c.config.maxRequestSize, |st.requestBody|) {
      StopOk(c1, t2, Some(sid));
      GoodStop(EnhanceYourCalm, c.lastSid, t2);
      ThenGood(out, Stop(EnhanceYourCalm, c.lastSid, []), t1);
      assert Then(out, Stop(EnhanceYourCalm, c.lastSid, []))
             == Stop(EnhanceYourCalm, c.lastSid, out) by { ThenStop(out, EnhanceYourCalm, c.lastSid); }
    } else if endStream {
      DispatchKeeps(c1, t2, sid, HalfClose(st1), routing);
      ThenGood(out, Dispatch(c1, sid, HalfClose(st1), routing), t1);
    } else {
      Reopened(c1, t2, sid, st1);
      GoodNext(c1.(active := c1.active[sid := st1]), t2);
      assert c1.active[sid := st1] == c.active[sid := st1];
      ThenGood(out, Next(c.(active := c.active[sid := st1]), []), t1);
      ThenNext(out, c.(active := c.active[sid := st1]));
    }
  }

  lemma ThenStop(out: seq<Event>, code: ErrorCode, last: U32)
    ensures Then(out, Stop(code, last, [])) == Stop(code, last, out)
  {
    assert out + [] == out;
  }

  lemma ThenNext(out: seq<Event>, c: Conn)
    ensures Then(out, Next(c, [])) == Next(c, out)
  {
    assert out + [] == out;
  }

  lemma DataKeep(c: Conn, t: Trace, f: Frame, routing: Routing)
    requires Inv(c, t) && FromWire(f) && f.payload.Data? && c.contSid.None?
    ensures Good(OnData(c, f.header.streamId, f.payload.data, f.payload.endStream, routing), After(t, Received(f)))
  {
    hide Inv, MayStop, Good, Dispatch, Replenish;
    var sid, t1 := f.header.streamId, After(t, Received(f));
    InvSafe(c, t);
    ReceivedStop(t, f, c.lastSid);
    if sid !in c.active {
      GoodStop(StreamClosed, c.lastSid, t1);
    } else {
      var r := Replenish(c.recvWindow, c.active[sid].window, |f.payload.data|);
      if r.Ok? {
        BodyKeeps(c, t, f, routing);
      } else {
        GoodStop(r.code, c.lastSid, t1);
      }
    }
  }

  // ---------------------------------------------------------------- WINDOW_UPDATE

  lemma ConnectionUpdateSeen(t: Trace, f: Frame)
    requires f.header.streamId == 0 && f.payload.WindowUpdate?
    ensures var t1 := After(t, Received(f));
            && SameViews(t, t1) && ConnectionCredit(t1) == ConnectionCredit(t) + f.payload.windowSizeIncrement
            && TotalSent(t1) == TotalSent(t) && InitialSetting(t1) == InitialSetting(t) && Owed(t1) == Owed(t)
  {
  }

  lemma ConnectionCreditKeeps(c: Conn, t: Trace, f: Frame)
    requires Inv(c, t) && f.header.streamId == 0 && f.payload.WindowUpdate?
    requires c.connWindow + f.payload.windowSizeIncrement <= Flow.MAX_WINDOW_SIZE
    ensures Inv(c.(connWindow := c.connWindow + f.payload.windowSizeIncrement), After(t, Received(f)))
  {
    hide SafeTrace, SameViews, Numbers, Ids, OpenStreams, Places, Ties, Credits, ConnectionCredit, TotalSent;
    hide InitialSetting, Owed;
    var t1 := After(t, Received(f));
    ConnectionUpdateSeen(t, f);
    ReceivedSafe(t, f);
    UnnoticedTies(c, t, t1, None);
    ConnectionCreditNumbers(c, f.payload.windowSizeIncrement);
    ConnectionCreditState(c, c.connWindow + f.payload.windowSizeIncrement, t1);
    ConnectionCreditBalance(c, t, t1, c.connWindow + f.payload.windowSizeIncrement);
  }

  lemma ConnectionCreditNumbers(c: Conn, n: nat)
    requires Numbers(c) && Ids(c) && c.connWindow + n <= Flow.MAX_WINDOW_SIZE
    ensures var c' := c.(connWindow := c.connWindow + n); Numbers(c') && Ids(c')
  {
    hide Distinct;
  }

  lemma ConnectionCreditState(c: Conn, w: int, t: Trace)
    requires OpenStreams(c) && Places(c, None) && Ties(c, t)
    ensures var c' := c.(connWindow := w); OpenStreams(c') && Places(c', None) && Ties(c', t)
  {
    hide Observe, ActiveTie, WaitingTie, SendingTie, FreshView, DistinctBodies, DistinctHeaders, HeaderIds, BodyIds;
    forall x | x in c.active ensures OpenStream(c.(connWindow := w), x) {
      assert OpenStream(c, x);
    }
  }

  lemma ConnectionCreditBalance(c: Conn, t: Trace, t': Trace, w: int)
    requires Ids(c) && Credits(c, t) && SameViews(t, t') && TotalSent(t') == TotalSent(t)
    requires InitialSetting(t') == InitialSetting(t) && Owed(t') == Owed(t)
    requires w - c.connWindow == ConnectionCredit(t') - ConnectionCredit(t)
    ensures Credits(c.(connWindow := w), t')
  {
    hide Observe, Balanced, ConnectionCredit, TotalSent, InitialSetting, Owed;
    forall x | x in c.windows ensures Observe(t', x) == Observe(t, x) {
      assert x % 2 == 1;
    }
  }

  /** Credit for one stream, wherever the stream is. */
  function Credited(c: Conn, sid: U32, w: int): Conn {
    c.(windows := c.windows[sid := w], active := if sid in c.active then
        c.active[sid := c.active[sid].(sendWindow := w)] else c.active)
  }

  ghost predicate CreditSeen(t: Trace, t': Trace, sid: U32, n: nat) {
    && OnlyOn(t, t', sid) && Books(t, t')
    && Observe(t', sid) == Observe(t, sid).(credit := Observe(t, sid).credit + n)
  }

  lemma CreditedState(c: Conn, sid: U32, w: int)
    requires Numbers(c) && Ids(c) && OpenStreams(c) && sid in c.windows
    ensures var c' := Credited(c, sid, w); Numbers(c') && Ids(c') && OpenStreams(c')
  {
    hide Distinct;
    var c' := Credited(c, sid, w);
    assert c'.windows.Keys == c.windows.Keys && c'.active.Keys == c.active.Keys;
    assert |c'.windows| == |c'.windows.Keys| && |c.windows| == |c.windows.Keys|;
    forall x | x in c'.active ensures OpenStream(c', x) {
      assert OpenStream(c, x);
    }
  }

  lemma CreditedPlaces(c: Conn, sid: U32, w: int)
    requires Places(c, None) && sid in c.windows
    ensures Places(Credited(c, sid, w), None)
  {
    hide DistinctBodies, DistinctHeaders, HeaderIds, BodyIds;
    var c' := Credited(c, sid, w);
    assert c'.windows.Keys == c.windows.Keys && c'.active.Keys == c.active.Keys;
  }

  /** Credit plays no part in where a stream stands. */
  lemma CreditUntold(v: View, n: nat)
    ensures var v' := v.(credit := v.credit + n);
            && WaitingTie(v') == WaitingTie(v) && FreshView(v') == FreshView(v)
            && (forall b :: SendingTie(b, v') == SendingTie(b, v))
            && (forall st :: ActiveTie(st, v') == ActiveTie(st, v))
  {
    hide Progress;
  }

  lemma CreditedTies(c: Conn, t: Trace, t': Trace, sid: U32, w: int, n: nat)
    requires Ids(c) && Places(c, None) && Ties(c, t) && CreditSeen(t, t', sid, n) && sid in c.windows
    ensures Ties(Credited(c, sid, w), t')
  {
    hide Observe, SendingTie, WaitingTie, Distinct, DistinctHeaders, DistinctBodies;
    CreditUntold(Observe(t, sid), n);
    var c' := Credited(c, sid, w);
    forall x | x in c'.active ensures ActiveTie(c'.active[x], Observe(t', x)) {
      assert x in c.windows.Keys && ActiveTie(c.active[x], Observe(t, x));
    }
    forall p | p in c'.headerQ ensures WaitingTie(Observe(t', p.sid)) {
      assert p.sid in HeaderIds(c.headerQ) && p.sid in c.windows.Keys;
    }
    forall p | p in c'.bodyQ ensures SendingTie(p.body, Observe(t', p.sid)) {
      assert p.sid in BodyIds(c.bodyQ) && p.sid in c.windows.Keys;
    }
  }

  lemma CreditedBalance(c: Conn, t: Trace, t': Trace, sid: U32, n: nat)
    requires Ids(c) && Credits(c, t) && CreditSeen(t, t', sid, n) && sid in c.windows
             && c.windows[sid] + n <= Flow.MAX_WINDOW_SIZE
    ensures Credits(Credited(c, sid, c.windows[sid] + n), t')
  {
    hide Observe, ConnectionCredit, TotalSent, InitialSetting, Owed;
    var c' := Credited(c, sid, c.windows[sid] + n);
    forall x | x in c'.windows ensures Balanced(c'.windows[x], c'.peerInitial, Observe(t', x)) {
      assert x % 2 == 1 && Balanced(c.windows[x], c.peerInitial, Observe(t, x));
    }
  }

  lemma CreditedKeeps(c: Conn, t: Trace, t': Trace, sid: U32, n: nat)
    requires Loose(c, t, None) && CreditSeen(t, t', sid, n) && sid in c.windows
             && c.windows[sid] + n <= Flow.MAX_WINDOW_SIZE
    ensures Loose(Credited(c, sid, c.windows[sid] + n), t', None)
  {
    hide Numbers, Ids, OpenStreams, Places, Ties, Credits, CreditSeen, Credited;
    CreditedState(c, sid, c.windows[sid] + n);
    CreditedPlaces(c, sid, c.windows[sid] + n);
    CreditedTies(c, t, t', sid, c.windows[sid] + n, n);
    CreditedBalance(c, t, t', sid, n);
  }

  lemma UpdateSeen(t: Trace, f: Frame)
    requires f.payload.WindowUpdate? && f.header.streamId != 0
    ensures CreditSeen(t, After(t, Received(f)), f.header.streamId, f.payload.windowSizeIncrement)
  {
  }

  /** Credit that comes after the end of a stream changes nothing. */
  lemma LateCreditKeeps(c: Conn, t: Trace, f: Frame)
    requires Inv(c, t) && f.payload.WindowUpdate? && f.header.streamId != 0 && f.header.streamId !in c.windows
    ensures Inv(c, After(t, Received(f)))
  {
    var sid, t1 := f.header.streamId, After(t, Received(f));
    assert sid > c.lastSid ==> FreshView(Observe(t, sid));
    UpdateSeen(t, f);
    assert sid > c.lastSid ==> FreshView(Observe(t1, sid));
    hide Loose, SafeTrace, Observe;
    ReceivedSafe(t, f);
    UntrackedEvents(c, t, t1, sid);
  }

  /** How WINDOW_UPDATE on a stream acts: the shadow in an open stream moves with the window itself. */
  lemma StreamUpdate(c: Conn, t: Trace, sid: U32, n: U32)
    requires Loose(c, t, None) && sid != 0 && n > 0
    ensures OnWindowUpdate(c, sid, n) ==
            if sid !in c.windows then (if sid in c.closed then Next(c, []) else Stop(ProtocolError, c.lastSid, []))
            else if c.windows[sid] + n > Flow.MAX_WINDOW_SIZE then Stop(FlowControlError, c.lastSid, [])
            else Next(Credited(c, sid, c.windows[sid] + n), [])
  {
    hide Observe, OpenStreams, Ties, Numbers, Balanced, DistinctBodies, DistinctHeaders, HeaderIds, BodyIds;
    assert sid in c.active ==> sid in c.windows.Keys;
  }

  lemma WindowUpdateKeep(c: Conn, t: Trace, f: Frame)
    requires Inv(c, t) && FromWire(f) && f.payload.WindowUpdate?
    ensures Good(OnWindowUpdate(c, f.header.streamId, f.payload.windowSizeIncrement), After(t, Received(f)))
  {
    hide Loose, SafeTrace, Good, Credited, Extend, MayStop;
    var sid, n, t1 := f.header.streamId, f.payload.windowSizeIncrement, After(t, Received(f));
    StopOk(c, t, None);
    ReceivedStop(t, f, c.lastSid);
    ReceivedSafe(t, f);
    if sid == 0 {
      if c.connWindow + n <= Flow.MAX_WINDOW_SIZE {
        ConnectionCreditKeeps(c, t, f);
        GoodNext(c.(connWindow := c.connWindow + n), t1);
      } else {
        GoodStop(FlowControlError, c.lastSid, t1);
      }
    } else {
      StreamUpdate(c, t, sid, n);
      if sid !in c.windows {
        LateCreditKeeps(c, t, f);
        GoodNext(c, t1);
        GoodStop(ProtocolError, c.lastSid, t1);
      } else if c.windows[sid] + n > Flow.MAX_WINDOW_SIZE {
        GoodStop(FlowControlError, c.lastSid, t1);
      } else {
        UpdateSeen(t, f);
        CreditedKeeps(c, t, t1, sid, n);
        GoodNext(Credited(c, sid, c.windows[sid] + n), t1);
      }
    }
  }

  // ---------------------------------------------------------------- RST_STREAM

  lemma {:induction false} WithoutHeaderIs(q: seq<PendingHeader>, sid: U32)
    ensures var r := WithoutHeader(q, sid);
            && (forall p :: p in r <==> p in q && p.sid != sid)
            && (DistinctHeaders(q) ==> DistinctHeaders(r))
  {
    if q != [] {
      WithoutHeaderIs(q[1..], sid);
      assert q == [q[0]] + q[1..];
      var r := WithoutHeader(q[1..], sid);
      if DistinctHeaders(q) && q[0].sid != sid {
        forall i | 0 <= i < |r| ensures r[i].sid != q[0].sid {
          assert r[i] in q[1..];
        }
      }
    }
  }

  lemma {:induction false} WithoutBodyIs(q: seq<PendingResponse>, sid: U32)
    ensures var r := WithoutBody(q, sid);
            && (forall p :: p in r <==> p in q && p.sid != sid)
            && (DistinctBodies(q) ==> DistinctBodies(r))
  {
    if q != [] {
      WithoutBodyIs(q[1..], sid);
      assert q == [q[0]] + q[1..];
      var r := WithoutBody(q[1..], sid);
      if DistinctBodies(q) && q[0].sid != sid {
        forall i | 0 <= i < |r| ensures r[i].sid != q[0].sid {
          assert r[i] in q[1..];
        }
      }
    }
  }

  /** The stream is gone from every place, whichever it was in. */
  function Forgotten(c: Conn, sid: U32): Conn {
    c.(active := c.active - {sid}, headerQ := WithoutHeader(c.headerQ, sid), bodyQ := WithoutBody(c.bodyQ, sid))
  }

  lemma ForgottenPlaces(c: Conn, sid: U32)
    requires Places(c, None)
    ensures Places(Release(Forgotten(c, sid), sid), None)
  {
    hide MarkClosed, WithoutHeader, WithoutBody, DistinctBodies, DistinctHeaders;
    WithoutHeaderIs(c.headerQ, sid);
    WithoutBodyIs(c.bodyQ, sid);
    var c' := Release(Forgotten(c, sid), sid);
    assert HeaderIds(c'.headerQ) == HeaderIds(c.headerQ) - {sid};
    assert BodyIds(c'.bodyQ) == BodyIds(c.bodyQ) - {sid};
    assert c'.active.Keys == c.active.Keys - {sid} && c'.windows.Keys == c.windows.Keys - {sid};
  }

  lemma ForgottenOpen(c: Conn, sid: U32)
    requires OpenStreams(c) && c.contSid.None?
    ensures OpenStreams(Forgotten(c, sid))
  {
    hide WithoutHeader, WithoutBody;
    var c' := Forgotten(c, sid);
    forall x | x in c'.active ensures OpenStream(c', x) {
      assert OpenStream(c, x);
    }
  }

  lemma ForgottenState(c: Conn, sid: U32)
    requires Numbers(c) && Ids(c)
    ensures var c' := Forgotten(c, sid); Numbers(c') && Ids(c')
  {
    hide WithoutHeader, WithoutBody, Distinct;
  }

  lemma ForgottenTies(c: Conn, t: Trace, sid: U32)
    requires Ties(c, t) && Credits(c, t)
    ensures var c' := Forgotten(c, sid); Ties(c', t) && Credits(c', t)
  {
    hide WithoutHeader, WithoutBody, Observe, ActiveTie, WaitingTie, SendingTie, FreshView, Balanced, ConnectionCredit;
    hide TotalSent, InitialSetting, Owed;
    WithoutHeaderIs(c.headerQ, sid);
    WithoutBodyIs(c.bodyQ, sid);
  }

  lemma ReleasedOpen(c: Conn, sid: U32)
    requires OpenStreams(c)
    ensures OpenStreams(Release(c, sid))
  {
    forall x | x in c.active ensures OpenStream(Release(c, sid), x) {
      assert OpenStream(c, x);
    }
  }

  lemma ResetKeep(c: Conn, t: Trace, f: Frame)
    requires Inv(c, t) && f.payload.RstStream? && c.contSid.None?
    ensures Good(OnReset(c, f.header.streamId), After(t, Received(f)))
  {
    var sid, t1 := f.header.streamId, After(t, Received(f));
    assert SameViews(t, t1) && Books(t, t1);
    hide Numbers, Ids, OpenStreams, Places, Ties, Credits, SafeTrace, SameViews, Books, Observe, Good, Forgotten;
    hide Release;
    ReceivedSafe(t, f);
    Unnoticed(c, t, t1, None);
    ForgottenState(c, sid);
    ForgottenOpen(c, sid);
    ForgottenTies(c, t1, sid);
    ForgottenPlaces(c, sid);
    var c1 := Forgotten(c, sid);
    ReleaseNumbers(c1, sid);
    ReleaseTies(c1, t1, sid);
    ReleasedOpen(c1, sid);
    GoodNext(Release(c1, sid), t1);
    OnResetIs(c, sid);
  }

  lemma OnResetIs(c: Conn, sid: U32)
    ensures OnReset(c, sid) == Next(Release(Forgotten(c, sid), sid), [])
  {
  }

  // ---------------------------------------------------------------- any frame

  lemma Uneventful(c: Conn, t: Trace, f: Frame)
    requires Inv(c, t)
    requires f.payload.Priority? || f.payload.PushPromise? || f.payload.Unknown?
             || ((f.payload.Ping? || f.payload.Settings?) && f.payload.ack)
    ensures Inv(c, After(t, Received(f)))
  {
    var t1 := After(t, Received(f));
    assert SameViews(t, t1) && Books(t, t1);
    hide Loose, SafeTrace, SameViews, Books, Observe;
    ReceivedSafe(t, f);
    Unnoticed(c, t, t1, None);
  }

  lemma PingKeeps(c: Conn, t: Trace, f: Frame)
    requires Inv(c, t) && f.header.streamId == 0 && f.payload.Ping? && !f.payload.ack && |f.payload.opaqueData| == 8
    ensures Inv(c, Extend(After(t, Received(f)), [Sent(PingAck(f.payload.opaqueData))]))
  {
    hide Numbers, Ids, OpenStreams, Places, Ties, SafeTrace, SameViews, Books, Balanced, Extend, Observe;
    hide ConnectionCredit, TotalSent, InitialSetting, Owed;
    var t1 := After(t, Received(f));
    var ack := PingAck(f.payload.opaqueData);
    ExtendOne(t1, Sent(ack));
    PingSeen(t, f);
    Unnoticed(c, t, After(t1, Sent(ack)), None);
  }

  lemma PingSeen(t: Trace, f: Frame)
    requires SafeTrace(t) && Owed(t) == NOTHING && f.header.streamId == 0 && f.payload.Ping? && !f.payload.ack
             && |f.payload.opaqueData| == 8
    ensures var t2 := After(After(t, Received(f)), Sent(PingAck(f.payload.opaqueData)));
            SafeTrace(t2) && SameViews(t, t2) && Books(t, t2)
  {
    hide SafeTrace;
    var t1, ack := After(t, Received(f)), PingAck(f.payload.opaqueData);
    assert WellFormed(ack);
    ReceivedSafe(t, f);
    ConnectionFrameSent(t1, ack);
    assert Owed(t1) == Dues(0, [f.payload.opaqueData], 0);
    assert Owed(t1).pings[1..] == [];
    var t2 := After(t1, Sent(ack));
    assert Owed(t2) == DuesSent(Owed(t1), ack);
    assert SameViews(t, t1);
    assert SameViews(t, t2);
    assert ConnectionCredit(t2) == ConnectionCredit(t);
    assert TotalSent(t2) == TotalSent(t);
    assert InitialSetting(t2) == InitialSetting(t);
    assert Owed(t2) == Owed(t);
  }

  /** Any frame, in any reachable state, keeps the invariant or stops the connection with a safe history. */
  lemma FrameKeeps(c: Conn, t: Trace, f: Frame, routing: Routing)
    requires Inv(c, t) && FromWire(f)
    ensures Good(ProcessFrame(c, f, routing), After(t, Received(f)))
  {
    hide Inv, MayStop, Good, ApplySettings, OnHeaders, OnContinuation, OnData, OnWindowUpdate, OnReset;
    var t1 := After(t, Received(f));
    InvSafe(c, t);
    ReceivedStop(t, f, c.lastSid);
    forall code: ErrorCode ensures Good(Stop(code, c.lastSid, []), t1) {
      GoodStop(code, c.lastSid, t1);
    }
    var blocked := c.contSid.Some? && (f.header.streamId != c.contSid.value || f.header.frameType != ContinuationType);
    var stray := c.contSid.None? && f.header.frameType == ContinuationType;
    if !blocked && !stray {
      match f.payload
      case Settings(settings, ack) => SettingsCase(c, t, f);
      case Ping(data, ack) => PingCase(c, t, f);
      case Headers(_, _, _) => HeadersKeep(c, t, f, routing);
      case Continuation(_, _) => ContinuationKeep(c, t, f, routing);
      case Data(_, _) => DataKeep(c, t, f, routing);
      case WindowUpdate(_) => WindowUpdateKeep(c, t, f);
      case RstStream(_) => ResetKeep(c, t, f);
      case GoAway(_, _, _) =>
      case _ =>
        Uneventful(c, t, f);
        GoodNext(c, t1);
    }
  }

  lemma SettingsCase(c: Conn, t: Trace, f: Frame)
    requires Inv(c, t) && f.header.streamId == 0 && f.payload.Settings?
    ensures f.payload.ack ==> Good(Next(c, []), After(t, Received(f)))
    ensures var r := ApplySettings(c, f.payload.settings);
            !f.payload.ack && r.Ok? ==> Good(Next(r.value, [Sent(SETTINGS_ACK)]), After(t, Received(f)))
  {
    hide Inv, ApplySettings, Extend;
    if f.payload.ack {
      Uneventful(c, t, f);
      GoodNext(c, After(t, Received(f)));
    } else if ApplySettings(c, f.payload.settings).Ok? {
      SettingsKeep(c, t, f);
    }
  }

  lemma PingCase(c: Conn, t: Trace, f: Frame)
    requires Inv(c, t) && f.header.streamId == 0 && f.payload.Ping? && |f.payload.opaqueData| == 8
    ensures f.payload.ack ==> Good(Next(c, []), After(t, Received(f)))
    ensures !f.payload.ack ==> Good(Next(c, [Sent(PingAck(f.payload.opaqueData))]), After(t, Received(f)))
  {
    hide Inv, Extend;
    if f.payload.ack {
      Uneventful(c, t, f);
      GoodNext(c, After(t, Received(f)));
    } else {
      PingKeeps(c, t, f);
    }
  }
}
