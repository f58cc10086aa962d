/**
 Whole runs against what routing and the upstreams gave: every stream is sent its own response, headers and body,
 and is cut short only where the body or the upstream could not go on.
 */
module ConnectionResponses {
  import opened Base
  import opened Frame
  import opened Sources
  import opened Connection
  import opened ConnectionTrace
  import opened ConnectionInv
  import opened ConnectionRuns
  import opened ConnectionBodies
  import opened ConnectionAnswers
  import ConnectionFrames
  import ConnectionLedger
  import ConnectionTheorems
  import ConnectionRounds
  import Flow
  import Hpack

  // ---------------------------------------------------------------- what does not matter

  /** Nothing that matters to a stream's answer has happened. */
  ghost predicate CoreKept(t: Trace, t': Trace, sid: U32) {
    var v, v' := Observe(t, sid), Observe(t', sid);
    && v'.dispatches == v.dispatches && v'.responses == v.responses && v'.body == v.body && v'.phase == v.phase
    && v'.sent == v.sent && BlockOn(t', sid) == BlockOn(t, sid)
  }

  lemma ReceivedCore(t: Trace, f: Frame, sid: U32)
    ensures var t' := After(t, Received(f));
            && CoreKept(t, t', sid)
            && (f.header.streamId != sid || !(f.payload.RstStream? || f.payload.Headers?) ==>
                  ResetOn(t', sid) == ResetOn(t, sid))
  {
  }

  lemma CoreTrue(config: Config, g: map<U32, Routing>, t: Trace, t': Trace, sid: U32)
    requires CoreKept(t, t', sid) && True(config, g, t, sid)
    ensures True(config, g, t', sid)
  {
    hide Observe, BlockOn, BodyOf, ReplyOf, AnswerOf, MayFail;
  }

  lemma CoreOk(c: Conn, t: Trace, t': Trace, g: map<U32, Routing>, sid: U32)
    requires CoreKept(t, t', sid) && StreamOk(c, t, g, sid)
    requires ResetOn(t', sid) == ResetOn(t, sid)
             || (Observe(t, sid).phase == NotStarted && Observe(t, sid).dispatches == 0)
    ensures StreamOk(c, t', g, sid)
  {
    hide Observe, BlockOn, ResetOn, True, Kept, WaitingFor;
    CoreTrue(c.config, g, t, t', sid);
  }

  lemma ReceivedOk(c: Conn, t: Trace, g: map<U32, Routing>, f: Frame)
    requires AllOk(c, t, g) && !f.payload.RstStream?
    requires f.payload.Headers? ==> FreshView(Observe(t, f.header.streamId))
    ensures AllOk(c, After(t, Received(f)), g)
  {
    hide Observe, StreamOk, ResetOn, CoreKept;
    forall x: U32 | x != 0 ensures StreamOk(c, After(t, Received(f)), g, x) {
      assert StreamOk(c, t, g, x);
      ReceivedCore(t, f, x);
      CoreOk(c, t, After(t, Received(f)), g, x);
    }
  }

  lemma AsideOk(c: Conn, c': Conn, t: Trace, g: map<U32, Routing>)
    requires AllOk(c, t, g) && c'.config == c.config && c'.headerQ == c.headerQ && c'.bodyQ == c.bodyQ
    ensures AllOk(c', t, g)
  {
    hide Observe, True, WaitingFor, SendingOn, ResetOn;
    forall x: U32 | x != 0 ensures StreamOk(c', t, g, x) {
      assert StreamOk(c, t, g, x);
    }
  }

  // ---------------------------------------------------------------- steps

  /** What a received frame leads to agrees with what was given. */
  ghost predicate Judged(config: Config, s: Step, t: Trace, g: map<U32, Routing>, routing: Routing) {
    var t', g' := Extend(t, s.out), Assign(g, s.out, routing);
    match s
    case Next(c, _) => c.config == config && AllOk(c, t', g')
    case Stop(_, _, _) => AllTrue(config, g', t')
  }

  lemma JudgedStop(c: Conn, t: Trace, g: map<U32, Routing>, f: Frame, code: ErrorCode, last: U32, routing: Routing)
    requires AllOk(c, t, g)
    ensures Judged(c.config, Stop(code, last, []), After(t, Received(f)), g, routing)
  {
    hide AllOk, True, CoreKept;
    OkTrue(c, t, g);
    forall x: U32 | x != 0 ensures True(c.config, g, After(t, Received(f)), x) {
      ReceivedCore(t, f, x);
      CoreTrue(c.config, g, t, After(t, Received(f)), x);
    }
  }

  lemma JudgedNext(c: Conn, c': Conn, t: Trace, g: map<U32, Routing>, routing: Routing)
    requires AllOk(c, t, g) && c'.config == c.config && c'.headerQ == c.headerQ && c'.bodyQ == c.bodyQ
    ensures Judged(c.config, Next(c', []), t, g, routing)
  {
    hide AllOk;
    AsideOk(c, c', t, g);
  }

  lemma ThenJudged(config: Config, out: seq<Event>, s: Step, t: Trace, g: map<U32, Routing>, routing: Routing)
    requires Judged(config, s, Extend(t, out), g, routing) && forall e :: e in out ==> !e.Dispatched?
    ensures Judged(config, Then(out, s), t, g, routing)
  {
    hide AllOk, AllTrue, Extend, Assign;
    ExtendAppend(t, out, s.out);
    AssignAppend(g, out, s.out, routing);
    AssignNone(g, out, routing);
  }

  lemma DispatchJudged(c: Conn, t: Trace, g: map<U32, Routing>, sid: U32, st: Stream, routing: Routing)
    requires AllOk(c, t, g) && Handing(c, t, sid)
    ensures Judged(c.config, Dispatch(c, sid, st, routing), t, g, routing)
  {
    hide AllOk, Dispatch, Extend, Assign, StreamOk, QueuesApart, TracesApart, Handing;
    var s := Dispatch(c, sid, st, routing);
    DispatchOk(c, t, g, sid, st, routing);
    if s.Next? {
      ApartExtend(t, s.out, sid);
      HandingSid(c, t, sid);
      OneStream(c, t, g, s.conn, Extend(t, s.out), g[sid := routing], sid);
    } else {
      OkTrue(c, t, g);
      ExtendNone(t);
      AssignNone(g, s.out, routing);
    }
  }

  lemma HandingSid(c: Conn, t: Trace, sid: U32)
    requires Handing(c, t, sid)
    ensures 0 < sid
  {
  }

  /** The request whose header block is complete. */
  lemma FinishJudged(c: Conn, t: Trace, g: map<U32, Routing>, sid: U32, block: seq<Byte>, routing: Routing)
    requires AllOk(c, t, g) && Handing(c, t, sid)
    ensures Judged(c.config, FinishHeaders(c, sid, block, routing), t, g, routing)
  {
    hide AllOk, Dispatch, Hpack.DecodeBlock, Judged, HalfClose;
    var r := Hpack.DecodeBlock(c.table, TABLE_LIMIT, c.config.maxHeaderBlock, block);
    if r.Err? {
      StillTrue(c, t, g, r.code, routing);
    } else {
      var s := FinishHeaders(c, sid, block, routing);
      if sid in c.active && c.active[sid].endStream {
        var c1 := c.(table := r.value.table, active := c.active - {sid});
        AsideOk(c, c1, t, g);
        DispatchJudged(c1, t, g, sid, HalfClose(HeadersComplete(c.active[sid], r.value.headers)), routing);
      } else {
        assert s.Next? && s.out == [];
        JudgedNext(c, s.conn, t, g, routing);
      }
    }
  }

  lemma StillTrue(c: Conn, t: Trace, g: map<U32, Routing>, code: ErrorCode, routing: Routing)
    requires AllOk(c, t, g)
    ensures Judged(c.config, Stop(code, c.lastSid, []), t, g, routing)
  {
    hide AllOk, AllTrue;
    OkTrue(c, t, g);
  }

  // ---------------------------------------------------------------- received frames

  /** A stream newer than all others is untouched. */
  lemma NewUntouched(c: Conn, t: Trace, g: map<U32, Routing>, sid: U32)
    requires Inv(c, t) && AllOk(c, t, g) && sid > c.lastSid
    ensures FreshView(Observe(t, sid)) && Nowhere(c, sid) && BlockOn(t, sid) == []
  {
    hide Observe, SafeTrace, Credits, OpenStreams, Numbers, StreamOk, BodyOf;
    OkAt(c, t, g, sid);
    assert sid !in c.windows.Keys;
  }

  lemma ReceivedClear(t: Trace, f: Frame)
    requires SafeTrace(t)
    ensures WritingOf(After(t, Received(f))) == Clear && AllWellFormed(After(t, Received(f)))
  {
    SafeWriting(t);
  }

  lemma FreshHanding(c: Conn, t: Trace, t': Trace, sid: U32)
    requires FreshView(Observe(t, sid)) && BlockOn(t, sid) == [] && CoreKept(t, t', sid) && Nowhere(c, sid)
    requires 0 < sid < 0x8000_0000 && WritingOf(t') == Clear && AllWellFormed(t')
    ensures Handing(c, t', sid)
  {
    hide Observe, BlockOn, Nowhere, WritingOf, AllWellFormed;
  }

  /** A stream beyond the limit is refused before its request is known. */
  lemma RefusedOk(c: Conn, t: Trace, g: map<U32, Routing>, sid: U32)
    requires sid != 0 && True(c.config, g, t, sid) && Nowhere(c, sid) && FreshView(Observe(t, sid))
    ensures StreamOk(c, After(t, Sent(RstFrame(sid, RefusedStream))), g, sid)
  {
    hide Observe, BlockOn, ResetOn, BodyOf, ReplyOf, AnswerOf, MayFail, StreamOk, Nowhere;
    AbortOn(t, sid, RefusedStream);
    OverOk(c, After(t, Sent(RstFrame(sid, RefusedStream))), g, sid);
  }

  lemma RefusedJudged(c: Conn, c': Conn, t: Trace, g: map<U32, Routing>, sid: U32, routing: Routing)
    requires AllOk(c, t, g) && sid != 0 && Nowhere(c, sid) && FreshView(Observe(t, sid))
    requires c'.config == c.config && c'.headerQ == c.headerQ && c'.bodyQ == c.bodyQ
    ensures Judged(c.config, Next(c', [Sent(RstFrame(sid, RefusedStream))]), t, g, routing)
  {
    hide Observe, AllOk, StreamOk, True, Extend, TracesApart, FreshView;
    var e := Sent(RstFrame(sid, RefusedStream));
    OkAt(c, t, g, sid);
    RefusedOk(c', t, g, sid);
    ExtendOne(t, e);
    ApartOne(t, e, sid);
    SameGiven(g, sid);
    OneStream(c, t, g, c', After(t, e), g, sid);
    AssignNone(g, [e], routing);
  }

  lemma HeadersJudged(c: Conn, t: Trace, g: map<U32, Routing>, f: Frame, routing: Routing)
    requires Inv(c, t) && AllOk(c, t, g) && FromWire(f) && f.payload.Headers?
    ensures var p := f.payload;
            Judged(c.config, OnHeaders(c, f.header.streamId, p.headerBlock, p.endStream, p.endHeaders, routing),
              After(t, Received(f)), g, routing)
  {
    hide Loose, SafeTrace, AllOk, Judged, FinishHeaders, Observe, CoreKept, MarkClosed, FreshView, Nowhere, Handing;
    hide BlockOn, WritingOf, AllWellFormed, ResetOn;
    var sid, p, t1 := f.header.streamId, f.payload, After(t, Received(f));
    var s := OnHeaders(c, sid, p.headerBlock, p.endStream, p.endHeaders, routing);
    if sid % 2 == 0 || sid <= c.lastSid {
      JudgedStop(c, t, g, f, ProtocolError, c.lastSid, routing);
    } else {
      NewUntouched(c, t, g, sid);
      ReceivedOk(c, t, g, f);
      ReceivedCore(t, f, sid);
      if |c.windows| >= c.config.maxConcurrentStreams {
        FreshStill(t, t1, sid);
        RefusedJudged(c, s.conn, t1, g, sid, routing);
      } else {
        var c1 := c.(lastSid := sid);
        var c2 := c1.(windows := c.windows[sid := Flow.AsI32(c.peerInitial)],
          active := c.active[sid := NewStream(c1, p.endStream)]);
        if p.endHeaders {
          AsideOk(c, c2, t1, g);
          ReceivedClear(t, f);
          SameNowhere(c, c2, sid);
          FreshHanding(c2, t, t1, sid);
          FinishJudged(c2, t1, g, sid, p.headerBlock, routing);
        } else if |p.headerBlock| > c.config.maxHeaderBlock {
          JudgedStop(c, t, g, f, EnhanceYourCalm, sid, routing);
        } else {
          JudgedNext(c, s.conn, t1, g, routing);
        }
      }
    }
  }

  lemma FreshStill(t: Trace, t': Trace, sid: U32)
    requires FreshView(Observe(t, sid)) && CoreKept(t, t', sid)
    ensures FreshView(Observe(t', sid))
  {
    hide Observe, BlockOn;
  }

  lemma SameNowhere(c: Conn, c': Conn, sid: U32)
    requires Nowhere(c, sid) && c'.headerQ == c.headerQ && c'.bodyQ == c.bodyQ
    ensures Nowhere(c', sid)
  {
  }

  /** A stream still open has not been answered. */
  lemma OpenHanding(c: Conn, t: Trace, t': Trace, g: map<U32, Routing>, sid: U32)
    requires Inv(c, t) && AllOk(c, t, g) && sid in c.active && CoreKept(t, t', sid)
    requires WritingOf(t') == Clear && AllWellFormed(t')
    ensures Handing(c, t', sid) && Observe(t, sid).phase == NotStarted && Observe(t, sid).dispatches == 0
  {
    hide Observe, SafeTrace, Credits, OpenStreams, Numbers, StreamOk, BodyOf, WritingOf, AllWellFormed, BlockOn;
    hide AllOk, ReplyOf, AnswerOf, MayFail;
    assert sid in c.active.Keys && sid in c.windows.Keys;
    assert ActiveTie(c.active[sid], Observe(t, sid));
    OkAt(c, t, g, sid);
  }

  lemma ContinuationJudged(c: Conn, t: Trace, g: map<U32, Routing>, f: Frame, routing: Routing)
    requires Inv(c, t) && AllOk(c, t, g) && f.payload.Continuation? && c.contSid == Some(f.header.streamId)
    ensures Judged(c.config,
              OnContinuation(c, f.header.streamId, f.payload.headerBlock, f.payload.endHeaders, routing),
              After(t, Received(f)), g, routing)
  {
    hide Loose, SafeTrace, AllOk, Judged, FinishHeaders, Observe, CoreKept, Nowhere;
    hide BlockOn, WritingOf, AllWellFormed, ResetOn;
    var sid, t1, all := f.header.streamId, After(t, Received(f)), c.contBlock + f.payload.headerBlock;
    if |all| > c.config.maxHeaderBlock {
      JudgedStop(c, t, g, f, EnhanceYourCalm, c.lastSid, routing);
    } else {
      ReceivedOk(c, t, g, f);
      if f.payload.endHeaders {
        var c1 := c.(contSid := None, contBlock := []);
        ConnectionFrames.ReceivingFacts(c, t);
        ReceivedCore(t, f, sid);
        ReceivedClear(t, f);
        OpenHanding(c, t, t1, g, sid);
        AsideOk(c, c1, t1, g);
        SameNowhere(c, c1, sid);
        FinishJudged(c1, t1, g, sid, all, routing);
      } else {
        JudgedNext(c, c.(contBlock := all), t1, g, routing);
      }
    }
  }

  // ---- DATA

  lemma CreditCore(t: Trace, sid: U32, n: nat, x: U32)
    requires n <= MAX_ALLOWED_FRAME_SIZE && sid != 0 && x != 0 && Observe(t, sid).phase == NotStarted
    ensures var t' := Extend(t, Credit(sid, n)); CoreKept(t, t', x) && ResetOn(t', x) == ResetOn(t, x)
    ensures forall e :: e in Credit(sid, n) ==> !e.Dispatched?
  {
    if n > 0 {
      var a, b := Sent(WindowUpdateFrame(0, n)), Sent(WindowUpdateFrame(sid, n));
      assert Credit(sid, n) == [a] + [b];
      ExtendAppend(t, [a], [b]);
      ExtendOne(t, a);
      ExtendOne(After(t, a), b);
    }
  }

  lemma CreditOk(c: Conn, t: Trace, g: map<U32, Routing>, sid: U32, n: nat)
    requires AllOk(c, t, g) && n <= MAX_ALLOWED_FRAME_SIZE && sid != 0 && Observe(t, sid).phase == NotStarted
    ensures AllOk(c, Extend(t, Credit(sid, n)), g)
  {
    hide Observe, StreamOk, ResetOn, CoreKept, Extend;
    forall x: U32 | x != 0 ensures StreamOk(c, Extend(t, Credit(sid, n)), g, x) {
      assert StreamOk(c, t, g, x);
      CreditCore(t, sid, n, x);
      CoreOk(c, t, Extend(t, Credit(sid, n)), g, x);
    }
  }

  lemma DataShape(c: Conn, sid: U32, data: seq<Byte>, endStream: bool, routing: Routing)
    requires |data| <= MAX_ALLOWED_FRAME_SIZE
    ensures var s := OnData(c, sid, data, endStream, routing);
            if sid !in c.active || Replenish(c.recvWindow, c.active[sid].window, |data|).Err? then s.Stop?
              && s.out == []
            else if |data| > SaturatingSub(c.config.maxRequestSize, |c.active[sid].requestBody|) then
              s == Stop(EnhanceYourCalm, c.lastSid, Credit(sid, |data|))
            else
              var st, r := c.active[sid], Replenish(c.recvWindow, c.active[sid].window, |data|).value;
              var st' := st.(window := r.1, requestBody := st.requestBody + data);
              var c' := c.(recvWindow := r.0);
              if endStream then
                s == Then(Credit(sid, |data|),
                    Dispatch(c'.(active := c.active - {sid}), sid, HalfClose(st'.(endStream := true)), routing))
              else s == Next(c'.(active := c.active[sid := st']), Credit(sid, |data|))
  {
    hide Replenish, Dispatch, HalfClose, Then, Credit;
  }

  lemma DataJudged(c: Conn, t: Trace, g: map<U32, Routing>, f: Frame, routing: Routing)
    requires Inv(c, t) && AllOk(c, t, g) && f.payload.Data? && FromWire(f) && c.contSid.None?
    ensures Judged(c.config, OnData(c, f.header.streamId, f.payload.data, f.payload.endStream, routing),
              After(t, Received(f)), g, routing)
  {
    hide Loose, SafeTrace, AllOk, Judged, Observe, Dispatch, HalfClose, Replenish, OnData, Credit, Then;
    hide BlockOn, WritingOf, AllWellFormed, ResetOn, Handing, Extend, Nowhere;
    var sid, data, t1 := f.header.streamId, f.payload.data, After(t, Received(f));
    DataShape(c, sid, data, f.payload.endStream, routing);
    var s := OnData(c, sid, data, f.payload.endStream, routing);
    if s.Stop? && s.out == [] {
      JudgedStop(c, t, g, f, s.code, s.lastSid, routing);
    } else if sid in c.active {
      var credit, t2 := Credit(sid, |data|), Extend(t1, Credit(sid, |data|));
      ReceivedCore(t, f, sid);
      ReceivedClear(t, f);
      OpenHanding(c, t, t1, g, sid);
      ReceivedOk(c, t, g, f);
      CreditCore(t1, sid, |data|, sid);
      CreditOk(c, t1, g, sid, |data|);
      CreditClear(c, t, f);
      OpenHanding(c, t, t2, g, sid);
      RestJudged(c, t1, g, sid, s, data, f.payload.endStream, routing);
    }
  }

  /** The credit given back leaves no header block open. */
  lemma CreditClear(c: Conn, t: Trace, f: Frame)
    requires Inv(c, t) && f.payload.Data? && FromWire(f) && c.contSid.None? && f.header.streamId in c.active
    ensures var t2 := Extend(After(t, Received(f)), Credit(f.header.streamId, |f.payload.data|));
            WritingOf(t2) == Clear && AllWellFormed(t2)
  {
    hide Loose, SafeTrace, Observe, WritingOf, AllWellFormed, Extend, Credit;
    ConnectionFrames.OpenFacts(c, t, f.header.streamId);
    ConnectionFrames.DataIsCredited(t, f);
    SafeWriting(Extend(After(t, Received(f)), Credit(f.header.streamId, |f.payload.data|)));
  }

  /** After the credit: the request goes on, is complete, or is too large. */
  lemma RestJudged(c: Conn, t: Trace, g: map<U32, Routing>, sid: U32, s: Step, data: seq<Byte>, endStream: bool,
      routing: Routing)
    requires |data| <= MAX_ALLOWED_FRAME_SIZE && sid in c.active && s == OnData(c, sid, data, endStream, routing)
    requires !(s.Stop? && s.out == [])
    requires AllOk(c, Extend(t, Credit(sid, |data|)), g) && Handing(c, Extend(t, Credit(sid, |data|)), sid)
    requires forall e :: e in Credit(sid, |data|) ==> !e.Dispatched?
    ensures Judged(c.config, s, t, g, routing)
  {
    hide AllOk, Judged, Observe, Dispatch, HalfClose, Replenish, OnData, Credit, Extend, Handing;
    var credit, t2 := Credit(sid, |data|), Extend(t, Credit(sid, |data|));
    DataShape(c, sid, data, endStream, routing);
    if |data| > SaturatingSub(c.config.maxRequestSize, |c.active[sid].requestBody|) {
      StillTrue(c, t2, g, s.code, routing);
      ThenJudged(c.config, credit, Stop(s.code, c.lastSid, []), t, g, routing);
      assert credit + [] == credit;
    } else {
      var st, r := c.active[sid], Replenish(c.recvWindow, c.active[sid].window, |data|).value;
      var st' := st.(window := r.1, requestBody := st.requestBody + data);
      if endStream {
        var c1 := c.(recvWindow := r.0, active := c.active - {sid});
        AsideOk(c, c1, t2, g);
        AsideHanding(c, c1, t2, sid);
        DispatchJudged(c1, t2, g, sid, HalfClose(st'.(endStream := true)), routing);
        ThenJudged(c.config, credit, Dispatch(c1, sid, HalfClose(st'.(endStream := true)), routing), t, g, routing);
      } else {
        JudgedNext(c, s.conn, t2, g, routing);
        ThenJudged(c.config, credit, Next(s.conn, []), t, g, routing);
        assert credit + [] == credit;
      }
    }
  }

  lemma AsideHanding(c: Conn, c': Conn, t: Trace, sid: U32)
    requires Handing(c, t, sid) && c'.headerQ == c.headerQ && c'.bodyQ == c.bodyQ
    ensures Handing(c', t, sid)
  {
    hide Observe, BlockOn, WritingOf, AllWellFormed;
  }

  // ---- RST_STREAM

  lemma ResetJudged(c: Conn, t: Trace, g: map<U32, Routing>, f: Frame, routing: Routing)
    requires AllOk(c, t, g) && f.payload.RstStream? && f.header.streamId != 0
    ensures Judged(c.config, OnReset(c, f.header.streamId), After(t, Received(f)), g, routing)
  {
    hide AllOk, StreamOk, MarkClosed, Observe, BlockOn, WithoutHeader, WithoutBody, True, TracesApart, QueuesApart;
    var sid, t1 := f.header.streamId, After(t, Received(f));
    var c' := OnReset(c, sid).conn;
    OkAt(c, t, g, sid);
    ReceivedCore(t, f, sid);
    CoreTrue(c.config, g, t, t1, sid);
    ResetOk(c, c', t1, g, sid);
    ApartOne(t, Received(f), sid);
    SameGiven(g, sid);
    OneStream(c, t, g, c', t1, g, sid);
  }

  lemma ResetOk(c: Conn, c': Conn, t: Trace, g: map<U32, Routing>, sid: U32)
    requires ResetOn(t, sid) && True(c.config, g, t, sid) && c'.config == c.config
    requires c'.headerQ == WithoutHeader(c.headerQ, sid) && c'.bodyQ == WithoutBody(c.bodyQ, sid)
    ensures StreamOk(c', t, g, sid) && QueuesApart(c, c', sid)
  {
    hide Observe, True;
    ConnectionFrames.WithoutHeaderIs(c.headerQ, sid);
    ConnectionFrames.WithoutBodyIs(c.bodyQ, sid);
  }

  // ---- the others

  lemma {:induction false} SettingsQueues(c: Conn, settings: seq<Setting>)
    ensures var r := ApplySettings(c, settings);
            r.Ok? ==> r.value.config == c.config && r.value.headerQ == c.headerQ && r.value.bodyQ == c.bodyQ
    decreases |settings|
  {
    hide AdjustStreams, AdjustWindows;
    if settings != [] {
      var next := ApplySetting(c, settings[0]);
      if next.Ok? {
        SettingsQueues(next.value, settings[1..]);
      }
    }
  }

  /** Other frames leave the queues as they are and cause at most one frame about the connection. */
  lemma OtherQueues(c: Conn, f: Frame, routing: Routing)
    requires FromWire(f) && !f.payload.Headers? && !f.payload.Continuation? && !f.payload.Data? && !f.payload.RstStream?
    ensures var s := ProcessFrame(c, f, routing);
            match s
            case Stop(_, _, out) => out == []
            case Next(c', out) =>
              && c'.config == c.config && c'.headerQ == c.headerQ && c'.bodyQ == c.bodyQ
              && (out == [] || (|out| == 1 && out[0].Sent? && Subject(out[0]) == 0))
  {
    hide ApplySettings, Flow.Updated;
    if f.payload.Settings? {
      SettingsQueues(c, f.payload.settings);
    }
  }

  lemma OtherJudged(c: Conn, t: Trace, g: map<U32, Routing>, f: Frame, routing: Routing)
    requires AllOk(c, t, g)
    requires FromWire(f) && !f.payload.Headers? && !f.payload.Continuation? && !f.payload.Data? && !f.payload.RstStream?
    ensures Judged(c.config, ProcessFrame(c, f, routing), After(t, Received(f)), g, routing)
  {
    hide AllOk, ProcessFrame, Judged, Extend;
    var s, t1 := ProcessFrame(c, f, routing), After(t, Received(f));
    OtherQueues(c, f, routing);
    if s.Stop? {
      JudgedStop(c, t, g, f, s.code, s.lastSid, routing);
    } else {
      ReceivedOk(c, t, g, f);
      if s.out == [] {
        JudgedNext(c, s.conn, t1, g, routing);
      } else {
        AboutConnection(c, s.conn, t1, g, s.out[0], routing);
        assert s.out == [s.out[0]];
      }
    }
  }

  lemma AboutConnection(c: Conn, c': Conn, t: Trace, g: map<U32, Routing>, e: Event, routing: Routing)
    requires AllOk(c, t, g) && e.Sent? && Subject(e) == 0
    requires c'.config == c.config && c'.headerQ == c.headerQ && c'.bodyQ == c.bodyQ
    ensures Judged(c.config, Next(c', [e]), t, g, routing)
  {
    hide AllOk, Extend, TracesApart, StreamOk;
    ExtendOne(t, e);
    ApartOne(t, e, 0);
    SameGiven(g, 0);
    OneStream(c, t, g, c', After(t, e), g, 0);
    AssignNone(g, [e], routing);
  }

  lemma FrameJudged(c: Conn, t: Trace, g: map<U32, Routing>, f: Frame, routing: Routing)
    requires Inv(c, t) && AllOk(c, t, g) && FromWire(f)
    ensures Judged(c.config, ProcessFrame(c, f, routing), After(t, Received(f)), g, routing)
  {
    hide Inv, AllOk, OnHeaders, OnContinuation, OnData, OnWindowUpdate, OnReset, ApplySettings, Judged;
    if f.payload.Headers? || f.payload.Continuation? || f.payload.Data? || f.payload.RstStream? {
      if c.contSid.None? && f.payload.Headers? {
        HeadersJudged(c, t, g, f, routing);
      } else if c.contSid == Some(f.header.streamId) && f.payload.Continuation? {
        ContinuationJudged(c, t, g, f, routing);
      } else if c.contSid.None? && f.payload.Data? {
        DataJudged(c, t, g, f, routing);
      } else if c.contSid.None? && f.payload.RstStream? {
        ResetJudged(c, t, g, f, routing);
      } else {
        JudgedStop(c, t, g, f, ProtocolError, c.lastSid, routing);
      }
    } else {
      OtherJudged(c, t, g, f, routing);
    }
  }

  // ---------------------------------------------------------------- whole runs

  ghost predicate Faithful(config: Config, s: Status, g: map<U32, Routing>) {
    match s
    case Running(c, t) => c.config == config && AllOk(c, t, g)
    case Stopped(t) => AllTrue(config, g, t)
  }

  lemma GoodbyeTrue(config: Config, g: map<U32, Routing>, t: Trace, last: U32, code: ErrorCode)
    requires AllTrue(config, g, t)
    ensures AllTrue(config, g, After(t, Sent(GoAwayFrame(last, code))))
  {
    hide True;
    var t' := After(t, Sent(GoAwayFrame(last, code)));
    forall x: U32 | x != 0 ensures True(config, g, t', x) {
      CoreTrue(config, g, t, t', x);
    }
  }

  lemma SettleFaithful(config: Config, s: Step, t: Trace, g: map<U32, Routing>, routing: Routing)
    requires Judged(config, s, t, g, routing)
    ensures Faithful(config, Settle(s, t), Assign(g, s.out, routing))
  {
    hide AllOk, AllTrue, Extend, Assign;
    if s.Stop? {
      GoodbyeTrue(config, Assign(g, s.out, routing), Extend(t, s.out), s.lastSid, s.code);
    }
  }

  lemma ReactFaithful(c: Conn, t: Trace, g: map<U32, Routing>, i: Input)
    requires Inv(c, t) && AllOk(c, t, g) && Possible(i)
    ensures Faithful(c.config, React(c, t, i), Decide(g, c, i))
  {
    hide Inv, AllOk, AllTrue, ProcessFrame, Poll, Schedule, Settle, Judged, Assign, Extend;
    match i
    case Incoming(f, routing) =>
      FrameJudged(c, t, g, f, routing);
      SettleFaithful(c.config, ProcessFrame(c, f, routing), After(t, Received(f)), g, routing);
    case Unreadable(code) =>
      UnreadableFaithful(c, t, g, code);
    case PollUpstreams => PollOk(c, t, g);
    case SendRound =>
      ScheduleOk(c, t, g);
      ConnectionLedger.ScheduleBooked(c);
  }

  lemma UnreadableFaithful(c: Conn, t: Trace, g: map<U32, Routing>, code: ErrorCode)
    requires AllOk(c, t, g)
    ensures Faithful(c.config, Settle(Stop(code, c.lastSid, []), t), g)
  {
    hide AllOk, AllTrue;
    OkTrue(c, t, g);
    ExtendNone(t);
    GoodbyeTrue(c.config, g, t, c.lastSid, code);
  }

  lemma PollOk(c: Conn, t: Trace, g: map<U32, Routing>)
    requires Inv(c, t) && AllOk(c, t, g)
    ensures var turn := Poll(c); AllOk(turn.conn, Extend(t, turn.out), g) && turn.conn.config == c.config
  {
    hide Inv, AllOk, PollMany, Extend;
    PollManyOk(c, t, g, |c.headerQ|);
    ConnectionLedger.PollBooked(c);
  }

  lemma StartFaithful(config: Config)
    ensures Faithful(config, Running(Initial(config), Opening(config)), map[])
  {
    forall x: U32 | x != 0 ensures StreamOk(Initial(config), Opening(config), map[], x) {
      assert Observe(Opening(config), x) == BLANK && BlockOn(Opening(config), x) == [];
    }
  }

  lemma FaithfulRunning(config: Config, c: Conn, t: Trace, g: map<U32, Routing>)
    requires Faithful(config, Running(c, t), g)
    ensures AllOk(c, t, g) && c.config == config
  {
  }

  /** Every run agrees with what was given for its streams. */
  lemma {:induction false} RunFaithful(config: Config, inputs: seq<Input>)
    requires forall i :: i in inputs ==> Possible(i)
    ensures Faithful(config, Execute(config, inputs), GivenTo(config, inputs))
    decreases |inputs|
  {
    hide React, Faithful, Possible, Initial, Opening, Sound, Decide, AllOk, Inv;
    if inputs == [] {
      StartFaithful(config);
    } else {
      var before, last := inputs[..|inputs| - 1], inputs[|inputs| - 1];
      assert Possible(last);
      RunFaithful(config, before);
      RunSound(config, before);
      var s := Execute(config, before);
      if s.Running? {
        RunningSound(s.conn, s.history);
        FaithfulRunning(config, s.conn, s.history, GivenTo(config, before));
        ReactFaithful(s.conn, s.history, GivenTo(config, before), last);
      }
    }
  }

  lemma RunningSound(c: Conn, t: Trace)
    requires Sound(Running(c, t))
    ensures Inv(c, t)
  {
  }

  lemma RunTrue(config: Config, inputs: seq<Input>, sid: U32)
    requires sid != 0 && forall i :: i in inputs ==> Possible(i)
    ensures True(config, GivenTo(config, inputs), Execute(config, inputs).history, sid)
    ensures SafeView(Observe(Execute(config, inputs).history, sid))
  {
    hide Execute, GivenTo, True, Observe, SafeView, AllOk;
    RunFaithful(config, inputs);
    ConnectionTheorems.RunSafe(config, inputs);
    var s := Execute(config, inputs);
    if s.Running? {
      OkTrue(s.conn, s.history, GivenTo(config, inputs));
    }
  }

  lemma {:induction false} NoAnswerNoBody(t: Trace, sid: U32)
    ensures Observe(t, sid).responses == 0 ==> Observe(t, sid).body.None?
  {
    if t.After? {
      NoAnswerNoBody(t.prev, sid);
    }
  }

  /**
   A stream's response as it was given: the header block is the encoder's for its status and headers, END_STREAM is on
   it exactly if there is no body, the bytes sent are the beginning of the body, and the stream is finished with all of
   them: as many as the length says where it is known, every byte up to the end of the input where it is not.
   */
  ghost predicate AsGiven(config: Config, r: Reply, v: View, block: seq<Byte>) {
    && block == config.encode(Fields(r))
    && (v.endInHead <==> Bodyless(r))
    && (Bodyless(r) ==> v.phase == Finished && v.sent == [])
    && (!Bodyless(r) ==>
          && v.sent <= Content(r)
          && (Length(r).Some? ==>
                |v.sent| <= Length(r).value && (v.phase == Finished ==> |v.sent| == Length(r).value))
          && (Length(r).None? && v.phase == Finished ==> v.sent == Content(r))
          && (!Waited(r) && Length(r) == Some(|v.sent|) ==> v.phase == Finished))
  }

  lemma TrueAsGiven(config: Config, r: Reply, v: View, block: seq<Byte>)
    requires SafeView(v) && v.responses > 0 && block == config.encode(Fields(r)) && BodyOf(r, v.body)
    ensures AsGiven(config, r, v, block)
  {
    hide MayFail, Unreliable, Left, Content, Bodyless, Fields;
    assert v.body.Some? ==> Declared(v.body.value).Some? || v.body.value.ReaderBody?;
  }

  /** In every run, what was sent on a stream is what routing or its upstream gave for it. */
  lemma ResponsesAsGiven(config: Config, inputs: seq<Input>, sid: U32)
    requires sid != 0 && forall i :: i in inputs ==> Possible(i)
    ensures var t, g := Execute(config, inputs).history, GivenTo(config, inputs); var v := Observe(t, sid);
            && (v.dispatches > 0 <==> sid in g)
            && (v.responses == 0 ==> BlockOn(t, sid) == [] && v.sent == [])
            && (v.responses > 0 ==>
                  sid in g && ReplyOf(g[sid]).Some? && AsGiven(config, ReplyOf(g[sid]).value, v, BlockOn(t, sid)))
  {
    hide Execute, GivenTo, Observe, AsGiven, BodyOf, BlockOn, ReplyOf, AnswerOf, MayFail, Fields, Left, Declared;
    RunTrue(config, inputs, sid);
    var t, g := Execute(config, inputs).history, GivenTo(config, inputs);
    var v := Observe(t, sid);
    NoAnswerNoBody(t, sid);
    if v.responses > 0 {
      TrueAsGiven(config, ReplyOf(g[sid]).value, v, BlockOn(t, sid));
    }
  }

  // ---------------------------------------------------------------- streams that are cut short

  /** The server has reset the stream. */
  predicate SentReset(t: Trace, sid: U32) {
    match t
    case Start => false
    case After(prev, Sent(f)) => (f.header.streamId == sid && f.payload.RstStream?) || SentReset(prev, sid)
    case After(prev, _) => SentReset(prev, sid)
  }

  lemma PhaseStep(v: View, e: Event)
    requires Look(v, e).phase != Bad
    ensures v.phase != Bad
    ensures Look(v, e).phase == Aborted <==> v.phase == Aborted || (e.Sent? && e.frame.payload.RstStream?)
  {
  }

  lemma {:induction false} ResetAborts(t: Trace, sid: U32)
    requires Observe(t, sid).phase != Bad
    ensures SentReset(t, sid) <==> Observe(t, sid).phase == Aborted
  {
    hide Look;
    if t.After? {
      if Subject(t.event) == sid {
        PhaseStep(Observe(t.prev, sid), t.event);
      }
      ResetAborts(t.prev, sid);
    }
  }

  /**
   In every run, the server resets only a stream it refused, one whose upstream failed, or one whose body could not be
   delivered: a file with less at hand than its size, or an upstream that fails or ends too early.
   */
  lemma ResetsExplained(config: Config, inputs: seq<Input>, sid: U32)
    requires sid != 0 && forall i :: i in inputs ==> Possible(i)
    ensures var t, g := Execute(config, inputs).history, GivenTo(config, inputs); var v := Observe(t, sid);
            SentReset(t, sid) ==>
              if v.responses > 0 then sid in g && ReplyOf(g[sid]).Some? && Unreliable(ReplyOf(g[sid]).value)
              else if v.dispatches > 0 then
                sid in g && g[sid].Upstream? && AnswerOf(g[sid].script) == Some(UpstreamFailed)
              else sid !in g
  {
    hide Execute, GivenTo, Observe, BlockOn, ReplyOf, AnswerOf, MayFail, Fields, Left, Declared, SentReset, Unreliable;
    RunTrue(config, inputs, sid);
    ResetAborts(Execute(config, inputs).history, sid);
  }

  /** One turn of a response: RST_STREAM exactly if there is room and reading its body fails, DATA or nothing else. */
  lemma TurnExactly(c: Conn, quota: nat)
    requires c.bodyQ != [] && quota > 0
    ensures var p, out := c.bodyQ[0], ServeFront(c, quota).out;
            var room := p.sid in c.windows && c.windows[p.sid] > 0 && c.connWindow > 0;
            && (!room ==> out == [])
            && (room && ReadFails(p.body) ==> out == [Sent(RstFrame(p.sid, InternalError))])
            && (room && !ReadFails(p.body) ==>
                  out == [] || (|out| == 1 && out[0].Sent? && out[0].frame.header.streamId == p.sid
                                && out[0].frame.payload.Data?))
  {
    hide MarkClosed, ReadFails, ReadChunk;
    var p := c.bodyQ[0];
    if p.sid in c.windows && c.windows[p.sid] > 0 && c.connWindow > 0 {
      var max := Amount(c.(bodyQ := c.bodyQ[1..]), quota, c.windows[p.sid]);
      ReadExactly(p.body, max);
      ReadFailure(p.body, max);
    }
  }

  lemma ReadFailure(b: Body, max: nat)
    ensures ReadChunk(b, max).Err? ==> ReadChunk(b, max).code == InternalError
  {
    hide ReadSource;
  }

  /** Only frames of one stream's header block. */
  ghost predicate BlockFrames(out: seq<Event>, sid: U32) {
    forall e :: e in out ==>
      e.Sent? && e.frame.header.streamId == sid && (e.frame.payload.Headers? || e.frame.payload.Continuation?)
  }

  lemma {:induction false} ContinuationKinds(sid: U32, rest: seq<Byte>, max: FrameSize)
    ensures BlockFrames(Sends(Continuations(sid, rest, max)), sid)
    decreases |rest|
  {
    if rest != [] {
      var n := Min(max, |rest|);
      ContinuationKinds(sid, rest[n..], max);
      var frames, later := Continuations(sid, rest, max), Continuations(sid, rest[n..], max);
      assert Sends(frames)[0] == Sent(ContinuationFrame(sid, rest[..n], n == |rest|));
      assert Sends(frames) == [Sends(frames)[0]] + Sends(later);
    }
  }

  lemma HeaderKinds(sid: U32, block: seq<Byte>, endStream: bool, max: FrameSize)
    ensures BlockFrames(Sends(HeaderFrames(sid, block, endStream, max)), sid)
  {
    var n := Min(|block|, max);
    var frames, later := HeaderFrames(sid, block, endStream, max), Continuations(sid, block[n..], max);
    ContinuationKinds(sid, block[n..], max);
    assert Sends(frames)[0] == Sent(HeadersFrame(sid, block[..n], endStream, n == |block|));
    assert Sends(frames) == [Sends(frames)[0]] + Sends(later);
  }

  /** The events that answer a stream: its body is that of the reply, and the frames carry the reply's header block. */
  ghost predicate Answers(config: Config, out: seq<Event>, sid: U32, r: Reply) {
    && out != [] && out[0].Responded? && out[0].sid == sid && BodyOf(r, out[0].answer)
    && BlockFrames(out[1..], sid) && BlockOn(Extend(Start, out), sid) == config.encode(Fields(r))
  }

  lemma QueueAnswers(c: Conn, sid: U32, r: Response, reader: Option<Reader>)
    ensures Answers(c.config, QueueResponse(c, sid, r, reader).out, sid, Reply(r, reader))
  {
    hide ResponseBody, HeaderFrames, Sends, MarkClosed, BodyOf, BlockFrames;
    var body, block := ResponseBody(r, reader), HeaderBlock(c, r);
    var e, frames := Responded(sid, body), Sends(HeaderFrames(sid, block, body.None?, c.peerMaxFrame));
    var out := QueueResponse(c, sid, r, reader).out;
    assert out == [e] + frames && out[1..] == frames;
    HeaderKinds(sid, block, body.None?, c.peerMaxFrame);
    HeadersOn(After(Start, e), sid, block, body.None?, c.peerMaxFrame);
    ResponseBodyTrue(r, reader);
    assert [] + block == block;
  }

  /** A request is handed over, and answered at once with what routing gave, or left to its upstream. */
  lemma DispatchExactly(c: Conn, sid: U32, st: Stream, routing: Routing)
    ensures var s := Dispatch(c, sid, st, routing);
            match routing
            case Reject(code) => s == Stop(code, c.lastSid, [])
            case Immediate(r) =>
              && s.Next? && s.out != [] && s.out[0] == Dispatched(sid, st.requestHeaders, st.requestBody)
              && Answers(c.config, s.out[1..], sid, Reply(r, None))
            case Upstream(script) =>
              && s.Next? && s.out == [Dispatched(sid, st.requestHeaders, st.requestBody)]
              && s.conn.headerQ == c.headerQ + [PendingHeader(sid, script)]
  {
    hide QueueResponse, Answers;
    if routing.Immediate? {
      QueueAnswers(c, sid, routing.response, None);
      var q := QueueResponse(c, sid, routing.response, None);
      assert ([Dispatched(sid, st.requestHeaders, st.requestBody)] + q.out)[1..] == q.out;
    }
  }

  /** One poll: RST_STREAM exactly if the upstream failed, its answer exactly if that is ready, nothing otherwise. */
  lemma PollExactly(c: Conn)
    requires c.headerQ != []
    ensures var p, out := c.headerQ[0], PollFront(c).out;
            if p.script == [] || p.script[0].HeadersPending? then out == []
            else if p.script[0].UpstreamFailed? then out == [Sent(RstFrame(p.sid, InternalError))]
            else Answers(c.config, out, p.sid, Reply(p.script[0].response, p.script[0].reader))
  {
    hide QueueResponse, Answers, MarkClosed;
    var p, c1 := c.headerQ[0], c.(headerQ := c.headerQ[1..]);
    if p.script != [] && p.script[0].HeadersReady? {
      QueueAnswers(c1, p.sid, p.script[0].response, p.script[0].reader);
    }
  }

  // ---------------------------------------------------------------- delivery

  lemma {:induction false} SettledOk(c: Conn, t: Trace, g: map<U32, Routing>)
    requires Inv(c, t) && AllOk(c, t, g)
    ensures var r := ConnectionRounds.Settled(c, t); AllOk(r.conn, r.history, g)
    decreases ConnectionRounds.Work(c)
  {
    hide Inv, AllOk, Poll, Schedule, Extend, ConnectionRounds.Work, ConnectionRounds.Resting;
    ConnectionRounds.InvWork(c, t);
    ConnectionRounds.LoopPass(c, t);
    var p := Poll(c);
    var t1 := Extend(t, p.out);
    PollOk(c, t, g);
    if p.progressed {
      SettledOk(p.conn, t1, g);
    } else {
      var s := Schedule(p.conn);
      ScheduleOk(p.conn, t1, g);
      if s.progressed {
        SettledOk(s.conn, Extend(t1, s.out), g);
      }
    }
  }

  lemma WindowsSay(c: Conn, t: Trace, sid: U32)
    requires Inv(c, t) && sid in BodyIds(c.bodyQ)
    ensures sid in c.windows && c.windows[sid] == InitialSetting(t) + Observe(t, sid).credit - |Observe(t, sid).sent|
    ensures c.connWindow == PEER_DEFAULT_WINDOW + ConnectionCredit(t) - TotalSent(t)
  {
    hide Observe, Ties, OpenStreams, Numbers, SafeTrace, InitialSetting, ConnectionCredit, TotalSent;
    assert sid in c.windows.Keys;
  }

  /** A response under way that is at hand has bytes left, and the stream's window is what the history says. */
  lemma StreamingMore(c: Conn, t: Trace, g: map<U32, Routing>, sid: U32, r: Reply)
    requires Inv(c, t) && StreamOk(c, t, g, sid) && SafeView(Observe(t, sid)) && !ResetOn(t, sid)
    requires Observe(t, sid).phase == Streaming && BodyOf(r, Observe(t, sid).body) && !Waited(r)
    ensures Length(r).Some? && |Observe(t, sid).sent| < Length(r).value
    ensures exists p :: p in c.bodyQ && p.sid == sid && ConnectionRounds.AtHand(p.body)
    ensures sid in c.windows && c.windows[sid] == InitialSetting(t) + Observe(t, sid).credit - |Observe(t, sid).sent|
    ensures c.connWindow == PEER_DEFAULT_WINDOW + ConnectionCredit(t) - TotalSent(t)
  {
    hide Inv, Observe, True, ResetOn, MayFail, Unreliable, Content, Left, InitialSetting, ConnectionCredit, TotalSent;
    var v := Observe(t, sid);
    WindowsSay(c, t, sid);
    var p :| p in c.bodyQ && p.sid == sid;
    assert Kept(v.body.value, v.sent, p.body);
  }

  /** The windows have allowed `n` bytes on the stream, and the connection's is not used up. */
  ghost predicate Allowed(t: Trace, sid: U32, n: nat) {
    InitialSetting(t) + Observe(t, sid).credit >= n && PEER_DEFAULT_WINDOW + ConnectionCredit(t) > TotalSent(t)
  }

  /** A reply whose body is at hand and cannot fail is sent once the windows allow it, unless the client resets it. */
  ghost predicate DeliveredAtRest(t: Trace, g: map<U32, Routing>, sid: U32) {
    Observe(t, sid).responses > 0 && !ResetOn(t, sid) && sid in g && ReplyOf(g[sid]).Some? ==>
      var r := ReplyOf(g[sid]).value;
      !Waited(r) && !Unreliable(r) && Length(r).Some? && Allowed(t, sid, Length(r).value) ==>
        Observe(t, sid).phase == Finished
  }

  lemma RestDelivered(c: Conn, t: Trace, g: map<U32, Routing>, sid: U32)
    requires Inv(c, t) && AllOk(c, t, g) && ConnectionRounds.Resting(c) && sid != 0
    ensures DeliveredAtRest(t, g, sid)
  {
    hide Loose, SafeTrace, Observe, BlockOn, ResetOn, ReplyOf, InitialSetting, ConnectionCredit, TotalSent, AllOk;
    hide StreamOk, Content, Left, Fields, MayFail, Unreliable, AnswerOf, Waited, Length, Declared, AllRead;
    var v := Observe(t, sid);
    OkAt(c, t, g, sid);
    StreamSafe(t, sid);
    if v.phase == Streaming && v.responses > 0 && !ResetOn(t, sid) {
      var r := ReplyOf(g[sid]).value;
      if !Waited(r) {
        StreamingMore(c, t, g, sid, r);
      }
    }
  }

  /**
   When the main loop comes to rest after any run, every stream answered with a byte vector, or with a file that is
   read without halting, is finished once the windows have allowed its length.
   */
  lemma LoopDelivers(config: Config, inputs: seq<Input>, sid: U32)
    requires sid != 0 && forall i :: i in inputs ==> Possible(i)
    ensures var s := Execute(config, inputs);
            s.Running? ==>
              && Inv(s.conn, s.history)
              && var r := ConnectionRounds.Settled(s.conn, s.history);
                 DeliveredAtRest(r.history, GivenTo(config, inputs), sid)
  {
    hide Execute, GivenTo, DeliveredAtRest, Inv, AllOk;
    RunFaithful(config, inputs);
    RunSound(config, inputs);
    var s := Execute(config, inputs);
    if s.Running? {
      SettledOk(s.conn, s.history, GivenTo(config, inputs));
      var r := ConnectionRounds.Settled(s.conn, s.history);
      RestDelivered(r.conn, r.history, GivenTo(config, inputs), sid);
    }
  }

  lemma StreamSafe(t: Trace, sid: U32)
    requires SafeTrace(t) && sid != 0
    ensures SafeView(Observe(t, sid))
  {
  }
}
