/**
 What every run of a connection satisfies, whatever the peer sends, however upstreams and files behave, and in
 whatever order frames, polls and scheduling rounds come.
 */
module ConnectionTheorems {
  import opened Base
  import opened Frame
  import opened Connection
  import opened Sources
  import opened ConnectionTrace
  import opened ConnectionInv
  import opened ConnectionRuns
  import ConnectionHeaders
  import ConnectionReceiving
  import ConnectionRounds
  import Flow

  // ---------------------------------------------------------------- flow control

  /** Every window is what the history says it must be, and stays within its range. */
  lemma FlowLedger(config: Config, inputs: seq<Input>)
    requires forall i :: i in inputs ==> Possible(i)
    ensures var s := Execute(config, inputs);
            s.Running? ==>
              && (forall sid :: sid in s.conn.windows ==>
                    var v := Observe(s.history, sid);
                    && s.conn.windows[sid] == InitialSetting(s.history) + v.credit - |v.sent|
                    && -0x7FFF_FFFF <= s.conn.windows[sid] <= 0x7FFF_FFFF)
              && (forall sid :: sid in s.conn.active ==>
                    sid in s.conn.windows && s.conn.active[sid].sendWindow == s.conn.windows[sid])
              && s.conn.connWindow == 65_535 + ConnectionCredit(s.history) - TotalSent(s.history)
              && 0 <= s.conn.connWindow <= 0x7FFF_FFFF
  {
    hide Execute;
    RunSound(config, inputs);
    var s := Execute(config, inputs);
    if s.Running? {
      InvLedger(s.conn, s.history);
    }
  }

  lemma InvLedger(c: Conn, t: Trace)
    requires Inv(c, t)
    ensures forall sid :: sid in c.windows ==>
              var v := Observe(t, sid);
              c.windows[sid] == InitialSetting(t) + v.credit - |v.sent| && -0x7FFF_FFFF <= c.windows[sid] <= 0x7FFF_FFFF
    ensures forall sid :: sid in c.active ==> sid in c.windows && c.active[sid].sendWindow == c.windows[sid]
    ensures c.connWindow == 65_535 + ConnectionCredit(t) - TotalSent(t) && 0 <= c.connWindow <= 0x7FFF_FFFF
  {
    hide Observe, SafeTrace, Ties, OpenStreams, ConnectionCredit, TotalSent, InitialSetting, Distinct, DistinctHeaders;
    hide DistinctBodies;
    forall sid | sid in c.windows
      ensures var v := Observe(t, sid);
              c.windows[sid] == InitialSetting(t) + v.credit - |v.sent| && -0x7FFF_FFFF <= c.windows[sid] <= 0x7FFF_FFFF
    {
      assert Balanced(c.windows[sid], c.peerInitial, Observe(t, sid));
    }
    assert forall sid :: sid in c.active ==> sid in c.windows.Keys;
  }

  /**
   A SETTINGS frame is refused exactly for a value out of range or for pushing a window above 2^31-1; the lower
   bound on windows never refuses one. Accepted, it acts like its last INITIAL_WINDOW_SIZE.
   */
  lemma SettingsExact(config: Config, inputs: seq<Input>, settings: seq<Setting>)
    requires forall i :: i in inputs ==> Possible(i)
    ensures var s := Execute(config, inputs);
            s.Running? ==>
              var r := ApplySettings(s.conn, settings);
              && (r.Ok? <==> forall i :: 0 <= i < |settings| ==> ConnectionReceiving.Acceptable(s.conn, settings[i]))
              && (r.Ok? ==> r.value.peerInitial == LastInitial(settings, s.conn.peerInitial))
              && (r.Ok? ==> ConnectionReceiving.Shifted(s.conn, r.value))
  {
    hide Execute, ConnectionReceiving.Acceptable, ConnectionReceiving.Shifted, ApplySettings;
    RunSound(config, inputs);
    var s := Execute(config, inputs);
    if s.Running? {
      ConnectionReceiving.InvFloor(s.conn, s.history);
      ConnectionReceiving.SettingsAccepted(s.conn, settings);
      ConnectionReceiving.SettingsTelescope(s.conn, settings);
    }
  }

  /**
   The receiving side: between inputs the peer is owed nothing. Every byte of request data has been given back as
   credit, on the connection and on its stream, every PING has had its one reply with its own data, in order, and
   every SETTINGS its acknowledgement.
   */
  lemma NothingOwed(config: Config, inputs: seq<Input>)
    requires forall i :: i in inputs ==> Possible(i)
    ensures var s := Execute(config, inputs);
            s.Running? ==>
              && Owed(s.history) == Dues(0, [], 0)
              && s.conn.recvWindow == Flow.AsI32(s.conn.config.initialWindow)
              && forall sid :: sid in s.conn.active ==>
                   var v := Observe(s.history, sid);
                   && v.granted == |v.request| && v.request == s.conn.active[sid].requestBody
                   && s.conn.active[sid].window == Flow.AsI32(s.conn.config.initialWindow)
  {
    hide Execute;
    RunSound(config, inputs);
    var s := Execute(config, inputs);
    if s.Running? {
      InvDues(s.conn, s.history);
    }
  }

  lemma InvDues(c: Conn, t: Trace)
    requires Inv(c, t)
    ensures Owed(t) == Dues(0, [], 0) && c.recvWindow == Flow.AsI32(c.config.initialWindow)
    ensures forall sid :: sid in c.active ==>
              var v := Observe(t, sid);
              && v.granted == |v.request| && v.request == c.active[sid].requestBody
              && c.active[sid].window == Flow.AsI32(c.config.initialWindow)
  {
    hide Observe, SafeTrace, Places, Ids, Distinct, Balanced, ConnectionCredit, TotalSent, InitialSetting, Owed;
    forall sid | sid in c.active
      ensures var v := Observe(t, sid);
              && v.granted == |v.request| && v.request == c.active[sid].requestBody
              && c.active[sid].window == Flow.AsI32(c.config.initialWindow)
    {
      assert ActiveTie(c.active[sid], Observe(t, sid)) && OpenStream(c, sid);
    }
  }

  // ---------------------------------------------------------------- the frames of a response

  /** The payloads of the frames sent on a stream, in order. */
  function SentOn(t: Trace, sid: U32): seq<FramePayload> {
    match t
    case Start => []
    case After(prev, Sent(f)) => if f.header.streamId == sid then SentOn(prev, sid) + [f.payload] else SentOn(prev, sid)
    case After(prev, _) => SentOn(prev, sid)
  }

  /** What is sent on a stream, in four parts. */
  datatype Parts = Parts(credit: seq<FramePayload>, head: seq<FramePayload>, data: seq<FramePayload>,
      cut: seq<FramePayload>)

  function Joined(p: Parts): seq<FramePayload> {
    p.credit + p.head + p.data + p.cut
  }

  predicate EndsHeaders(p: FramePayload) {
    (p.Headers? || p.Continuation?) && p.endHeaders
  }

  predicate EndsStream(p: FramePayload) {
    (p.Headers? || p.Data?) && p.endStream
  }

  /** HEADERS CONTINUATION*, with END_HEADERS on none but the last. */
  predicate HeadOk(head: seq<FramePayload>) {
    && (head != [] ==> head[0].Headers?)
    && (forall i :: 1 <= i < |head| ==> head[i].Continuation?)
    && (forall i :: 0 <= i < |head| - 1 ==> !EndsHeaders(head[i]))
  }

  /** DATA*, with END_STREAM on none but the last. */
  predicate DataOk(data: seq<FramePayload>) {
    && (forall i :: 0 <= i < |data| ==> data[i].Data?)
    && (forall i :: 0 <= i < |data| - 1 ==> !EndsStream(data[i]))
  }

  predicate HeadComplete(p: Parts) {
    p.head != [] && EndsHeaders(p.head[|p.head| - 1])
  }

  predicate Ended(p: Parts) {
    (p.head != [] && EndsStream(p.head[0])) || (p.data != [] && EndsStream(p.data[|p.data| - 1]))
  }

  /**
   Credit for the request, then HEADERS CONTINUATION* DATA*, possibly cut by one RST_STREAM: nothing follows
   END_STREAM, and DATA or RST_STREAM do not come inside a header block.
   */
  predicate Shape(p: Parts) {
    && (forall i :: 0 <= i < |p.credit| ==> p.credit[i].WindowUpdate?)
    && HeadOk(p.head) && DataOk(p.data)
    && |p.cut| <= 1 && (p.cut != [] ==> p.cut[0].RstStream?)
    && (p.data != [] ==> HeadComplete(p) && !EndsStream(p.head[0]))
    && (p.cut != [] ==> !Ended(p) && (p.head != [] ==> HeadComplete(p)))
  }

  predicate EndInHead(p: Parts) {
    p.head != [] && EndsStream(p.head[0])
  }

  /** The phase that the parts amount to. */
  predicate PhaseFits(p: Parts, phase: Phase) {
    match phase
    case NotStarted => p.head == [] && p.data == [] && p.cut == []
    case InHeaders(endStream) =>
      p.head != [] && !HeadComplete(p) && endStream == EndsStream(p.head[0]) && p.data == [] && p.cut == []
    case Streaming => HeadComplete(p) && !Ended(p) && p.cut == []
    case Finished => HeadComplete(p) && Ended(p) && p.cut == []
    case Aborted => p.cut != []
    case Bad => false
  }

  /** One more frame extends one of the parts. */
  lemma OnePart(p: Parts, phase: Phase, f: FramePayload) returns (q: Parts)
    requires Shape(p) && PhaseFits(p, phase) && NextPhase(phase, f) != Bad
    ensures Shape(q) && PhaseFits(q, NextPhase(phase, f)) && Joined(q) == Joined(p) + [f]
    ensures EndInHead(q) == if f.Headers? then f.endStream else EndInHead(p)
  {
    match f
    case WindowUpdate(_) => q := p.(credit := p.credit + [f]);
    case RstStream(_) => q := p.(cut := [f]);
    case Data(_, _) => q := p.(data := p.data + [f]);
    case _ => q := p.(head := p.head + [f]);
  }

  /** What one event does to the frames of a stream. */
  lemma SentStep(prev: Trace, e: Event, sid: U32)
    ensures var t := After(prev, e); var v, v' := Observe(prev, sid), Observe(t, sid);
            if e.Sent? && e.frame.header.streamId == sid then
              var p := e.frame.payload;
              && v'.phase == NextPhase(v.phase, p) && v'.endInHead == (if p.Headers? then p.endStream else v.endInHead)
              && SentOn(t, sid) == SentOn(prev, sid) + [p]
            else v'.phase == v.phase && v'.endInHead == v.endInHead && SentOn(t, sid) == SentOn(prev, sid)
    ensures Observe(prev, sid).phase == Bad ==> Observe(After(prev, e), sid).phase == Bad
  {
  }

  lemma {:induction false} Decompose(t: Trace, sid: U32) returns (p: Parts)
    requires Observe(t, sid).phase != Bad
    ensures Shape(p) && PhaseFits(p, Observe(t, sid).phase) && Joined(p) == SentOn(t, sid)
    ensures EndInHead(p) == Observe(t, sid).endInHead
  {
    hide Shape, PhaseFits, Joined, EndInHead, NextPhase;
    match t
    case Start =>
      p := Parts([], [], [], []);
      NoParts();
    case After(prev, e) =>
      hide Observe, SentOn;
      SentStep(prev, e, sid);
      p := Decompose(prev, sid);
      if e.Sent? && e.frame.header.streamId == sid {
        p := OnePart(p, Observe(prev, sid).phase, e.frame.payload);
      }
  }

  lemma NoParts()
    ensures var p := Parts([], [], [], []); Shape(p) && PhaseFits(p, NotStarted) && Joined(p) == [] && !EndInHead(p)
  {
  }

  lemma RunSafe(config: Config, inputs: seq<Input>)
    requires forall i :: i in inputs ==> Possible(i)
    ensures SafeTrace(Execute(config, inputs).history)
  {
    hide Execute, Loose, SafeTrace, SaidGoodbye;
    RunSound(config, inputs);
  }

  /**
   On every stream the frames sent follow the response grammar, a header block is always completed, and END_STREAM is
   on the HEADERS exactly if the stream was answered without a body.
   */
  lemma ResponseGrammar(config: Config, inputs: seq<Input>, sid: U32)
    requires sid != 0 && forall i :: i in inputs ==> Possible(i)
    ensures var t := Execute(config, inputs).history; var v := Observe(t, sid);
            exists p: Parts ::
              && Shape(p) && (p.head != [] ==> HeadComplete(p)) && Joined(p) == SentOn(t, sid)
              && (EndInHead(p) <==> v.responses > 0 && v.body.None?)
  {
    hide Execute, Observe, Joined;
    var t := Execute(config, inputs).history;
    RunSafe(config, inputs);
    assert SafeView(Observe(t, sid));
    var p := Decompose(t, sid);
  }

  /** Header blocks are never interleaved with other frames, and every frame sent survives encoding and parsing. */
  lemma FramesWellFormed(config: Config, inputs: seq<Input>)
    requires forall i :: i in inputs ==> Possible(i)
    ensures var t := Execute(config, inputs).history; WritingOf(t) == Clear && AllWellFormed(t)
  {
    hide Execute, SafeView;
    RunSafe(config, inputs);
  }

  /** A connection that stops says GOAWAY last, and has not acted on any stream above the one it names. */
  lemma StopsWithGoodbye(config: Config, inputs: seq<Input>)
    requires forall i :: i in inputs ==> Possible(i)
    ensures var s := Execute(config, inputs); s.Stopped? ==> SaidGoodbye(s.history)
  {
    hide Execute, SafeTrace, Inv, SaidGoodbye;
    RunSound(config, inputs);
  }

  // ---------------------------------------------------------------- requests and bodies

  /**
   Each request is dispatched at most once, complete, with exactly the headers its own block says and exactly the body
   received; it is answered at most once.
   */
  lemma DispatchedOnce(config: Config, inputs: seq<Input>, sid: U32)
    requires sid != 0 && forall i :: i in inputs ==> Possible(i)
    ensures var v := Observe(Execute(config, inputs).history, sid);
            v.orderly && v.dispatches <= 1 && v.responses <= v.dispatches
    ensures ConnectionHeaders.Truthful(Execute(config, inputs).history)
  {
    hide Execute, Observe, BodySafe, ConnectionHeaders.Truthful, ConnectionHeaders.ReadAll;
    ConnectionHeaders.HeadersAsSent(config, inputs);
    RunSafe(config, inputs);
    assert SafeView(Observe(Execute(config, inputs).history, sid));
  }

  /**
   The DATA sent is a prefix of the body; a body-less response is complete as soon as it is answered; for a
   byte-vector or file body the stream has ended exactly when the whole body has been sent; an upstream body of
   undeclared length ends its stream only after the upstream's end was read, with everything before it sent.
   */
  ghost predicate Delivered(v: View) {
    match v.body
    case None => v.sent == [] && (v.phase == Finished <==> v.responses > 0)
    case Some(BytesBody(data, offset)) =>
      v.sent <= data[offset..] && (v.phase == Finished <==> v.sent == data[offset..])
    case Some(FileBody(script, size)) =>
      v.sent <= Yields(script) && |v.sent| <= size && (v.phase == Finished <==> |v.sent| == size)
    case Some(ReaderBody(script, left)) =>
      && v.sent <= Yields(script)
      && (left.Some? ==> |v.sent| <= left.value && (v.phase == Finished ==> |v.sent| == left.value))
      && (left.None? && v.phase == Finished ==> Ends(script) && v.sent == Yields(script))
  }

  lemma SafeDelivered(v: View)
    requires SafeView(v)
    ensures Delivered(v)
  {
    hide Yields;
  }

  lemma BodyDelivered(config: Config, inputs: seq<Input>, sid: U32)
    requires sid != 0 && forall i :: i in inputs ==> Possible(i)
    ensures Delivered(Observe(Execute(config, inputs).history, sid))
  {
    hide Execute, Observe, BodySafe, Delivered;
    RunSafe(config, inputs);
    SafeDelivered(Observe(Execute(config, inputs).history, sid));
  }

  /** For every response under way, what was sent and what its body still holds make up the whole body. */
  lemma NothingLost(config: Config, inputs: seq<Input>)
    requires forall i :: i in inputs ==> Possible(i)
    ensures var s := Execute(config, inputs);
            s.Running? ==>
              forall p :: p in s.conn.bodyQ ==>
                var v := Observe(s.history, p.sid);
                && v.body.Some? && v.sent + Left(p.body) == Left(v.body.value)
                && (Declared(v.body.value).Some? ==>
                      Declared(p.body).Some? && Declared(v.body.value).value == |v.sent| + Declared(p.body).value)
  {
    hide Execute;
    RunSound(config, inputs);
    var s := Execute(config, inputs);
    if s.Running? {
      InvBodies(s.conn, s.history);
    }
  }

  lemma InvBodies(c: Conn, t: Trace)
    requires Inv(c, t)
    ensures forall p :: p in c.bodyQ ==> SendingTie(p.body, Observe(t, p.sid))
  {
    hide SafeTrace, Numbers, Ids, OpenStreams, Places, Credits, Observe, SendingTie;
  }

  /**
   In every reachable state whose connection window covers the waiting responses, a scheduling round serves each
   of them as if it were alone with an equal share, and the unfinished ones keep their order.
   */
  lemma FairRounds(config: Config, inputs: seq<Input>)
    requires forall i :: i in inputs ==> Possible(i)
    ensures var s := Execute(config, inputs);
            s.Running? && 0 < |s.conn.bodyQ| <= s.conn.connWindow ==>
              var turn := Schedule(s.conn);
              var apart := ConnectionRounds.Apart(s.conn, s.conn.bodyQ, Share(s.conn.connWindow, |s.conn.bodyQ|));
              turn.out == apart.0 && turn.conn.bodyQ == apart.1
  {
    hide Execute, Inv, Schedule, ConnectionRounds.Apart, Share;
    RunSound(config, inputs);
    var s := Execute(config, inputs);
    if s.Running? && 0 < |s.conn.bodyQ| <= s.conn.connWindow {
      ConnectionRounds.InvQueue(s.conn, s.history);
      ConnectionRounds.EqualShares(s.conn);
    }
  }

  /**
   In every reachable state whose connection window covers the waiting responses, a round gives every byte-vector
   response with an open stream window exactly its share, whatever its place in the queue.
   */
  lemma ExactShares(config: Config, inputs: seq<Input>, i: nat)
    requires forall i :: i in inputs ==> Possible(i)
    ensures var s := Execute(config, inputs);
            s.Running? && i < |s.conn.bodyQ| <= s.conn.connWindow && s.conn.bodyQ[i].body.BytesBody?
            && s.conn.bodyQ[i].sid in s.conn.windows && s.conn.windows[s.conn.bodyQ[i].sid] > 0 ==>
              ConnectionRounds.Sendable(s.conn, i) && ConnectionRounds.FairTurn(s.conn, i, Schedule(s.conn))
  {
    hide Execute, Inv, Schedule, ConnectionRounds.FairTurn;
    RunSound(config, inputs);
    var s := Execute(config, inputs);
    if s.Running? && i < |s.conn.bodyQ| <= s.conn.connWindow && s.conn.bodyQ[i].body.BytesBody?
       && s.conn.bodyQ[i].sid in s.conn.windows && s.conn.windows[s.conn.bodyQ[i].sid] > 0 {
      ConnectionRounds.InvQueue(s.conn, s.history);
      InvBodies(s.conn, s.history);
      MoreToSend(s.conn.bodyQ[i].body, Observe(s.history, s.conn.bodyQ[i].sid));
      ConnectionRounds.ExactRound(s.conn, i);
    }
  }

  lemma MoreToSend(b: Body, v: View)
    requires SendingTie(b, v)
    ensures b.BytesBody? ==> b.offset < |b.data|
  {
  }

  // ---------------------------------------------------------------- places and limits

  /** Every tracked stream is in exactly one place, and every limit of the configuration is kept. */
  lemma PlacesAndLimits(config: Config, inputs: seq<Input>)
    requires forall i :: i in inputs ==> Possible(i)
    ensures var s := Execute(config, inputs);
            s.Running? ==>
              var c := s.conn;
              && c.windows.Keys == c.active.Keys + HeaderIds(c.headerQ) + BodyIds(c.bodyQ)
              && c.active.Keys !! HeaderIds(c.headerQ) !! BodyIds(c.bodyQ)
              && DistinctHeaders(c.headerQ) && DistinctBodies(c.bodyQ)
              && |c.windows| <= c.config.maxConcurrentStreams
              && (forall sid :: sid in c.windows ==> sid % 2 == 1 && sid <= c.lastSid)
              && (forall sid :: sid in c.active ==> |c.active[sid].requestBody| <= c.config.maxRequestSize)
              && |c.closed| <= Max(2 * c.config.maxConcurrentStreams, 16) && Distinct(c.closed)
  {
    hide Execute;
    RunSound(config, inputs);
    var s := Execute(config, inputs);
    if s.Running? {
      InvPlaces(s.conn, s.history);
    }
  }

  lemma InvPlaces(c: Conn, t: Trace)
    requires Inv(c, t)
    ensures c.windows.Keys == c.active.Keys + HeaderIds(c.headerQ) + BodyIds(c.bodyQ)
    ensures c.active.Keys !! HeaderIds(c.headerQ) !! BodyIds(c.bodyQ)
    ensures DistinctHeaders(c.headerQ) && DistinctBodies(c.bodyQ)
    ensures |c.windows| <= c.config.maxConcurrentStreams
    ensures forall sid :: sid in c.windows ==> sid % 2 == 1 && sid <= c.lastSid
    ensures forall sid :: sid in c.active ==> |c.active[sid].requestBody| <= c.config.maxRequestSize
    ensures |c.closed| <= Max(2 * c.config.maxConcurrentStreams, 16) && Distinct(c.closed)
  {
    hide SafeTrace, Ties, Credits, OpenStreams, HeaderIds, BodyIds, DistinctHeaders, DistinctBodies, Distinct;
    InvRequests(c, t);
  }

  lemma InvRequests(c: Conn, t: Trace)
    requires Inv(c, t)
    ensures forall sid :: sid in c.active ==> |c.active[sid].requestBody| <= c.config.maxRequestSize
  {
    hide SafeTrace, Ties, Credits, Places, Numbers, Ids;
    assert forall sid :: sid in c.active ==> OpenStream(c, sid);
  }
}
