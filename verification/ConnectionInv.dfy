/**
 The invariant that ties a connection's state to its history.
 */
module ConnectionInv {
  import opened Base
  import opened Frame
  import opened Connection
  import opened ConnectionTrace
  import Flow

  function HeaderIds(q: seq<PendingHeader>): set<U32> {
    set p | p in q :: p.sid
  }

  function BodyIds(q: seq<PendingResponse>): set<U32> {
    set p | p in q :: p.sid
  }

  function Only(d: Option<U32>): set<U32> {
    if d.Some? then {d.value} else {}
  }

  predicate DistinctHeaders(q: seq<PendingHeader>) {
    forall i, j :: 0 <= i < j < |q| ==> q[i].sid != q[j].sid
  }

  predicate DistinctBodies(q: seq<PendingResponse>) {
    forall i, j :: 0 <= i < j < |q| ==> q[i].sid != q[j].sid
  }

  predicate Distinct(q: seq<U32>) {
    forall i, j :: 0 <= i < j < |q| ==> q[i] != q[j]
  }

  // ---------------------------------------------------------------- state alone

  ghost predicate Numbers(c: Conn) {
    && 0 <= c.connWindow <= Flow.MAX_WINDOW_SIZE
    && c.peerInitial <= Flow.MAX_WINDOW_SIZE
    && c.recvWindow == Flow.AsI32(c.config.initialWindow)
    && |c.windows| <= c.config.maxConcurrentStreams
    && |c.closed| <= ClosedLimit(c.config) && Distinct(c.closed)
  }

  /** An open request: only the stream whose header block is being received lacks its headers. */
  ghost predicate OpenStream(c: Conn, sid: U32)
    requires sid in c.active
  {
    var st := c.active[sid];
    && st.state == Open
    && st.window == Flow.AsI32(c.config.initialWindow)
    && |st.requestBody| <= c.config.maxRequestSize
    && (st.endHeaders <==> c.contSid != Some(sid))
    && (st.endHeaders ==> !st.endStream)
  }

  ghost predicate OpenStreams(c: Conn) {
    && (forall sid :: sid in c.active ==> OpenStream(c, sid))
    && (c.contSid.Some? ==> c.contSid.value in c.active && |c.contBlock| <= c.config.maxHeaderBlock)
    && (c.contSid.None? ==> c.contBlock == [])
  }

  /** Client-initiated ids, none newer than the last one opened. */
  ghost predicate Ids(c: Conn) {
    && c.lastSid < 0x8000_0000
    && (forall sid :: sid in c.windows ==> sid % 2 == 1 && sid <= c.lastSid)
  }

  /**
   Each tracked stream is in exactly one place: open, waiting for upstream headers, or waiting to send its body.
   `detached` is a stream on its way from one place to the next within a step.
   */
  ghost predicate Places(c: Conn, detached: Option<U32>) {
    var h, b, d := HeaderIds(c.headerQ), BodyIds(c.bodyQ), Only(detached);
    && c.windows.Keys == c.active.Keys + h + b + d
    && c.active.Keys !! h && c.active.Keys !! b && c.active.Keys !! d && h !! b && h !! d && b !! d
    && DistinctHeaders(c.headerQ) && DistinctBodies(c.bodyQ)
  }

  // ---------------------------------------------------------------- state and history

  ghost predicate ActiveTie(st: Stream, v: View) {
    && v.phase == NotStarted && v.dispatches == 0 && v.responses == 0 && v.body.None? && v.sent == []
    && st.requestBody == v.request && st.endStream == v.gotEnd && st.endHeaders == v.gotHeaders
    && v.granted == |v.request|
  }

  ghost predicate WaitingTie(v: View) {
    v.phase == NotStarted && v.dispatches == 1 && v.responses == 0 && v.body.None? && v.sent == []
  }

  ghost predicate SendingTie(b: Body, v: View) {
    v.phase == Streaming && v.dispatches == 1 && v.responses == 1 && v.body.Some? && Progress(v.body.value, v.sent, b)
  }

  ghost predicate FreshView(v: View) {
    && v.phase == NotStarted && v.dispatches == 0 && v.responses == 0 && v.body.None? && v.sent == []
  }

  ghost predicate Ties(c: Conn, t: Trace) {
    && (forall sid :: sid in c.active ==> ActiveTie(c.active[sid], Observe(t, sid)))
    && (forall p :: p in c.headerQ ==> WaitingTie(Observe(t, p.sid)))
    && (forall p :: p in c.bodyQ ==> SendingTie(p.body, Observe(t, p.sid)))
    && (forall sid: U32 :: sid > c.lastSid ==> FreshView(Observe(t, sid)))
  }

  /** A send window is the peer's initial window plus the credit granted minus the bytes sent. */
  ghost predicate Balanced(w: int, initial: U32, v: View) {
    && w == initial + v.credit - |v.sent|
    && w <= Flow.MAX_WINDOW_SIZE
    && v.credit - |v.sent| >= -Flow.MAX_WINDOW_SIZE
  }

  ghost predicate Credits(c: Conn, t: Trace) {
    && (forall sid :: sid in c.windows ==> Balanced(c.windows[sid], c.peerInitial, Observe(t, sid)))
    && (forall sid :: sid in c.active && sid in c.windows ==> c.active[sid].sendWindow == c.windows[sid])
    && c.connWindow == PEER_DEFAULT_WINDOW + ConnectionCredit(t) - TotalSent(t)
    && c.peerInitial == InitialSetting(t)
    && Owed(t) == NOTHING
  }

  /** All but the safety of the history, with stream `detached` on its way between two places. */
  ghost predicate Loose(c: Conn, t: Trace, detached: Option<U32>) {
    Numbers(c) && Ids(c) && OpenStreams(c) && Places(c, detached) && Ties(c, t) && Credits(c, t)
  }

  ghost predicate Inv(c: Conn, t: Trace) {
    Loose(c, t, None) && SafeTrace(t)
  }

  lemma InitialState(config: Config)
    ensures var c := Initial(config); Numbers(c) && Ids(c) && OpenStreams(c) && Places(c, None)
  {
  }

  lemma InitialHistory(config: Config)
    ensures Ties(Initial(config), Start) && Credits(Initial(config), Start) && SafeTrace(Start)
  {
  }

  lemma InitialInv(config: Config)
    ensures Inv(Initial(config), Start)
  {
    hide Numbers, Ids, OpenStreams, Places, Ties, Credits, SafeTrace, Initial;
    InitialState(config);
    InitialHistory(config);
  }

  // ---------------------------------------------------------------- releasing a stream

  /** The closed ids stay distinct and within the limit; a new one comes last and pushes out only the oldest. */
  lemma MarkClosedKeeps(closed: seq<U32>, sid: U32, limit: nat)
    requires Distinct(closed) && |closed| <= limit && limit > 0
    ensures var r := MarkClosed(closed, sid, limit);
            && Distinct(r) && |r| <= limit && sid in r
            && (sid in closed ==> r == closed)
            && (sid !in closed ==> |r| == Min(|closed| + 1, limit) && r == (closed + [sid])[|closed| + 1 - |r|..])
  {
    var r := MarkClosed(closed, sid, limit);
    if sid !in closed {
      assert Distinct(closed + [sid]);
      assert r[|r| - 1] == sid;
      assert (closed + [sid])[0..] == closed + [sid];
    }
  }

  lemma MapMinusSize(m: map<U32, int>, sid: U32)
    ensures |m - {sid}| <= |m|
  {
    if sid in m {
      assert m == (m - {sid})[sid := m[sid]];
    } else {
      assert m - {sid} == m;
    }
  }

  lemma ReleaseNumbers(c: Conn, sid: U32)
    requires Numbers(c)
    ensures Numbers(Release(c, sid))
  {
    MarkClosedKeeps(c.closed, sid, ClosedLimit(c.config));
    MapMinusSize(c.windows, sid);
  }

  // ---------------------------------------------------------------- queues

  lemma HeaderIdsSnoc(q: seq<PendingHeader>, p: PendingHeader)
    ensures HeaderIds(q + [p]) == HeaderIds(q) + {p.sid}
    ensures DistinctHeaders(q) && p.sid !in HeaderIds(q) ==> DistinctHeaders(q + [p])
  {
    assert forall x :: x in q + [p] <==> x in q || x == p;
    if DistinctHeaders(q) && p.sid !in HeaderIds(q) {
      forall i, j | 0 <= i < j < |q + [p]| ensures (q + [p])[i].sid != (q + [p])[j].sid {
        assert q[i] in q;
      }
    }
  }

  lemma BodyIdsSnoc(q: seq<PendingResponse>, p: PendingResponse)
    ensures BodyIds(q + [p]) == BodyIds(q) + {p.sid}
    ensures DistinctBodies(q) && p.sid !in BodyIds(q) ==> DistinctBodies(q + [p])
  {
    assert forall x :: x in q + [p] <==> x in q || x == p;
    if DistinctBodies(q) && p.sid !in BodyIds(q) {
      forall i, j | 0 <= i < j < |q + [p]| ensures (q + [p])[i].sid != (q + [p])[j].sid {
        assert q[i] in q;
      }
    }
  }

  lemma HeaderIdsFront(q: seq<PendingHeader>)
    requires q != [] && DistinctHeaders(q)
    ensures HeaderIds(q[1..]) == HeaderIds(q) - {q[0].sid} && q[0].sid in HeaderIds(q) && DistinctHeaders(q[1..])
  {
    assert q == [q[0]] + q[1..];
    assert forall x :: x in q <==> x == q[0] || x in q[1..];
    forall x | x in q[1..] ensures x.sid != q[0].sid {
      var i :| 0 <= i < |q[1..]| && q[1..][i] == x;
      assert x == q[i + 1];
    }
  }

  lemma BodyIdsFront(q: seq<PendingResponse>)
    requires q != [] && DistinctBodies(q)
    ensures BodyIds(q[1..]) == BodyIds(q) - {q[0].sid} && q[0].sid in BodyIds(q) && DistinctBodies(q[1..])
  {
    assert q == [q[0]] + q[1..];
    assert forall x :: x in q <==> x == q[0] || x in q[1..];
    forall x | x in q[1..] ensures x.sid != q[0].sid {
      var i :| 0 <= i < |q[1..]| && q[1..][i] == x;
      assert x == q[i + 1];
    }
  }

  // ---------------------------------------------------------------- moving streams between places

  lemma ReleasePlaces(c: Conn, sid: U32)
    requires Places(c, Some(sid)) && OpenStreams(c)
    ensures Places(Release(c, sid), None) && OpenStreams(Release(c, sid))
  {
    forall x | x in c.active ensures OpenStream(Release(c, sid), x) {
      assert OpenStream(c, x);
    }
  }

  lemma ReleaseTies(c: Conn, t: Trace, sid: U32)
    requires Ids(c) && Ties(c, t) && Credits(c, t)
    ensures var c' := Release(c, sid); Ids(c') && Ties(c', t) && Credits(c', t)
  {
    hide MarkClosed, Observe, ActiveTie, WaitingTie, SendingTie, FreshView, Balanced;
  }

  /** A detached stream that is done leaves every place. */
  lemma ReleaseDetached(c: Conn, t: Trace, sid: U32)
    requires Loose(c, t, Some(sid))
    ensures Loose(Release(c, sid), t, None)
  {
    hide Numbers, Ids, OpenStreams, Places, Ties, Credits, Release;
    ReleaseNumbers(c, sid);
    ReleasePlaces(c, sid);
    ReleaseTies(c, t, sid);
  }

  /** Four of the six parts do not look at the queues. */
  lemma QueuesMove(c: Conn, c': Conn, t: Trace)
    requires c' == c.(headerQ := c'.headerQ, bodyQ := c'.bodyQ)
    requires Numbers(c) && Ids(c) && OpenStreams(c) && Credits(c, t)
    ensures Numbers(c') && Ids(c') && OpenStreams(c') && Credits(c', t)
  {
    hide Observe, Balanced, Distinct, ConnectionCredit, TotalSent, InitialSetting, Owed;
    forall x | x in c'.active ensures OpenStream(c', x) {
      assert OpenStream(c, x);
    }
  }

  lemma DetachHeader(c: Conn, t: Trace)
    requires Loose(c, t, None) && c.headerQ != []
    ensures Loose(c.(headerQ := c.headerQ[1..]), t, Some(c.headerQ[0].sid)) && WaitingTie(Observe(t, c.headerQ[0].sid))
  {
    hide Numbers, Ids, OpenStreams, Credits, Observe, ActiveTie, WaitingTie, SendingTie, FreshView;
    hide HeaderIds, BodyIds, DistinctBodies, DistinctHeaders;
    QueuesMove(c, c.(headerQ := c.headerQ[1..]), t);
    HeaderIdsFront(c.headerQ);
    assert c.headerQ[0] in c.headerQ;
  }

  lemma AttachHeader(c: Conn, t: Trace, p: PendingHeader)
    requires Loose(c, t, Some(p.sid)) && WaitingTie(Observe(t, p.sid))
    ensures Loose(c.(headerQ := c.headerQ + [p]), t, None)
  {
    hide Numbers, Ids, OpenStreams, Credits, Observe, ActiveTie, WaitingTie, SendingTie, FreshView;
    hide HeaderIds, BodyIds, DistinctBodies, DistinctHeaders;
    QueuesMove(c, c.(headerQ := c.headerQ + [p]), t);
    HeaderIdsSnoc(c.headerQ, p);
  }

  lemma DetachBody(c: Conn, t: Trace)
    requires Loose(c, t, None) && c.bodyQ != []
    ensures Loose(c.(bodyQ := c.bodyQ[1..]), t, Some(c.bodyQ[0].sid))
    ensures SendingTie(c.bodyQ[0].body, Observe(t, c.bodyQ[0].sid))
  {
    hide Numbers, Ids, OpenStreams, Credits, Observe, ActiveTie, WaitingTie, SendingTie, FreshView;
    hide HeaderIds, BodyIds, DistinctBodies, DistinctHeaders;
    QueuesMove(c, c.(bodyQ := c.bodyQ[1..]), t);
    BodyIdsFront(c.bodyQ);
    assert c.bodyQ[0] in c.bodyQ;
  }

  lemma AttachBody(c: Conn, t: Trace, p: PendingResponse)
    requires Loose(c, t, Some(p.sid)) && SendingTie(p.body, Observe(t, p.sid))
    ensures Loose(c.(bodyQ := c.bodyQ + [p]), t, None)
  {
    hide Numbers, Ids, OpenStreams, Credits, Observe, ActiveTie, WaitingTie, SendingTie, FreshView;
    hide HeaderIds, BodyIds, DistinctBodies, DistinctHeaders;
    QueuesMove(c, c.(bodyQ := c.bodyQ + [p]), t);
    BodyIdsSnoc(c.bodyQ, p);
  }

  lemma DetachActivePlaces(c: Conn, sid: U32)
    requires Places(c, None) && sid in c.active
    ensures Places(c.(active := c.active - {sid}), Some(sid))
  {
    hide HeaderIds, BodyIds, DistinctBodies, DistinctHeaders;
    assert c.(active := c.active - {sid}).active.Keys == c.active.Keys - {sid};
  }

  lemma DetachActiveOpen(c: Conn, sid: U32)
    requires OpenStreams(c) && c.contSid != Some(sid)
    ensures OpenStreams(c.(active := c.active - {sid}))
  {
    forall x | x in c.active && x != sid ensures OpenStream(c.(active := c.active - {sid}), x) {
      assert OpenStream(c, x);
    }
  }

  lemma DetachActiveTies(c: Conn, t: Trace, sid: U32)
    requires Numbers(c) && Ids(c) && Ties(c, t) && Credits(c, t) && sid in c.active
    ensures var c' := c.(active := c.active - {sid}); Numbers(c') && Ids(c') && Ties(c', t) && Credits(c', t)
    ensures ActiveTie(c.active[sid], Observe(t, sid))
  {
    hide Observe, ActiveTie, WaitingTie, SendingTie, FreshView, Balanced, Distinct, ConnectionCredit, TotalSent;
    hide InitialSetting, Owed;
  }

  lemma DetachActive(c: Conn, t: Trace, sid: U32)
    requires Loose(c, t, None) && sid in c.active && c.contSid != Some(sid)
    ensures Loose(c.(active := c.active - {sid}), t, Some(sid)) && ActiveTie(c.active[sid], Observe(t, sid))
  {
    hide Numbers, Ids, OpenStreams, Places, Ties, Credits, Observe, ActiveTie;
    DetachActivePlaces(c, sid);
    DetachActiveOpen(c, sid);
    DetachActiveTies(c, t, sid);
  }

  lemma AttachActivePlaces(c: Conn, sid: U32, st: Stream)
    requires Places(c, Some(sid))
    ensures Places(c.(active := c.active[sid := st]), None)
  {
    hide HeaderIds, BodyIds, DistinctBodies, DistinctHeaders;
    assert c.(active := c.active[sid := st]).active.Keys == c.active.Keys + {sid};
  }

  lemma AttachActiveTies(c: Conn, t: Trace, sid: U32, st: Stream)
    requires Numbers(c) && Ids(c) && Ties(c, t) && Credits(c, t)
    requires ActiveTie(st, Observe(t, sid)) && sid in c.windows && st.sendWindow == c.windows[sid]
    ensures var c' := c.(active := c.active[sid := st]); Numbers(c') && Ids(c') && Ties(c', t) && Credits(c', t)
  {
    hide Observe, ActiveTie, WaitingTie, SendingTie, FreshView, Balanced, Distinct, ConnectionCredit, TotalSent;
    hide InitialSetting, Owed;
  }

  /** Put an open stream back, changed. */
  lemma AttachActive(c: Conn, t: Trace, sid: U32, st: Stream)
    requires Loose(c, t, Some(sid)) && ActiveTie(st, Observe(t, sid)) && sid in c.windows
             && st.sendWindow == c.windows[sid]
    requires OpenStreams(c.(active := c.active[sid := st]))
    ensures Loose(c.(active := c.active[sid := st]), t, None)
  {
    hide Numbers, Ids, OpenStreams, Places, Ties, Credits, Observe, ActiveTie;
    AttachActivePlaces(c, sid, st);
    AttachActiveTies(c, t, sid, st);
  }

  // ---------------------------------------------------------------- events about a detached stream

  function WithCredit(c: Conn, sid: U32, window: int, connection: int): Conn {
    c.(connWindow := connection, windows := c.windows[sid := window])
  }

  lemma CreditState(c: Conn, sid: U32, window: int, connection: int)
    requires Numbers(c) && Ids(c) && OpenStreams(c) && sid in c.windows && 0 <= connection <= Flow.MAX_WINDOW_SIZE
    ensures var c' := WithCredit(c, sid, window, connection); Numbers(c') && Ids(c') && OpenStreams(c')
  {
    hide Distinct;
    var c' := WithCredit(c, sid, window, connection);
    assert c'.windows.Keys == c.windows.Keys;
    assert |c'.windows| == |c'.windows.Keys| && |c.windows| == |c.windows.Keys|;
    forall x | x in c'.active ensures OpenStream(c', x) {
      assert OpenStream(c, x);
    }
  }

  lemma CreditPlaces(c: Conn, sid: U32, window: int, connection: int)
    requires Places(c, Some(sid))
    ensures sid in c.windows && Places(WithCredit(c, sid, window, connection), Some(sid))
  {
    hide HeaderIds, BodyIds, DistinctBodies, DistinctHeaders;
    assert sid in c.windows.Keys;
    assert WithCredit(c, sid, window, connection).windows.Keys == c.windows.Keys;
  }

  ghost predicate OnlyOn(t: Trace, t': Trace, sid: U32) {
    forall x: U32 :: x != sid && x != 0 ==> Observe(t', x) == Observe(t, x)
  }

  lemma CreditTies(c: Conn, t: Trace, t': Trace, sid: U32, window: int, connection: int)
    requires Ids(c) && Places(c, Some(sid)) && Ties(c, t) && OnlyOn(t, t', sid)
    ensures Ties(WithCredit(c, sid, window, connection), t')
  {
    hide Observe, ActiveTie, WaitingTie, SendingTie, FreshView;
    var c' := WithCredit(c, sid, window, connection);
    forall p | p in c'.headerQ ensures WaitingTie(Observe(t', p.sid)) {
      assert p.sid in HeaderIds(c.headerQ);
    }
    forall p | p in c'.bodyQ ensures SendingTie(p.body, Observe(t', p.sid)) {
      assert p.sid in BodyIds(c.bodyQ);
    }
  }

  lemma CreditBalance(c: Conn, t: Trace, t': Trace, sid: U32, window: int, connection: int)
    requires Ids(c) && Places(c, Some(sid)) && Credits(c, t) && OnlyOn(t, t', sid)
    requires Balanced(window, c.peerInitial, Observe(t', sid))
    requires connection == PEER_DEFAULT_WINDOW + ConnectionCredit(t') - TotalSent(t')
    requires InitialSetting(t') == InitialSetting(t) && Owed(t') == Owed(t)
    ensures Credits(WithCredit(c, sid, window, connection), t')
  {
    hide Observe, Balanced, ConnectionCredit, TotalSent, InitialSetting, Owed, DistinctBodies, DistinctHeaders;
    hide HeaderIds, BodyIds;
    assert sid in c.windows.Keys && sid !in c.active.Keys;
  }

  /** Events about a detached stream disturb no other, if its window and the connection's keep the books. */
  lemma DetachedEvents(c: Conn, t: Trace, t': Trace, sid: U32, window: int, connection: int)
    requires Loose(c, t, Some(sid)) && OnlyOn(t, t', sid)
    requires Balanced(window, c.peerInitial, Observe(t', sid))
    requires 0 <= connection <= Flow.MAX_WINDOW_SIZE
    requires connection == PEER_DEFAULT_WINDOW + ConnectionCredit(t') - TotalSent(t')
    requires InitialSetting(t') == InitialSetting(t) && Owed(t') == Owed(t)
    ensures Loose(WithCredit(c, sid, window, connection), t', Some(sid))
  {
    hide Numbers, Ids, OpenStreams, Places, Ties, Credits, OnlyOn, Observe, Balanced, ConnectionCredit, TotalSent;
    hide InitialSetting, Owed, WithCredit;
    CreditPlaces(c, sid, window, connection);
    CreditState(c, sid, window, connection);
    CreditTies(c, t, t', sid, window, connection);
    CreditBalance(c, t, t', sid, window, connection);
  }

  /** The same when neither window moves. */
  lemma QuietEvents(c: Conn, t: Trace, t': Trace, sid: U32)
    requires Loose(c, t, Some(sid)) && OnlyOn(t, t', sid)
    requires Observe(t', sid).credit == Observe(t, sid).credit && Observe(t', sid).sent == Observe(t, sid).sent
    requires ConnectionCredit(t') == ConnectionCredit(t) && TotalSent(t') == TotalSent(t)
    requires InitialSetting(t') == InitialSetting(t) && Owed(t') == Owed(t)
    ensures Loose(c, t', Some(sid))
  {
    hide OpenStreams, Ties, OnlyOn, Observe, ConnectionCredit, TotalSent, InitialSetting, Owed, DistinctBodies;
    hide DistinctHeaders, HeaderIds, BodyIds;
    assert sid in c.windows.Keys;
    assert WithCredit(c, sid, c.windows[sid], c.connWindow) == c by {
      assert c.windows[sid := c.windows[sid]] == c.windows;
    }
    DetachedEvents(c, t, t', sid, c.windows[sid], c.connWindow);
  }
}
