/**
 Every received frame keeps the invariant, or stops the connection with its history still safe.
 */
module ConnectionReceiving {
  import opened Base
  import opened Frame
  import opened Connection
  import opened ConnectionTrace
  import opened ConnectionInv
  import opened ConnectionSteps
  import Hpack
  import Flow

  // ---------------------------------------------------------------- histories

  /** No stream looks different. */
  ghost predicate SameViews(t: Trace, t': Trace) {
    forall x: U32 :: x != 0 ==> Observe(t', x) == Observe(t, x)
  }

  /** What is received never spoils a history. */
  lemma ReceivedSafe(t: Trace, f: Frame)
    requires SafeTrace(t)
    ensures SafeTrace(After(t, Received(f)))
  {
    var t' := After(t, Received(f));
    var sid := f.header.streamId;
    assert OnlyOn(t, t', sid);
    if sid != 0 {
      assert SafeView(Observe(t, sid));
      ReceivedView(Observe(t, sid), f.payload);
    }
    SafeEvents(t, t', sid);
  }

  lemma ReceivedStop(t: Trace, f: Frame, last: U32)
    requires MayStop(t, last)
    ensures MayStop(After(t, Received(f)), last)
  {
    ReceivedSafe(t, f);
    hide SafeTrace;
    forall sid: U32 | sid > last ensures FreshView(Observe(After(t, Received(f)), sid)) {
      assert FreshView(Observe(t, sid));
    }
  }

  lemma ReceivedView(v: View, p: FramePayload)
    requires SafeView(v)
    ensures SafeView(OnReceived(v, p))
  {
  }

  /** A frame about the connection changes no stream. */
  lemma ConnectionFrameSent(t: Trace, f: Frame)
    requires SafeTrace(t) && f.header.streamId == 0 && WellFormed(f)
    requires f.payload.Settings? || f.payload.Ping? || f.payload.GoAway? || f.payload.WindowUpdate?
    ensures var t' := After(t, Sent(f)); SafeTrace(t') && SameViews(t, t')
  {
    var t' := After(t, Sent(f));
    SafeEvents(t, t', 0);
  }

  lemma Unnoticed(c: Conn, t: Trace, t': Trace, d: Option<U32>)
    requires Loose(c, t, d) && d != Some(0) && SameViews(t, t') && Books(t, t')
    ensures Loose(c, t', d)
  {
    hide Observe, ActiveTie, WaitingTie, SendingTie, FreshView, Balanced, ConnectionCredit, TotalSent, InitialSetting;
    hide Owed;
    hide Numbers, OpenStreams, DistinctBodies, DistinctHeaders;
    UnnoticedTies(c, t, t', d);
    forall sid | sid in c.windows ensures Observe(t', sid) == Observe(t, sid) {
      assert sid % 2 == 1;
    }
  }

  lemma UnnoticedTies(c: Conn, t: Trace, t': Trace, d: Option<U32>)
    requires Ids(c) && Places(c, d) && Ties(c, t) && SameViews(t, t')
    ensures Ties(c, t')
  {
    hide Observe, ActiveTie, WaitingTie, SendingTie, FreshView;
    forall sid | sid in c.windows ensures Observe(t', sid) == Observe(t, sid) {
      assert sid % 2 == 1;
    }
    forall sid | sid in c.active ensures sid in c.windows {
      assert sid in c.windows.Keys;
    }
    forall p | p in c.headerQ ensures p.sid in c.windows {
      assert p.sid in HeaderIds(c.headerQ);
    }
    forall p | p in c.bodyQ ensures p.sid in c.windows {
      assert p.sid in BodyIds(c.bodyQ);
    }
  }

  // ---- changes of state that no part of the history notices

  /** The decoder's table, the peer's frame size, the block being received and the closed ids do not matter. */
  ghost predicate Beside(c: Conn, c': Conn) {
    && c' == c.(table := c'.table, peerMaxFrame := c'.peerMaxFrame, contBlock := c'.contBlock, lastSid := c'.lastSid,
       closed := c'.closed)
    && (if c.contSid.Some? then |c'.contBlock| <= c.config.maxHeaderBlock else c'.contBlock == c.contBlock)
    && c.lastSid <= c'.lastSid < 0x8000_0000
    && |c'.closed| <= ClosedLimit(c.config) && Distinct(c'.closed)
  }

  lemma SideState(c: Conn, c': Conn)
    requires Numbers(c) && Ids(c) && OpenStreams(c) && Beside(c, c')
    ensures Numbers(c') && Ids(c') && OpenStreams(c')
  {
    hide Distinct;
    forall x | x in c'.active ensures OpenStream(c', x) {
      assert OpenStream(c, x);
    }
  }

  lemma SidePlaces(c: Conn, c': Conn, d: Option<U32>)
    requires Places(c, d) && Beside(c, c')
    ensures Places(c', d)
  {
    hide DistinctBodies, DistinctHeaders, Distinct, HeaderIds, BodyIds;
  }

  lemma SideTies(c: Conn, c': Conn, t: Trace)
    requires Ties(c, t) && Credits(c, t) && Beside(c, c')
    ensures Ties(c', t) && Credits(c', t)
  {
    hide Observe, ActiveTie, WaitingTie, SendingTie, FreshView, Balanced, ConnectionCredit, TotalSent, InitialSetting;
    hide Owed;
  }

  lemma SideMove(c: Conn, c': Conn, t: Trace, d: Option<U32>)
    requires Loose(c, t, d) && Beside(c, c')
    ensures Loose(c', t, d)
  {
    hide Beside, Numbers, Ids, OpenStreams, Places, Ties, Credits;
    SideState(c, c');
    SidePlaces(c, c', d);
    SideTies(c, c', t);
  }

  // ---------------------------------------------------------------- settings

  /** From c to c' only the initial window moved, and every send window with it. */
  ghost predicate Shifted(c: Conn, c': Conn) {
    var delta := c'.peerInitial - c.peerInitial;
    && c' == c.(peerMaxFrame := c'.peerMaxFrame, peerInitial := c'.peerInitial, windows := c'.windows,
       active := c'.active)
    && c'.windows.Keys == c.windows.Keys && c'.active.Keys == c.active.Keys
    && (forall sid :: sid in c.windows ==> c'.windows[sid] == c.windows[sid] + delta)
    && (forall sid :: sid in c.active ==>
       c'.active[sid] == c.active[sid].(sendWindow := c.active[sid].sendWindow + delta))
  }

  /** Windows within their upper bound, and the initial window too. */
  ghost predicate Bounded(c: Conn) {
    c.peerInitial <= Flow.MAX_WINDOW_SIZE && forall sid :: sid in c.windows ==> c.windows[sid] <= Flow.MAX_WINDOW_SIZE
  }

  lemma ShiftedSelf(c: Conn)
    ensures Shifted(c, c)
  {
    forall sid | sid in c.active ensures c.active[sid] == c.active[sid].(sendWindow := c.active[sid].sendWindow + 0) {
    }
  }

  lemma ShiftedTwice(a: Conn, b: Conn, c: Conn)
    requires Shifted(a, b) && Shifted(b, c)
    ensures Shifted(a, c)
  {
    assert forall sid :: sid in a.windows ==> sid in b.windows;
    assert forall sid :: sid in a.active ==> sid in b.active;
  }

  lemma OneSetting(c: Conn, s: Setting)
    requires Bounded(c)
    ensures var r := ApplySetting(c, s);
            r.Ok? ==>
              && Shifted(c, r.value) && Bounded(r.value)
              && r.value.peerInitial == if s.id == InitialWindowSize then s.value else c.peerInitial
  {
    ShiftedSelf(c);
    var r := ApplySetting(c, s);
    if s.id == InitialWindowSize && r.Ok? {
      var delta := s.value - c.peerInitial;
      var windows := AdjustWindows(c.windows, delta).value;
      assert forall sid :: sid in c.windows ==> Flow.Adjusted(c.windows[sid], delta).Ok?;
      assert r.value == c.(active := AdjustStreams(c.active, delta).value, windows := windows, peerInitial := s.value);
    }
  }

  /** Several INITIAL_WINDOW_SIZE values in one frame act like the last of them. */
  lemma {:induction false} SettingsTelescope(c: Conn, settings: seq<Setting>)
    requires Bounded(c)
    ensures var r := ApplySettings(c, settings);
            r.Ok? ==>
              && Shifted(c, r.value) && Bounded(r.value)
              && r.value.peerInitial == LastInitial(settings, c.peerInitial)
    decreases |settings|
  {
    ShiftedSelf(c);
    if settings != [] && ApplySetting(c, settings[0]).Ok? {
      var next := ApplySetting(c, settings[0]).value;
      OneSetting(c, settings[0]);
      SettingsTelescope(next, settings[1..]);
      if ApplySettings(next, settings[1..]).Ok? {
        hide Shifted, Bounded, ApplySetting;
        ShiftedTwice(c, next, ApplySettings(next, settings[1..]).value);
      }
    }
  }

  lemma ShiftedPlaces(c: Conn, c': Conn)
    requires Places(c, None) && Shifted(c, c')
    ensures Places(c', None)
  {
    hide DistinctBodies, DistinctHeaders, HeaderIds, BodyIds;
  }

  lemma ShiftedOpen(c: Conn, c': Conn)
    requires OpenStreams(c) && Shifted(c, c')
    ensures OpenStreams(c')
  {
    forall x | x in c'.active ensures OpenStream(c', x) {
      assert x in c.active.Keys && OpenStream(c, x);
    }
    assert c.contSid.Some? ==> c.contSid.value in c'.active.Keys;
  }

  lemma ShiftedState(c: Conn, c': Conn)
    requires Numbers(c) && Ids(c) && Shifted(c, c') && Bounded(c')
    ensures Numbers(c') && Ids(c')
  {
    hide Distinct;
    assert |c'.windows| == |c'.windows.Keys| && |c.windows| == |c.windows.Keys|;
    forall x | x in c'.windows ensures x % 2 == 1 && x <= c'.lastSid {
      assert x in c.windows.Keys;
    }
  }

  lemma ShiftedTies(c: Conn, c': Conn, t: Trace)
    requires Ties(c, t) && Shifted(c, c')
    ensures Ties(c', t)
  {
    hide Observe, WaitingTie, SendingTie, FreshView;
    forall sid | sid in c'.active ensures ActiveTie(c'.active[sid], Observe(t, sid)) {
      assert sid in c.active.Keys && ActiveTie(c.active[sid], Observe(t, sid));
    }
  }

  lemma ShiftedCredits(c: Conn, c': Conn, t: Trace, t': Trace)
    requires Ids(c) && Credits(c, t) && Shifted(c, c') && Bounded(c') && SameViews(t, t')
    requires ConnectionCredit(t') == ConnectionCredit(t) && TotalSent(t') == TotalSent(t) && Owed(t') == Owed(t)
    requires InitialSetting(t') == c'.peerInitial
    ensures Credits(c', t')
  {
    hide Observe, ConnectionCredit, TotalSent, InitialSetting, Owed;
    forall sid | sid in c'.windows ensures Balanced(c'.windows[sid], c'.peerInitial, Observe(t', sid)) {
      assert sid in c.windows.Keys && sid % 2 == 1;
      assert Balanced(c.windows[sid], c.peerInitial, Observe(t, sid));
    }
    forall sid | sid in c'.active && sid in c'.windows ensures c'.active[sid].sendWindow == c'.windows[sid] {
      assert sid in c.active.Keys && sid in c.windows.Keys;
    }
  }

  lemma InvBounded(c: Conn, t: Trace)
    requires Loose(c, t, None)
    ensures Bounded(c)
  {
    forall sid | sid in c.windows ensures c.windows[sid] <= Flow.MAX_WINDOW_SIZE {
      assert Balanced(c.windows[sid], c.peerInitial, Observe(t, sid));
    }
  }

  /** SETTINGS and its acknowledgement change no stream, and the peer's initial window to the last one named. */
  lemma SettingsSeen(c: Conn, t: Trace, f: Frame)
    requires SafeTrace(t) && Credits(c, t) && f.header.streamId == 0 && f.payload.Settings? && !f.payload.ack
    ensures var t2 := After(After(t, Received(f)), Sent(SETTINGS_ACK));
            && SafeTrace(t2) && SameViews(t, t2) && InitialSetting(t2) == LastInitial(f.payload.settings, c.peerInitial)
            && ConnectionCredit(t2) == ConnectionCredit(t) && TotalSent(t2) == TotalSent(t) && Owed(t2) == Owed(t)
  {
    hide SafeTrace, LastInitial, Balanced;
    assert WellFormed(SETTINGS_ACK);
    ReceivedSafe(t, f);
    ConnectionFrameSent(After(t, Received(f)), SETTINGS_ACK);
  }

  lemma SettingsKeep(c: Conn, t: Trace, f: Frame)
    requires Inv(c, t) && f.header.streamId == 0 && f.payload.Settings? && !f.payload.ack
    requires ApplySettings(c, f.payload.settings).Ok?
    ensures Inv(ApplySettings(c, f.payload.settings).value, Extend(After(t, Received(f)), [Sent(SETTINGS_ACK)]))
  {
    var c' := ApplySettings(c, f.payload.settings).value;
    var t1 := After(t, Received(f));
    var t2 := After(t1, Sent(SETTINGS_ACK));
    hide ApplySettings, Observe, Extend, SafeTrace, SameViews, Shifted, Bounded, Numbers, Ids, OpenStreams, Places;
    hide Ties, Credits, LastInitial;
    hide ConnectionCredit, TotalSent, InitialSetting, Owed;
    InvBounded(c, t);
    ExtendOne(t1, Sent(SETTINGS_ACK));
    SettingsSeen(c, t, f);
    SettingsTelescope(c, f.payload.settings);
    ShiftedState(c, c');
    ShiftedOpen(c, c');
    ShiftedPlaces(c, c');
    UnnoticedTies(c, t, t2, None);
    ShiftedTies(c, c', t2);
    ShiftedCredits(c, c', t, t2);
  }

  /** No window is ever so low that moving the initial window could take it out of range downwards. */
  ghost predicate Floor(c: Conn) {
    && (forall sid :: sid in c.windows ==> c.windows[sid] - c.peerInitial >= -Flow.MAX_WINDOW_SIZE)
    && (forall sid :: sid in c.active ==> sid in c.windows && c.active[sid].sendWindow == c.windows[sid])
  }

  /** A setting on its own is acceptable, given the windows before the frame. */
  ghost predicate Acceptable(c: Conn, s: Setting) {
    && (s.id == MaxFrameSize ==> DEFAULT_MAX_FRAME_SIZE <= s.value <= MAX_ALLOWED_FRAME_SIZE)
    && (s.id == InitialWindowSize ==>
          && s.value <= Flow.MAX_WINDOW_SIZE
          && forall sid :: sid in c.windows ==> c.windows[sid] - c.peerInitial + s.value <= Flow.MAX_WINDOW_SIZE)
  }

  lemma OneAccepted(c: Conn, s: Setting)
    requires Floor(c) && Bounded(c)
    ensures ApplySetting(c, s).Ok? <==> Acceptable(c, s)
    ensures ApplySetting(c, s).Ok? ==> Floor(ApplySetting(c, s).value)
  {
    OneSetting(c, s);
    if s.id == InitialWindowSize && s.value <= Flow.MAX_WINDOW_SIZE {
      var delta := s.value - c.peerInitial;
      if Acceptable(c, s) {
        assert forall sid :: sid in c.windows ==> Flow.Adjusted(c.windows[sid], delta).Ok?;
        assert forall sid :: sid in c.active ==> Flow.Adjusted(c.active[sid].sendWindow, delta).Ok?;
      } else {
        var sid :| sid in c.windows && c.windows[sid] - c.peerInitial + s.value > Flow.MAX_WINDOW_SIZE;
        assert Flow.Adjusted(c.windows[sid], delta).Err?;
      }
    }
  }

  lemma SameAcceptable(c: Conn, c': Conn, s: Setting)
    requires Shifted(c, c')
    ensures Acceptable(c, s) <==> Acceptable(c', s)
  {
    assert forall sid :: sid in c.windows <==> sid in c'.windows;
    if Acceptable(c', s) {
      forall sid | sid in c.windows && s.id == InitialWindowSize
        ensures c.windows[sid] - c.peerInitial + s.value <= Flow.MAX_WINDOW_SIZE
      {
        assert sid in c'.windows && c'.windows[sid] - c'.peerInitial + s.value <= Flow.MAX_WINDOW_SIZE;
      }
    }
  }

  /** SETTINGS is refused only for values out of range or a window above 2^31-1: never for one below the minimum. */
  lemma {:induction false} SettingsAccepted(c: Conn, settings: seq<Setting>)
    requires Floor(c) && Bounded(c)
    ensures ApplySettings(c, settings).Ok? <==> forall i :: 0 <= i < |settings| ==> Acceptable(c, settings[i])
    decreases |settings|
  {
    if settings != [] {
      OneAccepted(c, settings[0]);
      OneSetting(c, settings[0]);
      if ApplySetting(c, settings[0]).Ok? {
        var next := ApplySetting(c, settings[0]).value;
        var rest := settings[1..];
        hide Shifted, Floor, Bounded, Acceptable, ApplySetting;
        SettingsAccepted(next, rest);
        forall s: Setting ensures Acceptable(c, s) <==> Acceptable(next, s) {
          SameAcceptable(c, next, s);
        }
        assert forall i :: 0 <= i < |rest| ==> rest[i] == settings[i + 1];
        assert forall i :: 1 <= i < |settings| ==> settings[i] == rest[i - 1];
      }
    }
  }

  lemma InvFloor(c: Conn, t: Trace)
    requires Inv(c, t)
    ensures Floor(c) && Bounded(c)
  {
    InvBounded(c, t);
    forall sid | sid in c.windows ensures c.windows[sid] - c.peerInitial >= -Flow.MAX_WINDOW_SIZE {
      assert Balanced(c.windows[sid], c.peerInitial, Observe(t, sid));
    }
    assert forall sid :: sid in c.active ==> sid in c.windows.Keys;
  }

  // ---------------------------------------------------------------- opening a stream

  lemma UntrackedEvents(c: Conn, t: Trace, t': Trace, sid: U32)
    requires Loose(c, t, None) && OnlyOn(t, t', sid) && Books(t, t') && sid !in c.windows
    requires sid > c.lastSid ==> FreshView(Observe(t', sid))
    ensures Loose(c, t', None)
  {
    hide Numbers, Ids, OpenStreams, Places, Ties, Credits, OnlyOn, Books;
    UntrackedTies(c, t, t', sid);
    UntrackedCredits(c, t, t', sid);
  }

  lemma UntrackedCredits(c: Conn, t: Trace, t': Trace, sid: U32)
    requires Ids(c) && Credits(c, t) && OnlyOn(t, t', sid) && Books(t, t') && sid !in c.windows
    ensures Credits(c, t')
  {
    hide Observe, Balanced, ConnectionCredit, TotalSent, InitialSetting, Owed;
    forall x | x in c.windows ensures Observe(t', x) == Observe(t, x) {
      assert x % 2 == 1;
    }
  }

  lemma UntrackedTies(c: Conn, t: Trace, t': Trace, sid: U32)
    requires Ids(c) && Places(c, None) && Ties(c, t) && OnlyOn(t, t', sid) && sid !in c.windows
    requires sid > c.lastSid ==> FreshView(Observe(t', sid))
    ensures Ties(c, t')
  {
    hide Observe, ActiveTie, WaitingTie, SendingTie, FreshView;
    forall x | x in c.windows ensures Observe(t', x) == Observe(t, x) {
      assert x % 2 == 1;
    }
    forall x | x in c.active ensures x in c.windows {
      assert x in c.windows.Keys;
    }
    forall p | p in c.headerQ ensures p.sid in c.windows {
      assert p.sid in HeaderIds(c.headerQ);
    }
    forall p | p in c.bodyQ ensures p.sid in c.windows {
      assert p.sid in BodyIds(c.bodyQ);
    }
  }

  lemma RefusedState(c: Conn, t: Trace, sid: U32)
    requires Loose(c, t, None) && c.lastSid < sid < 0x8000_0000
    ensures Loose(c.(lastSid := sid, closed := MarkClosed(c.closed, sid, ClosedLimit(c.config))), t, None)
  {
    hide Ids, Places, Ties, Credits, MarkClosed, Distinct;
    MarkClosedKeeps(c.closed, sid, ClosedLimit(c.config));
    SideMove(c, c.(lastSid := sid, closed := MarkClosed(c.closed, sid, ClosedLimit(c.config))), t, None);
  }

  lemma RefusedEvents(t: Trace, f: Frame, sid: U32)
    requires f.header.streamId == sid && f.payload.Headers? && 0 < sid < 0x8000_0000 && SafeTrace(t)
    requires FreshView(Observe(t, sid))
    ensures var t' := After(After(t, Received(f)), Sent(RstFrame(sid, RefusedStream)));
            OnlyOn(t, t', sid) && Books(t, t') && SafeTrace(t')
  {
    var t1 := After(t, Received(f));
    ReceivedSafe(t, f);
    AbortSafe(t1, sid, RefusedStream);
  }

  /** A stream beyond the limit is refused and leaves no trace but its number. */
  lemma RefusedKeeps(c: Conn, t: Trace, f: Frame, sid: U32)
    requires Inv(c, t) && f.header.streamId == sid && f.payload.Headers? && c.lastSid < sid < 0x8000_0000
    ensures Inv(c.(lastSid := sid, closed := MarkClosed(c.closed, sid, ClosedLimit(c.config))),
                Extend(After(t, Received(f)), [Sent(RstFrame(sid, RefusedStream))]))
  {
    var t1 := After(t, Received(f));
    var t' := After(t1, Sent(RstFrame(sid, RefusedStream)));
    var c' := c.(lastSid := sid, closed := MarkClosed(c.closed, sid, ClosedLimit(c.config)));
    assert FreshView(Observe(t, sid));
    assert sid !in c.windows;
    hide Loose, SafeTrace, Observe, MarkClosed;
    ExtendOne(t1, Sent(RstFrame(sid, RefusedStream)));
    RefusedEvents(t, f, sid);
    RefusedState(c, t, sid);
    UntrackedEvents(c', t, t', sid);
  }

  function Admitted(c: Conn, sid: U32): Conn {
    c.(lastSid := sid, windows := c.windows[sid := c.peerInitial])
  }

  lemma AdmittedPlaces(c: Conn, sid: U32)
    requires Ids(c) && Places(c, None) && sid > c.lastSid
    ensures Places(Admitted(c, sid), Some(sid))
  {
    hide DistinctBodies, DistinctHeaders, HeaderIds, BodyIds;
    assert sid !in c.windows.Keys;
    assert Admitted(c, sid).windows.Keys == c.windows.Keys + {sid};
  }

  lemma AdmittedState(c: Conn, sid: U32)
    requires Numbers(c) && Ids(c) && OpenStreams(c) && |c.windows| < c.config.maxConcurrentStreams
    requires c.lastSid < sid < 0x8000_0000 && sid % 2 == 1
    ensures var c' := Admitted(c, sid); Numbers(c') && Ids(c') && OpenStreams(c')
  {
    hide Distinct;
    var c' := Admitted(c, sid);
    assert |c'.windows| == |c.windows| + 1;
    forall x | x in c'.active ensures OpenStream(c', x) {
      assert OpenStream(c, x);
    }
  }

  lemma AdmittedTies(c: Conn, t: Trace, t': Trace, sid: U32)
    requires Ids(c) && Places(c, None) && Ties(c, t) && OnlyOn(t, t', sid) && sid > c.lastSid
    ensures Ties(Admitted(c, sid), t')
  {
    hide Observe, ActiveTie, WaitingTie, SendingTie, FreshView;
    forall x | x in c.windows ensures x != sid && x != 0 {
      assert x % 2 == 1;
    }
    forall x | x in c.active ensures x in c.windows {
      assert x in c.windows.Keys;
    }
    forall p | p in c.headerQ ensures p.sid in c.windows {
      assert p.sid in HeaderIds(c.headerQ);
    }
    forall p | p in c.bodyQ ensures p.sid in c.windows {
      assert p.sid in BodyIds(c.bodyQ);
    }
  }

  lemma AdmittedCredits(c: Conn, t: Trace, t': Trace, sid: U32)
    requires Numbers(c) && Ids(c) && Credits(c, t) && OnlyOn(t, t', sid) && Books(t, t') && sid > c.lastSid
             && sid !in c.active
    requires Observe(t', sid).credit == 0 && Observe(t', sid).sent == []
    ensures Credits(Admitted(c, sid), t')
  {
    hide Observe, ConnectionCredit, TotalSent, InitialSetting, Distinct, Owed, Balanced, OnlyOn, Ids, Numbers;
    var c' := Admitted(c, sid);
    NewBalance(c, Observe(t', sid));
    forall x | x in c'.windows ensures Balanced(c'.windows[x], c.peerInitial, Observe(t', x)) {
      if x != sid {
        SameOther(c, t, t', sid, x);
      }
    }
  }

  lemma SameOther(c: Conn, t: Trace, t': Trace, sid: U32, x: U32)
    requires Ids(c) && OnlyOn(t, t', sid) && x in c.windows && x != sid
    ensures Observe(t', x) == Observe(t, x)
  {
    hide Observe;
    assert x % 2 == 1;
  }

  lemma NewBalance(c: Conn, v: View)
    requires Numbers(c) && v.credit == 0 && v.sent == []
    ensures Balanced(c.peerInitial, c.peerInitial, v)
  {
  }

  lemma NewNowhere(c: Conn, sid: U32)
    requires Ids(c) && Places(c, None) && sid > c.lastSid
    ensures sid !in c.active
  {
    assert sid !in c.windows.Keys;
  }

  lemma AdmittedLoose(c: Conn, t: Trace, t': Trace, sid: U32)
    requires Loose(c, t, None) && OnlyOn(t, t', sid) && Books(t, t') && |c.windows| < c.config.maxConcurrentStreams
    requires c.lastSid < sid < 0x8000_0000 && sid % 2 == 1
    requires Observe(t', sid).credit == 0 && Observe(t', sid).sent == []
    ensures Loose(Admitted(c, sid), t', Some(sid))
  {
    hide Numbers, Ids, OpenStreams, Places, Ties, Credits, OnlyOn, Books, Admitted, Observe;
    NewNowhere(c, sid);
    AdmittedState(c, sid);
    AdmittedPlaces(c, sid);
    AdmittedTies(c, t, t', sid);
    AdmittedCredits(c, t, t', sid);
  }

  // ---------------------------------------------------------------- header blocks

  /** A stream between places, fit to be open with the given parts. */
  ghost predicate Openable(c: Conn, t: Trace, sid: U32, st: Stream) {
    && sid in c.windows && st.sendWindow == c.windows[sid] && ActiveTie(st, Observe(t, sid))
    && st.state == Open && st.window == Flow.AsI32(c.config.initialWindow)
    && |st.requestBody| <= c.config.maxRequestSize
  }

  lemma ReopenedState(c: Conn, sid: U32, st: Stream, t: Trace)
    requires OpenStreams(c) && Openable(c, t, sid, st)
    requires st.endHeaders <==> c.contSid != Some(sid)
    requires st.endHeaders ==> !st.endStream
    requires c.contSid != Some(sid) || |c.contBlock| <= c.config.maxHeaderBlock
    ensures OpenStreams(c.(active := c.active[sid := st]))
  {
    hide Observe, ActiveTie;
    var c' := c.(active := c.active[sid := st]);
    forall x | x in c'.active ensures OpenStream(c', x) {
      if x != sid {
        assert OpenStream(c, x);
      }
    }
  }

  /** The stream goes on waiting for the rest of its request. */
  lemma Reopened(c: Conn, t: Trace, sid: U32, st: Stream)
    requires Loose(c, t, Some(sid)) && Openable(c, t, sid, st) && c.contSid.None? && st.endHeaders && !st.endStream
    ensures Loose(c.(active := c.active[sid := st]), t, None)
  {
    hide Numbers, Ids, OpenStreams, Places, Ties, Credits, Observe, ActiveTie;
    ReopenedState(c, sid, st, t);
    AttachActive(c, t, sid, st);
  }

  lemma DetachedNotActive(c: Conn, t: Trace, sid: U32, st: Stream)
    requires Loose(c, t, Some(sid))
    ensures sid !in c.active && c.active[sid := st] - {sid} == c.active
  {
    hide OpenStreams, Ties, Credits, Numbers, Ids;
    assert sid in Only(Some(sid));
  }

  lemma TableMove(c: Conn, t: Trace, sid: U32, table: Hpack.Table)
    requires Loose(c, t, Some(sid)) && c.contSid.None?
    ensures Loose(c.(table := table), t, Some(sid))
  {
    hide OpenStreams, Places, Ties, Credits, Distinct;
    SideMove(c, c.(table := table), t, Some(sid));
  }

  lemma FinishDecodedKeeps(c: Conn, t: Trace, sid: U32, st: Stream, b: Hpack.Block, routing: Routing)
    requires Loose(c, t, Some(sid)) && SafeTrace(t) && c.contSid.None? && Openable(c, t, sid, st.(endHeaders := true))
    ensures Good(FinishDecoded(c.(active := c.active[sid := st]), sid, b, routing), t)
  {
    var c1 := c.(table := b.table);
    var st1 := HeadersComplete(st, b.headers);
    hide Loose, SafeTrace, Observe, Dispatch, Extend, Good;
    DetachedNotActive(c, t, sid, st);
    assert c.active[sid := st][sid := st1] == c.active[sid := st1];
    TableMove(c, t, sid, b.table);
    ExtendNone(t);
    if st.endStream {
      DispatchKeeps(c1, t, sid, HalfClose(st1), routing);
    } else {
      hide ActiveTie;
      Reopened(c1, t, sid, st1);
      GoodNext(c1.(active := c.active[sid := st1]), t);
    }
  }

  lemma GoodNext(c: Conn, t: Trace)
    requires Inv(c, t)
    ensures Good(Next(c, []), t)
  {
    hide Inv;
  }

  /** A complete header block on a detached stream. */
  lemma FinishKeeps(c: Conn, t: Trace, sid: U32, st: Stream, block: seq<Byte>, routing: Routing)
    requires Loose(c, t, Some(sid)) && SafeTrace(t) && c.contSid.None? && Openable(c, t, sid, st.(endHeaders := true))
    ensures Good(FinishHeaders(c.(active := c.active[sid := st]), sid, block, routing), t)
  {
    hide Loose, SafeTrace, Openable, FinishDecoded, Hpack.DecodeBlock, Extend, MayStop;
    ExtendNone(t);
    StopOk(c, t, Some(sid));
    var r := Hpack.DecodeBlock(c.table, TABLE_LIMIT, c.config.maxHeaderBlock, block);
    if r.Ok? {
      FinishDecodedKeeps(c, t, sid, st, r.value, routing);
    }
  }
}
