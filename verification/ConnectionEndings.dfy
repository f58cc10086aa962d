/**
 Streams that have ended. The server remembers the latest of them, which is what makes frames that were already under
 way harmless; exactly when that is so, and what a late WINDOW_UPDATE does.
 */
module ConnectionEndings {
  import opened Base
  import opened Frame
  import opened Connection
  import opened ConnectionTrace
  import opened ConnectionInv
  import opened ConnectionRuns
  import opened ConnectionLedger
  import ConnectionFrames

  // ---------------------------------------------------------------- the latest streams that ended

  /** The streams that have ended, each once, in the order in which they first did. */
  function Ended(t: Trace): seq<U32> {
    match t
    case Start => []
    case After(prev, e) =>
      if Ending(e).Some? && Ending(e).value !in Ended(prev) then Ended(prev) + [Ending(e).value] else Ended(prev)
  }

  function Latest(s: seq<U32>, n: nat): seq<U32> {
    if |s| <= n then s else s[|s| - n..]
  }

  /** No stream is ended again once `n` others have ended since. */
  predicate NeverAgain(t: Trace, n: nat) {
    match t
    case Start => true
    case After(prev, e) =>
      && NeverAgain(prev, n)
      && (Ending(e).Some? && Ending(e).value in Ended(prev) ==> Ending(e).value in Latest(Ended(prev), n))
  }

  /** All along, what is to be remembered are the latest `n` streams that ended. */
  predicate AlwaysLatest(t: Trace, n: nat) {
    match t
    case Start => true
    case After(prev, _) => AlwaysLatest(prev, n) && Remembered(t, n) == Latest(Ended(t), n)
  }

  lemma LatestSnoc(s: seq<U32>, v: U32, n: nat)
    requires n > 0
    ensures Latest(s + [v], n) == Latest(Latest(s, n) + [v], n) && v in Latest(Latest(s, n) + [v], n)
  {
    var all := Latest(s, n) + [v];
    assert Latest(all, n)[|Latest(all, n)| - 1] == v;
  }

  lemma RememberLatest(closed: seq<U32>, e: Event, n: nat)
    requires n > 0 && Ending(e).Some? && Ending(e).value !in closed
    ensures Remember(closed, e, n) == Latest(closed + [Ending(e).value], n)
  {
  }

  /** The list is always the latest streams that ended exactly if no forgotten stream is ended again. */
  lemma {:induction false} RememberedExactly(t: Trace, n: nat)
    requires n > 0
    ensures AlwaysLatest(t, n) <==> NeverAgain(t, n)
    ensures NeverAgain(t, n) ==> Remembered(t, n) == Latest(Ended(t), n)
  {
    match t
    case Start =>
    case After(prev, e) =>
      RememberedExactly(prev, n);
      hide Latest;
      var ended := Ended(prev);
      if NeverAgain(prev, n) && Ending(e).Some? {
        var v := Ending(e).value;
        if v !in Latest(ended, n) {
          RememberLatest(Latest(ended, n), e, n);
          LatestSnoc(ended, v, n);
          LatestPart(ended, n);
        }
      }
  }

  lemma LatestPart(s: seq<U32>, n: nat)
    ensures forall v :: v in Latest(s, n) ==> v in s
  {
  }

  /** In every run in which that does not happen, the server's list is the latest streams that ended. */
  lemma ClosedAreLatest(config: Config, inputs: seq<Input>)
    requires forall i :: i in inputs ==> Possible(i)
    ensures var s := Execute(config, inputs); var n := Max(2 * config.maxConcurrentStreams, 16);
            s.Running? && NeverAgain(s.history, n) ==> s.conn.closed == Latest(Ended(s.history), n)
  {
    hide Execute, NeverAgain, Latest, Ended, Remembered;
    LedgersKept(config, inputs);
    RememberedExactly(Execute(config, inputs).history, Max(2 * config.maxConcurrentStreams, 16));
  }

  // ---------------------------------------------------------------- a run that forgets

  /** The client resets streams 1 to n. */
  function Resets(n: nat): seq<Input>
    requires n < 0x8000_0000
  {
    if n == 0 then [] else Resets(n - 1) + [Incoming(RstFrame(n, Cancel), Upstream([]))]
  }

  function UpTo(n: nat): (s: seq<U32>)
    requires n < 0x8000_0000
    ensures |s| == n && forall i :: 0 <= i < n ==> s[i] == i + 1
  {
    seq(n, i requires 0 <= i < n => i + 1)
  }

  /** A reset is received, and nothing else happens. */
  lemma OneReset(c: Conn, t: Trace, sid: U32)
    requires 0 < sid < 0x8000_0000 && c.contSid.None?
    ensures var i := Incoming(RstFrame(sid, Cancel), Upstream([]));
            && Possible(i)
            && var s := React(c, t, i);
               s.Running? && s.history == After(t, Received(RstFrame(sid, Cancel))) && s.conn.contSid.None?
  {
    hide MarkClosed, WithoutHeader, WithoutBody;
    ExtendNone(After(t, Received(RstFrame(sid, Cancel))));
  }

  lemma {:induction false} AfterResets(config: Config, n: nat)
    requires n < 0x8000_0000
    ensures forall i :: i in Resets(n) ==> Possible(i)
    ensures var s := Execute(config, Resets(n));
            s.Running? && s.conn.contSid.None? && Ended(s.history) == UpTo(n)
  {
    hide React, Possible, Opening, RstFrame;
    if n == 0 {
      NothingEnded(config);
    } else {
      AfterResets(config, n - 1);
      var s := Execute(config, Resets(n - 1));
      OneReset(s.conn, s.history, n);
      OneMore(config, Resets(n - 1), Incoming(RstFrame(n, Cancel), Upstream([])), s.conn, s.history);
      ResetEnds(s.history, n);
    }
  }

  lemma NothingEnded(config: Config)
    ensures var s := Execute(config, []); s.Running? && s.conn.contSid.None? && Ended(s.history) == UpTo(0)
  {
    assert Ended(Start) == [] && Ending(Sent(ServerSettings(config))).None?;
  }

  lemma ResetEnds(t: Trace, n: nat)
    requires 0 < n < 0x8000_0000 && Ended(t) == UpTo(n - 1)
    ensures Ended(After(t, Received(RstFrame(n, Cancel)))) == UpTo(n)
  {
  }

  /**
   For every limit there is a run after which the list is not that of the latest streams: with one more reset than
   the list holds, stream 1 is forgotten, and a second reset of it pushes out stream 2, which had ended later.
   */
  lemma ForgottenAgain(config: Config)
    requires ClosedLimit(config) < 0x7FFF_FFFE
    ensures var n := ClosedLimit(config); var inputs := Resets(n + 1) + Resets(1);
            && (forall i :: i in inputs ==> Possible(i))
            && var s := Execute(config, inputs);
               && s.Running? && s.conn.closed != Latest(Ended(s.history), n) && !NeverAgain(s.history, n)
  {
    hide React, Execute, NeverAgain;
    var n := ClosedLimit(config);
    AfterResets(config, n + 1);
    var s := Execute(config, Resets(n + 1));
    var again := Incoming(RstFrame(1, Cancel), Upstream([]));
    assert Resets(1) == [again] by { assert Resets(0) == []; }
    OneReset(s.conn, s.history, 1);
    OneMore(config, Resets(n + 1), again, s.conn, s.history);
    RunRecorded(config, Resets(n + 1) + [again]);
    Repeats(s.history, n);
  }

  lemma Repeats(t: Trace, n: nat)
    requires 0 < n < 0x7FFF_FFFE && Ended(t) == UpTo(n + 1)
    ensures var t' := After(t, Received(RstFrame(1, Cancel)));
            Remembered(t', n) != Latest(Ended(t'), n) && !NeverAgain(t', n)
  {
    var e := Received(RstFrame(1, Cancel));
    var t' := After(t, e);
    assert UpTo(n + 1)[0] == 1 && 1 !in Latest(UpTo(n + 1), n);
    if 1 !in Remembered(t, n) {
      RememberLatest(Remembered(t, n), e, n);
      LatestSnoc(Remembered(t, n), 1, n);
      RememberedShort(t, n);
    }
    assert 1 in Remembered(t', n);
  }

  lemma {:induction false} RememberedShort(t: Trace, n: nat)
    ensures |Remembered(t, n)| <= n
  {
    match t
    case Start =>
    case After(prev, _) => RememberedShort(prev, n);
  }

  // ---------------------------------------------------------------- late frames

  /**
   In every run, WINDOW_UPDATE on a stream ends the connection exactly if it takes a tracked window out of range, or
   is for a stream that is neither tracked nor remembered. On a remembered one it changes nothing.
   */
  lemma LateUpdate(config: Config, inputs: seq<Input>, sid: U32, n: U32)
    requires (forall i :: i in inputs ==> Possible(i)) && sid != 0 && n > 0
    ensures var s := Execute(config, inputs);
            s.Running? ==>
              var step := OnWindowUpdate(s.conn, sid, n);
              && (step.Stop? <==>
                    if sid in s.conn.windows then s.conn.windows[sid] + n > 0x7FFF_FFFF
                    else sid !in Remembered(s.history, Max(2 * config.maxConcurrentStreams, 16)))
              && (sid !in s.conn.windows && step.Next? ==> step == Next(s.conn, []))
  {
    hide Execute, Remembered, OnWindowUpdate, Inv, ConnectionFrames.Credited;
    RunSound(config, inputs);
    LedgersKept(config, inputs);
    var s := Execute(config, inputs);
    if s.Running? {
      UpdateActs(s.conn, s.history, sid, n);
    }
  }

  lemma UpdateActs(c: Conn, t: Trace, sid: U32, n: U32)
    requires Inv(c, t) && sid != 0 && n > 0
    ensures var step := OnWindowUpdate(c, sid, n);
            && (step.Stop? <==> if sid in c.windows then c.windows[sid] + n > 0x7FFF_FFFF else sid !in c.closed)
            && (sid !in c.windows && step.Next? ==> step == Next(c, []))
  {
    hide Loose, SafeTrace, OnWindowUpdate;
    ConnectionFrames.StreamUpdate(c, t, sid, n);
  }

  /** A response that is complete, or was cut short, leaves its stream untracked. */
  lemma OverUntracked(config: Config, inputs: seq<Input>, sid: U32)
    requires forall i :: i in inputs ==> Possible(i)
    ensures var s := Execute(config, inputs);
            s.Running? && Observe(s.history, sid).phase in {Finished, Aborted} ==> sid !in s.conn.windows
  {
    hide Execute, Inv, Observe;
    RunSound(config, inputs);
    var s := Execute(config, inputs);
    if s.Running? {
      TrackedOpen(s.conn, s.history, sid);
    }
  }

  lemma TrackedOpen(c: Conn, t: Trace, sid: U32)
    requires Inv(c, t)
    ensures sid in c.windows ==> Observe(t, sid).phase in {NotStarted, Streaming}
  {
    hide Observe, SafeTrace, OpenStreams, Credits, Numbers, Ids, Progress;
    if sid in c.windows.Keys {
      if sid in HeaderIds(c.headerQ) {
        var p :| p in c.headerQ && p.sid == sid;
        assert WaitingTie(Observe(t, p.sid));
      } else if sid in BodyIds(c.bodyQ) {
        var p :| p in c.bodyQ && p.sid == sid;
        assert SendingTie(p.body, Observe(t, p.sid));
      } else {
        assert ActiveTie(c.active[sid], Observe(t, sid));
      }
    }
  }
}
