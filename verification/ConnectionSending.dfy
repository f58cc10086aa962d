/**
 Scheduling rounds keep the invariant: what a response sends is the next part of its body, and its stream ends
 exactly when the body does.
 */
module ConnectionSending {
  import opened Base
  import opened Frame
  import opened Connection
  import opened Sources
  import opened ConnectionTrace
  import opened ConnectionInv
  import opened ConnectionSteps
  import Flow

  // ---------------------------------------------------------------- bodies

  /** What a chunk may be: the next bytes of the body, and the last ones exactly if `done`. */
  ghost predicate NextPart(whole: Body, sent: seq<Byte>, data: seq<Byte>, done: bool) {
    && sent + data <= Left(whole)
    && (Declared(whole).Some? ==>
          if done then |sent + data| == Declared(whole).value else |sent + data| <= Declared(whole).value)
    && (!whole.ReaderBody? && !done ==> |sent + data| < Declared(whole).value)
    && (Declared(whole).None? && done ==> AllRead(whole, sent + data))
  }

  lemma PartOf(a: seq<Byte>, b: seq<Byte>, rest: seq<Byte>, whole: seq<Byte>)
    requires a + (b + rest) == whole
    ensures a + b + rest == whole && a + b <= whole
  {
    assert a + b + rest == a + (b + rest);
  }

  /** What one read of a body may do, `sent` of it having been taken. */
  ghost predicate ReadFits(whole: Body, sent: seq<Byte>, r: Result<BodyStep>) {
    r.Ok? ==>
      match r.value.read
      case NotReady => Progress(whole, sent, r.value.body)
      case Done => NextPart(whole, sent, [], true)
      case Chunk(data, done) =>
        && data != [] && NextPart(whole, sent, data, done)
        && (!done ==> Progress(whole, sent + data, r.value.body))
  }

  lemma Cut(data: seq<Byte>, from: nat, to: nat)
    requires from <= to <= |data|
    ensures data[from..] == data[from..to] + data[to..]
  {
  }

  /** Taking the next part of a body of known length. */
  lemma NextBytes(whole: Body, sent: seq<Byte>, part: seq<Byte>, rest: Body)
    requires !rest.ReaderBody? && !whole.ReaderBody? && part != []
    requires sent + (part + Left(rest)) == Left(whole)
    requires Declared(whole).value == |sent| + (|part| + Declared(rest).value)
    ensures NextPart(whole, sent, part, Declared(rest).value == 0)
    ensures Declared(rest).value > 0 ==> Progress(whole, sent + part, rest)
  {
    hide Left, Declared;
    PartOf(sent, part, Left(rest), Left(whole));
    KnownLength(whole);
    KnownLength(rest);
  }

  lemma KnownLength(b: Body)
    requires !b.ReaderBody?
    ensures Declared(b).Some?
  {
  }

  lemma ReadBytesFits(whole: Body, sent: seq<Byte>, b: Body, max: nat)
    requires Progress(whole, sent, b) && max > 0 && b.BytesBody?
    ensures ReadFits(whole, sent, ReadChunk(b, max))
  {
    var end := Min(b.offset + max, |b.data|);
    var part, rest := b.data[b.offset..end], BytesBody(b.data, end);
    Cut(b.data, b.offset, end);
    assert Left(b) == part + Left(rest) && Declared(rest).value == |b.data| - end;
    NextBytes(whole, sent, part, rest);
    hide Left, Progress, NextPart;
  }

  lemma ReadFileFits(whole: Body, sent: seq<Byte>, b: Body, max: nat)
    requires Progress(whole, sent, b) && max > 0 && b.FileBody?
    ensures ReadFits(whole, sent, ReadChunk(b, max))
  {
    hide Yields;
    var r := ReadSource(b.script, Min(b.remaining, max));
    ReadYields(b.script, Min(b.remaining, max));
    if r.Got? && r.bytes != [] {
      PartOf(sent, r.bytes, Yields(r.rest), Left(whole));
    }
  }

  lemma ReadUpstreamFits(whole: Body, sent: seq<Byte>, b: Body, max: nat)
    requires Progress(whole, sent, b) && max > 0 && b.ReaderBody?
    ensures ReadFits(whole, sent, ReadChunk(b, max))
  {
    hide Yields;
    assert sent + [] == sent;
    var want := if b.left.Some? then Min(b.left.value, max) else max;
    var r := ReadSource(b.script, want);
    if want > 0 {
      ReadYields(b.script, want);
    }
    if r.Got? && r.bytes != [] {
      PartOf(sent, r.bytes, Yields(r.rest), Left(whole));
    }
  }

  /** Reading never loses, repeats or reorders a byte of the body, and ends when the declared length is reached. */
  lemma ReadProgress(whole: Body, sent: seq<Byte>, b: Body, max: nat)
    requires Progress(whole, sent, b) && max > 0
    ensures ReadFits(whole, sent, ReadChunk(b, max))
  {
    hide ReadFits, ReadChunk, Left, Declared;
    match b
    case BytesBody(_, _) => ReadBytesFits(whole, sent, b, max);
    case FileBody(_, _) => ReadFileFits(whole, sent, b, max);
    case ReaderBody(_, _) => ReadUpstreamFits(whole, sent, b, max);
  }

  // ---------------------------------------------------------------- one DATA frame

  /** What a DATA frame does to a history. */
  ghost predicate DataSent(t: Trace, t': Trace, sid: U32, data: seq<Byte>, endStream: bool) {
    && OnlyOn(t, t', sid)
    && Observe(t', sid) == Observe(t, sid).(sent := Observe(t, sid).sent + data,
                                            phase := if endStream then Finished else Streaming)
    && ConnectionCredit(t') == ConnectionCredit(t) && InitialSetting(t') == InitialSetting(t)
    && TotalSent(t') == TotalSent(t) + |data| && Owed(t') == Owed(t)
    && WritingOf(t') == WritingOf(t) && AllWellFormed(t') == AllWellFormed(t)
  }

  lemma DataEvent(t: Trace, sid: U32, data: seq<Byte>, endStream: bool)
    requires 0 < sid < 0x8000_0000 && |data| <= MAX_ALLOWED_FRAME_SIZE
    requires Observe(t, sid).phase == Streaming && WritingOf(t) == Clear
    ensures DataSent(t, After(t, Sent(DataFrame(sid, data, endStream))), sid, data, endStream)
  {
    assert WellFormed(DataFrame(sid, data, endStream));
  }

  lemma DataSafe(t: Trace, t': Trace, sid: U32, data: seq<Byte>, endStream: bool, b: Body)
    requires SafeTrace(t) && sid != 0 && DataSent(t, t', sid, data, endStream)
    requires SendingTie(b, Observe(t, sid))
    requires NextPart(Observe(t, sid).body.value, Observe(t, sid).sent, data, endStream)
    ensures SafeTrace(t')
  {
    hide Observe, WritingOf, AllWellFormed, ConnectionCredit, TotalSent, InitialSetting, Owed, Left, Declared;
    assert SafeView(Observe(t, sid));
    SafeEvents(t, t', sid);
  }

  /** Both windows still are what the history says. */
  lemma DataBalance(c: Conn, t: Trace, t': Trace, sid: U32, data: seq<Byte>, endStream: bool)
    requires Numbers(c) && Credits(c, t) && sid in c.windows && DataSent(t, t', sid, data, endStream)
    requires |data| <= c.connWindow && |data| <= c.windows[sid]
    ensures Balanced(c.windows[sid] - |data|, c.peerInitial, Observe(t', sid))
    ensures 0 <= c.connWindow - |data| <= Flow.MAX_WINDOW_SIZE
    ensures c.connWindow - |data| == PEER_DEFAULT_WINDOW + ConnectionCredit(t') - TotalSent(t')
    ensures InitialSetting(t') == InitialSetting(t) && Owed(t') == Owed(t) && OnlyOn(t, t', sid)
  {
    hide OnlyOn, Observe, ConnectionCredit, TotalSent, InitialSetting, Owed, WritingOf, AllWellFormed;
    assert Balanced(c.windows[sid], c.peerInitial, Observe(t, sid));
  }

  /** The books balance after a DATA frame that both windows allow. */
  lemma DataKeepsLoose(c: Conn, t: Trace, t': Trace, sid: U32, data: seq<Byte>, endStream: bool)
    requires Loose(c, t, Some(sid)) && sid in c.windows && DataSent(t, t', sid, data, endStream)
    requires |data| <= c.connWindow && |data| <= c.windows[sid]
    ensures Loose(WithCredit(c, sid, c.windows[sid] - |data|, c.connWindow - |data|), t', Some(sid))
  {
    hide Numbers, Ids, Credits, OpenStreams, Ties, Places, OnlyOn, Observe, ConnectionCredit, TotalSent, InitialSetting;
    hide Owed;
    hide WritingOf, AllWellFormed, Balanced, WithCredit, DataSent;
    DataBalance(c, t, t', sid, data, endStream);
    DetachedEvents(c, t, t', sid, c.windows[sid] - |data|, c.connWindow - |data|);
  }

  lemma LastDataKeeps(c: Conn, t: Trace, sid: U32, data: seq<Byte>, b: Body)
    requires Loose(c, t, Some(sid)) && sid in c.windows && SafeTrace(t) && SendingTie(b, Observe(t, sid))
    requires |data| <= MAX_ALLOWED_FRAME_SIZE && |data| <= c.connWindow && |data| <= c.windows[sid]
    requires NextPart(Observe(t, sid).body.value, Observe(t, sid).sent, data, true)
    ensures Inv(Release(WithCredit(c, sid, c.windows[sid] - |data|, c.connWindow - |data|), sid),
                Extend(t, [Sent(DataFrame(sid, data, true))]))
  {
    StreamIdOk(c, sid);
    var t' := After(t, Sent(DataFrame(sid, data, true)));
    ExtendOne(t, Sent(DataFrame(sid, data, true)));
    DataEvent(t, sid, data, true);
    hide Loose, SafeTrace, Release, WithCredit, DataSent, Observe, NextPart, Extend;
    DataSafe(t, t', sid, data, true, b);
    DataKeepsLoose(c, t, t', sid, data, true);
    ReleaseDetached(WithCredit(c, sid, c.windows[sid] - |data|, c.connWindow - |data|), t', sid);
  }

  lemma MoreDataKeeps(c: Conn, t: Trace, sid: U32, data: seq<Byte>, b: Body, rest: Body)
    requires Loose(c, t, Some(sid)) && sid in c.windows && SafeTrace(t) && SendingTie(b, Observe(t, sid))
    requires |data| <= MAX_ALLOWED_FRAME_SIZE && |data| <= c.connWindow && |data| <= c.windows[sid]
    requires NextPart(Observe(t, sid).body.value, Observe(t, sid).sent, data, false)
    requires Progress(Observe(t, sid).body.value, Observe(t, sid).sent + data, rest)
    ensures var c' := WithCredit(c, sid, c.windows[sid] - |data|, c.connWindow - |data|);
            Inv(c'.(bodyQ := c'.bodyQ + [PendingResponse(sid, rest)]), Extend(t, [Sent(DataFrame(sid, data, false))]))
  {
    StreamIdOk(c, sid);
    var t' := After(t, Sent(DataFrame(sid, data, false)));
    ExtendOne(t, Sent(DataFrame(sid, data, false)));
    DataEvent(t, sid, data, false);
    assert SendingTie(rest, Observe(t', sid));
    hide Loose, SafeTrace, WithCredit, DataSent, Observe, NextPart, Extend, SendingTie, Progress;
    DataSafe(t, t', sid, data, false, b);
    DataKeepsLoose(c, t, t', sid, data, false);
    AttachBody(WithCredit(c, sid, c.windows[sid] - |data|, c.connWindow - |data|), t', PendingResponse(sid, rest));
  }

  // ---------------------------------------------------------------- rounds

  lemma SameCredit(c: Conn, sid: U32)
    requires sid in c.windows
    ensures WithCredit(c, sid, c.windows[sid], c.connWindow) == c
  {
    assert c.windows[sid := c.windows[sid]] == c.windows;
  }

  /** What a read promises about the stream it is for. */
  lemma ReadTie(v: View, b: Body, max: nat)
    requires SendingTie(b, v) && max > 0
    ensures var r := ReadChunk(b, max);
            r.Ok? ==>
              match r.value.read
              case NotReady => SendingTie(r.value.body, v)
              case Done => NextPart(v.body.value, v.sent, [], true)
              case Chunk(data, done) =>
                && data != [] && NextPart(v.body.value, v.sent, data, done)
                && (!done ==> Progress(v.body.value, v.sent + data, r.value.body))
  {
    ReadProgress(v.body.value, v.sent, b, max);
  }

  lemma SendReadKeeps(c: Conn, t: Trace, sid: U32, b: Body, max: nat)
    requires Loose(c, t, Some(sid)) && sid in c.windows && SafeTrace(t) && SendingTie(b, Observe(t, sid))
    requires 0 < max <= c.connWindow && max <= c.windows[sid] && max <= MAX_ALLOWED_FRAME_SIZE
    requires ReadChunk(b, max).Ok?
    ensures var turn := SendRead(c, sid, ReadChunk(b, max).value); Inv(turn.conn, Extend(t, turn.out))
  {
    hide Loose, SafeTrace, Observe, NextPart, Progress, ReadChunk, Release, Extend;
    var v := Observe(t, sid);
    var step := ReadChunk(b, max).value;
    ReadTie(v, b, max);
    match step.read
    case NotReady =>
      assert Extend(t, []) == t by { ExtendNone(t); }
      AttachBody(c, t, PendingResponse(sid, step.body));
    case Done =>
      LastDataKeeps(c, t, sid, [], b);
      SameCredit(c, sid);
    case Chunk(data, done) =>
      if done {
        LastDataKeeps(c, t, sid, data, b);
      } else {
        MoreDataKeeps(c, t, sid, data, b, step.body);
      }
  }

  lemma FrontBody(c: Conn, t: Trace)
    requires Loose(c, t, None) && c.bodyQ != []
    ensures var p := c.bodyQ[0];
            && Loose(c.(bodyQ := c.bodyQ[1..]), t, Some(p.sid)) && SendingTie(p.body, Observe(t, p.sid))
            && p.sid in c.windows && Observe(t, p.sid).phase == Streaming
  {
    hide Observe, OpenStreams, Ties, Credits, Numbers;
    DetachBody(c, t);
    StreamIdOk(c.(bodyQ := c.bodyQ[1..]), c.bodyQ[0].sid);
  }

  lemma ServeFrontKeeps(c: Conn, t: Trace, quota: nat)
    requires Inv(c, t) && c.bodyQ != [] && quota > 0
    ensures var turn := ServeFront(c, quota); Inv(turn.conn, Extend(t, turn.out))
  {
    hide Loose, SafeTrace, Observe, ReadChunk, SendRead, Release, SendingTie, Extend;
    var p := c.bodyQ[0];
    var c1 := c.(bodyQ := c.bodyQ[1..]);
    FrontBody(c, t);
    ExtendNone(t);
    if c1.windows[p.sid] <= 0 || c1.connWindow <= 0 {
      AttachBody(c1, t, p);
    } else {
      var max := Amount(c1, quota, c1.windows[p.sid]);
      var r := ReadChunk(p.body, max);
      if r.Ok? {
        SendReadKeeps(c1, t, p.sid, p.body, max);
      } else {
        AbortKeeps(c1, t, p.sid, r.code);
      }
    }
  }

  lemma {:induction false} ServeManyKeeps(c: Conn, t: Trace, quota: nat, n: nat)
    requires Inv(c, t) && n <= |c.bodyQ| && quota > 0
    ensures var turn := ServeMany(c, quota, n); Inv(turn.conn, Extend(t, turn.out))
    decreases n
  {
    hide Inv, ServeFront, Extend;
    if n == 0 {
      ExtendNone(t);
    } else {
      var first := ServeFront(c, quota);
      ServeFrontKeeps(c, t, quota);
      ServeManyKeeps(first.conn, Extend(t, first.out), quota, n - 1);
      ExtendAppend(t, first.out, ServeMany(first.conn, quota, n - 1).out);
    }
  }

  /** A scheduling round, whatever its bodies yield, keeps the invariant. */
  lemma ScheduleKeeps(c: Conn, t: Trace)
    requires Inv(c, t)
    ensures var turn := Schedule(c); Inv(turn.conn, Extend(t, turn.out))
  {
    hide Inv, ServeMany, Extend, Share;
    ExtendNone(t);
    if c.bodyQ != [] && c.connWindow > 0 {
      ServeManyKeeps(c, t, Share(c.connWindow, |c.bodyQ|), |c.bodyQ|);
    }
  }

  /** A poll of the upstreams, whatever they answer, keeps the invariant. */
  lemma PollKeeps(c: Conn, t: Trace)
    requires Inv(c, t)
    ensures var turn := Poll(c); Inv(turn.conn, Extend(t, turn.out))
  {
    PollManyKeeps(c, t, |c.headerQ|);
  }
}
