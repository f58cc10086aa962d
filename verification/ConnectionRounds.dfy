/**
 Scheduling rounds seen as a whole: what each response gets, and why polling and sending come to rest.
 */
module ConnectionRounds {
  import opened Base
  import opened Frame
  import opened Connection
  import opened ConnectionTrace
  import opened ConnectionInv
  import opened ConnectionSteps
  import opened ConnectionSending
  import Sources

  // ---------------------------------------------------------------- coming to rest

  /** What polling and sending use up. */
  function Work(c: Conn): int {
    2 * |c.headerQ| + |c.bodyQ| + c.connWindow
  }

  lemma PollFrontWork(c: Conn)
    requires c.headerQ != []
    ensures var turn := PollFront(c); Work(turn.conn) <= Work(c) && (turn.progressed ==> Work(turn.conn) < Work(c))
  {
    hide HeaderFrames, HeaderBlock, ResponseBody, MarkClosed;
  }

  lemma {:induction false} PollManyWork(c: Conn, n: nat)
    requires n <= |c.headerQ|
    ensures var turn := PollMany(c, n); Work(turn.conn) <= Work(c) && (turn.progressed ==> Work(turn.conn) < Work(c))
    decreases n
  {
    hide PollFront, Work;
    if n > 0 {
      PollFrontWork(c);
      PollManyWork(PollFront(c).conn, n - 1);
    }
  }

  lemma ServeFrontWork(c: Conn, quota: nat)
    requires c.bodyQ != []
    ensures var turn := ServeFront(c, quota);
            Work(turn.conn) <= Work(c) && (turn.progressed ==> Work(turn.conn) < Work(c))
  {
    hide ReadChunk, MarkClosed;
  }

  lemma {:induction false} ServeManyWork(c: Conn, quota: nat, n: nat)
    requires n <= |c.bodyQ|
    ensures var turn := ServeMany(c, quota, n);
            Work(turn.conn) <= Work(c) && (turn.progressed ==> Work(turn.conn) < Work(c))
    decreases n
  {
    hide ServeFront, Work;
    if n > 0 {
      ServeFrontWork(c, quota);
      ServeManyWork(ServeFront(c, quota).conn, quota, n - 1);
    }
  }

  /** Whenever a poll or a round reports progress, the work left has become strictly smaller. */
  lemma ProgressUsesWork(c: Conn)
    ensures Work(Poll(c).conn) <= Work(c) && (Poll(c).progressed ==> Work(Poll(c).conn) < Work(c))
    ensures Work(Schedule(c).conn) <= Work(c) && (Schedule(c).progressed ==> Work(Schedule(c).conn) < Work(c))
  {
    hide PollMany, ServeMany, Work, Share;
    PollManyWork(c, |c.headerQ|);
    if c.bodyQ != [] && c.connWindow > 0 {
      ServeManyWork(c, Share(c.connWindow, |c.bodyQ|), |c.bodyQ|);
    }
  }

  lemma InvWork(c: Conn, t: Trace)
    requires Inv(c, t)
    ensures Work(c) >= 0
  {
    hide SafeTrace, Ids, OpenStreams, Places, Ties, Credits;
  }

  /** One pass of the main loop before it reads the socket. */
  lemma LoopPass(c: Conn, t: Trace)
    requires Inv(c, t)
    ensures var p := Poll(c); var t1 := Extend(t, p.out);
            && Inv(p.conn, t1) && 0 <= Work(p.conn) <= Work(c)
            && (p.progressed ==> Work(p.conn) < Work(c))
            && var s := Schedule(p.conn); var t2 := Extend(t1, s.out);
               && Inv(s.conn, t2) && 0 <= Work(s.conn) <= Work(p.conn)
               && (s.progressed ==> Work(s.conn) < Work(p.conn))
  {
    hide Inv, Poll, Schedule, Work, Extend;
    PollKeeps(c, t);
    ProgressUsesWork(c);
    var p := Poll(c);
    var t1 := Extend(t, p.out);
    ScheduleKeeps(p.conn, t1);
    ProgressUsesWork(p.conn);
    InvWork(p.conn, t1);
    InvWork(Schedule(p.conn).conn, Extend(t1, Schedule(p.conn).out));
  }

  /** Bytes that are there to be sent: a byte vector's or a file's, as opposed to an upstream's. */
  predicate AtHand(b: Body) {
    b.BytesBody? || b.FileBody?
  }

  /** Nothing at hand can be sent: the connection's window is used up, or that of every stream with bytes at hand. */
  predicate Resting(c: Conn) {
    c.connWindow <= 0 || forall p :: p in c.bodyQ && AtHand(p.body) ==> p.sid in c.windows && c.windows[p.sid] <= 0
  }

  /** Bytes at hand are never waited for: reading them sends something, or fails. */
  lemma AtHandReady(b: Body, max: nat)
    requires AtHand(b) && max > 0
    ensures var r := ReadChunk(b, max); r.Ok? ==> r.value.read.Chunk? && (r.value.read.data != [] || r.value.read.done)
  {
    hide Sources.ReadSource;
  }

  /**
   What a front response without progress leaves behind: itself at most, last in the queue, and still at hand if it
   was.
   */
  lemma FrontResting(c: Conn, quota: nat)
    requires c.bodyQ != [] && quota > 0 && c.connWindow > 0 && !ServeFront(c, quota).progressed
    ensures var c', p := ServeFront(c, quota).conn, c.bodyQ[0];
            && c'.windows == c.windows && c'.connWindow == c.connWindow
            && (|| c'.bodyQ == c.bodyQ[1..]
                || exists rest :: c'.bodyQ == c.bodyQ[1..] + [rest] && rest.sid == p.sid
                                  && (AtHand(rest.body) ==> p.sid in c.windows && c.windows[p.sid] <= 0))
  {
    hide ReadChunk, MarkClosed;
    var p := c.bodyQ[0];
    if p.sid in c.windows && c.windows[p.sid] > 0 {
      var c1 := c.(bodyQ := c.bodyQ[1..]);
      var amount := Amount(c1, quota, c.windows[p.sid]);
      ReadKind(p.body, amount);
      if AtHand(p.body) {
        AtHandReady(p.body, amount);
      }
    }
  }

  lemma ReadKind(b: Body, max: nat)
    ensures var r := ReadChunk(b, max); r.Ok? ==> AtHand(r.value.body) == AtHand(b)
  {
    hide Sources.ReadSource;
  }

  /** Without progress, the responses served are back in the queue, and none of them can send what it has at hand. */
  lemma {:induction false} ManyResting(c: Conn, quota: nat, n: nat)
    requires n <= |c.bodyQ| && quota > 0 && c.connWindow > 0 && !ServeMany(c, quota, n).progressed
    ensures var c' := ServeMany(c, quota, n).conn; c'.windows == c.windows && c'.connWindow == c.connWindow
    ensures var c' := ServeMany(c, quota, n).conn;
            forall p :: p in c'.bodyQ && AtHand(p.body) ==>
                p in c.bodyQ[n..] || (p.sid in c.windows && c.windows[p.sid] <= 0)
    decreases n
  {
    hide ServeFront, AtHand;
    if n > 0 {
      FrontResting(c, quota);
      var c1 := ServeFront(c, quota).conn;
      ManyResting(c1, quota, n - 1);
      forall p | p in c1.bodyQ[n - 1..] && AtHand(p.body)
        ensures p in c.bodyQ[n..] || (p.sid in c.windows && c.windows[p.sid] <= 0)
      {
        if c1.bodyQ == c.bodyQ[1..] {
          assert c1.bodyQ[n - 1..] == c.bodyQ[n..];
        } else {
          var rest :| c1.bodyQ == c.bodyQ[1..] + [rest] && rest.sid == c.bodyQ[0].sid
                      && (AtHand(rest.body) ==> rest.sid in c.windows && c.windows[rest.sid] <= 0);
          assert c1.bodyQ[n - 1..] == c.bodyQ[n..] + [rest];
        }
      }
    }
  }

  /** A round without progress finds, or leaves, nothing at hand that can be sent. */
  lemma RoundResting(c: Conn)
    requires !Schedule(c).progressed
    ensures Resting(Schedule(c).conn)
  {
    hide ServeMany, AtHand;
    if c.bodyQ != [] && c.connWindow > 0 {
      ManyResting(c, Share(c.connWindow, |c.bodyQ|), |c.bodyQ|);
      assert c.bodyQ[|c.bodyQ|..] == [];
    }
  }

  datatype Rest = Rest(conn: Conn, history: Trace, restarts: nat)

  /**
   The main loop between two socket reads: poll, and start over if there was progress; send, and start over if
   there was progress. It comes to rest after at most as many restarts as there is work, and then there is nothing at
   hand that could be sent.
   */
  ghost function Settled(c: Conn, t: Trace): (r: Rest)
    requires Inv(c, t)
    ensures Inv(r.conn, r.history) && Resting(r.conn)
    ensures 0 <= Work(r.conn) && r.restarts <= Work(c) - Work(r.conn)
    decreases Work(c)
  {
    InvWork(c, t);
    LoopPass(c, t);
    var p := Poll(c);
    var t1 := Extend(t, p.out);
    if p.progressed then
      var r := Settled(p.conn, t1);
      r.(restarts := r.restarts + 1)
    else
      var s := Schedule(p.conn);
      var t2 := Extend(t1, s.out);
      if s.progressed then
        var r := Settled(s.conn, t2);
        r.(restarts := r.restarts + 1)
      else
        RoundResting(p.conn);
        Rest(s.conn, t2, 0)
  }

  // ---------------------------------------------------------------- equal shares

  /** What one response does in a round: the frames it sends, what remains of it, and how much credit it uses. */
  datatype Served = Served(out: seq<Event>, rest: Option<PendingResponse>, used: nat)

  function AfterRead(sid: U32, read: BodyRead, body: Body): Served
    requires read.Chunk? ==> |read.data| <= MAX_ALLOWED_FRAME_SIZE
  {
    match read
    case NotReady => Served([], Some(PendingResponse(sid, body)), 0)
    case Done => Served([Sent(DataFrame(sid, [], true))], None, 0)
    case Chunk(data, done) =>
      if data == [] && !done then Served([], Some(PendingResponse(sid, body)), 0)
      else Served([Sent(DataFrame(sid, data, done))], if done then None else Some(PendingResponse(sid, body)), |data|)
  }

  /** A response served as if it were alone, with `quota` bytes of connection credit to itself. */
  function Alone(c: Conn, p: PendingResponse, quota: nat): Served
  {
    if p.sid !in c.windows then Served([], None, 0)
    else if c.windows[p.sid] <= 0 then Served([], Some(p), 0)
    else
      match ReadChunk(p.body, Min(Min(quota, c.peerMaxFrame), c.windows[p.sid]))
      case Err(code) => Served([Sent(RstFrame(p.sid, code))], None, 0)
      case Ok(step) => AfterRead(p.sid, step.read, step.body)
  }

  function Pending(rest: Option<PendingResponse>): seq<PendingResponse> {
    if rest.Some? then [rest.value] else []
  }

  /** Several responses, each served alone: frames in queue order, and what remains in queue order. */
  function Apart(c: Conn, q: seq<PendingResponse>, quota: nat): (seq<Event>, seq<PendingResponse>)
  {
    if q == [] then ([], [])
    else
      var first := Alone(c, q[0], quota);
      var others := Apart(c, q[1..], quota);
      (first.out + others.0, Pending(first.rest) + others.1)
  }

  /** The same responses meet the same windows. */
  ghost predicate SameFor(c: Conn, c': Conn, q: seq<PendingResponse>) {
    && c'.peerMaxFrame == c.peerMaxFrame
    && forall i :: 0 <= i < |q| ==>
         && (q[i].sid in c'.windows <==> q[i].sid in c.windows)
         && (q[i].sid in c.windows ==> c'.windows[q[i].sid] == c.windows[q[i].sid])
  }

  lemma {:induction false} ApartSame(c: Conn, c': Conn, q: seq<PendingResponse>, quota: nat)
    requires SameFor(c, c', q)
    ensures Apart(c', q, quota) == Apart(c, q, quota)
    decreases |q|
  {
    if q != [] {
      assert Alone(c', q[0], quota) == Alone(c, q[0], quota);
      ApartSame(c, c', q[1..], quota);
    }
  }

  /** With credit to spare, the front response is served as if alone. */
  lemma FrontAlone(c: Conn, quota: nat)
    requires c.bodyQ != [] && 0 < quota <= c.connWindow
    ensures var turn := ServeFront(c, quota); var a := Alone(c, c.bodyQ[0], quota);
            && turn.out == a.out && turn.conn.bodyQ == c.bodyQ[1..] + Pending(a.rest)
            && c.connWindow - quota <= turn.conn.connWindow == c.connWindow - a.used
            && turn.conn.peerMaxFrame == c.peerMaxFrame
            && turn.conn.windows - {c.bodyQ[0].sid} == c.windows - {c.bodyQ[0].sid}
  {
    hide ReadChunk, MarkClosed;
    var p := c.bodyQ[0];
    assert c.bodyQ[1..] + [] == c.bodyQ[1..];
    var open := p.sid in c.windows && c.windows[p.sid] > 0;
    var max := if open then Min(Min(quota, c.peerMaxFrame), c.windows[p.sid]) else 0;
    assert p.sid in c.windows && c.windows[p.sid] > 0 ==>
           Amount(c.(bodyQ := c.bodyQ[1..]), quota, c.windows[p.sid]) == max;
  }

  lemma OthersSame(c: Conn, c': Conn, q: seq<PendingResponse>)
    requires q != [] && DistinctBodies(q) && c'.peerMaxFrame == c.peerMaxFrame
             && c'.windows - {q[0].sid} == c.windows - {q[0].sid}
    ensures SameFor(c, c', q[1..])
  {
    var sid := q[0].sid;
    forall i | 0 <= i < |q[1..]|
      ensures (q[1..][i].sid in c'.windows <==> q[1..][i].sid in c.windows)
      ensures q[1..][i].sid in c.windows ==> c'.windows[q[1..][i].sid] == c.windows[q[1..][i].sid]
    {
      var x := q[i + 1].sid;
      assert x != sid && q[1..][i] == q[i + 1];
      assert x in c.windows - {sid} <==> x in c'.windows - {sid};
      assert x in c.windows ==> (c.windows - {sid})[x] == c.windows[x] && (c'.windows - {sid})[x] == c'.windows[x];
    }
  }

  lemma DistinctTail(q: seq<PendingResponse>)
    requires q != [] && DistinctBodies(q)
    ensures DistinctBodies(q[1..])
  {
    forall i, j | 0 <= i < j < |q[1..]| ensures q[1..][i].sid != q[1..][j].sid {
      assert q[i + 1].sid != q[j + 1].sid;
    }
  }

  lemma MulStep(n: nat, quota: nat)
    requires n > 0
    ensures n * quota == (n - 1) * quota + quota && n * quota >= quota
  {
  }

  /** One turn, and the same responses are left to serve in the same conditions. */
  lemma OneTurn(c: Conn, quota: nat, n: nat)
    requires 0 < n <= |c.bodyQ| && DistinctBodies(c.bodyQ[..n]) && 0 < quota <= c.connWindow
    ensures var c1 := ServeFront(c, quota).conn; var q := c.bodyQ[..n];
            && SameFor(c, c1, q[1..]) && DistinctBodies(q[1..]) && c1.connWindow >= c.connWindow - quota
            && n - 1 <= |c1.bodyQ| && c1.bodyQ[..n - 1] == q[1..]
            && c1.bodyQ[n - 1..] == c.bodyQ[n..] + Pending(Alone(c, q[0], quota).rest)
            && ServeFront(c, quota).out == Alone(c, q[0], quota).out
  {
    hide Alone, ServeFront, Pending, SameFor, DistinctBodies;
    var q := c.bodyQ[..n];
    assert q[0] == c.bodyQ[0];
    FrontAlone(c, quota);
    DistinctTail(q);
    OthersSame(c, ServeFront(c, quota).conn, q);
  }

  /** With credit for n shares, n turns of the queue serve the first n responses as if each were alone. */
  lemma {:induction false} TurnsApart(c: Conn, quota: nat, n: nat)
    requires n <= |c.bodyQ| && DistinctBodies(c.bodyQ[..n]) && 0 < quota && n * quota <= c.connWindow
    ensures var turn := ServeMany(c, quota, n); var a := Apart(c, c.bodyQ[..n], quota);
            turn.out == a.0 && turn.conn.bodyQ == c.bodyQ[n..] + a.1
    decreases n
  {
    hide Alone, ServeFront, Pending, SameFor, DistinctBodies;
    var q := c.bodyQ[..n];
    if n == 0 {
      assert q == [] && c.bodyQ[n..] + [] == c.bodyQ;
    } else {
      MulStep(n, quota);
      OneTurn(c, quota, n);
      var c1 := ServeFront(c, quota).conn;
      var rest := Pending(Alone(c, q[0], quota).rest);
      TurnsApart(c1, quota, n - 1);
      ApartSame(c, c1, q[1..], quota);
      var others := Apart(c, q[1..], quota).1;
      assert c.bodyQ[n..] + rest + others == c.bodyQ[n..] + (rest + others);
    }
  }

  lemma ShareFits(window: nat, rounds: nat)
    requires 0 < rounds <= window
    ensures Share(window, rounds) == window / rounds && rounds * Share(window, rounds) <= window
  {
    var q := window / rounds;
    assert window == rounds * q + window % rounds;
    assert q == 0 ==> rounds * q == 0;
  }

  /**
   If the connection window covers one byte for each waiting response, a round serves every one of them as if it
   were alone with an equal share of the window, and the unfinished ones keep their order.
   */
  lemma EqualShares(c: Conn)
    requires DistinctBodies(c.bodyQ) && 0 < |c.bodyQ| <= c.connWindow
    ensures Share(c.connWindow, |c.bodyQ|) == c.connWindow / |c.bodyQ|
    ensures var turn := Schedule(c); var a := Apart(c, c.bodyQ, Share(c.connWindow, |c.bodyQ|));
            turn.out == a.0 && turn.conn.bodyQ == a.1
  {
    hide ServeMany, Apart, Share, DistinctBodies;
    var k := |c.bodyQ|;
    ShareFits(c.connWindow, k);
    assert c.bodyQ[..k] == c.bodyQ && c.bodyQ[k..] == [];
    TurnsApart(c, Share(c.connWindow, k), k);
  }

  /** In every reachable state the queue is as equal shares need it. */
  lemma InvQueue(c: Conn, t: Trace)
    requires Inv(c, t)
    ensures DistinctBodies(c.bodyQ)
  {
    hide SafeTrace, OpenStreams, Ties, Credits, HeaderIds, BodyIds, DistinctHeaders, DistinctBodies;
  }

  lemma {:induction false} ApartAppend(c: Conn, a: seq<PendingResponse>, b: seq<PendingResponse>, quota: nat)
    ensures Apart(c, a + b, quota).0 == Apart(c, a, quota).0 + Apart(c, b, quota).0
    ensures Apart(c, a + b, quota).1 == Apart(c, a, quota).1 + Apart(c, b, quota).1
    decreases |a|
  {
    hide Alone, Pending;
    if a == [] {
      assert a + b == b;
    } else {
      assert (a + b)[0] == a[0] && (a + b)[1..] == a[1..] + b;
      ApartAppend(c, a[1..], b, quota);
    }
  }

  /** A response's part of the round does not depend on its place in the queue. */
  lemma ApartAt(c: Conn, q: seq<PendingResponse>, quota: nat, i: nat)
    requires i < |q|
    ensures Apart(c, q, quota).0 == Apart(c, q[..i], quota).0
            + (Alone(c, q[i], quota).out + Apart(c, q[i + 1..], quota).0)
    ensures Apart(c, q, quota).1 == Apart(c, q[..i], quota).1
            + (Pending(Alone(c, q[i], quota).rest) + Apart(c, q[i + 1..], quota).1)
  {
    hide Alone, Pending;
    var rest := q[i..];
    assert rest[0] == q[i] && rest[1..] == q[i + 1..] && q[..i] + rest == q;
    ApartAppend(c, q[..i], rest, quota);
  }

  /** A byte-vector response with an open window sends exactly its share, or all it has left. */
  lemma ExactShare(c: Conn, p: PendingResponse, quota: nat)
    requires p.body.BytesBody? && p.body.offset <= |p.body.data| && p.sid in c.windows && c.windows[p.sid] > 0
    requires quota > 0 && p.body.offset < |p.body.data|
    ensures var b := p.body;
            var end := b.offset + Min(Min(Min(quota, c.peerMaxFrame), c.windows[p.sid]), |b.data| - b.offset);
            && end - b.offset <= MAX_ALLOWED_FRAME_SIZE
            && Alone(c, p, quota) ==
               Served([Sent(DataFrame(p.sid, b.data[b.offset..end], end == |b.data|))],
                      if end == |b.data| then None else Some(PendingResponse(p.sid, BytesBody(b.data, end))),
                      end - b.offset)
  {
  }

  // ---------------------------------------------------------------- one response's part of a round

  /** The events about one stream, in order. */
  function About(out: seq<Event>, sid: U32): seq<Event> {
    if out == [] then []
    else (if Subject(out[0]) == sid then [out[0]] else []) + About(out[1..], sid)
  }

  lemma {:induction false} AboutAppend(a: seq<Event>, b: seq<Event>, sid: U32)
    ensures About(a + b, sid) == About(a, sid) + About(b, sid)
    decreases |a|
  {
    hide Subject;
    if a == [] {
      assert a + b == b;
    } else {
      assert (a + b)[0] == a[0] && (a + b)[1..] == a[1..] + b;
      AboutAppend(a[1..], b, sid);
      var x := if Subject(a[0]) == sid then [a[0]] else [];
      assert x + (About(a[1..], sid) + About(b, sid)) == x + About(a[1..], sid) + About(b, sid);
    }
  }

  /** What a response sends is about its own stream, at most one frame. */
  lemma AloneAbout(c: Conn, p: PendingResponse, quota: nat, sid: U32)
    ensures var a := Alone(c, p, quota);
            About(a.out, sid) == (if p.sid == sid then a.out else []) && |a.out| <= 1
                && (a.rest.Some? ==> a.rest.value.sid == p.sid)
  {
    var a := Alone(c, p, quota);
    hide ReadChunk;
    assert a.out != [] ==> a.out[1..] == [];
  }

  lemma {:induction false} ApartAbout(c: Conn, q: seq<PendingResponse>, quota: nat, sid: U32)
    requires forall i :: 0 <= i < |q| ==> q[i].sid != sid
    ensures About(Apart(c, q, quota).0, sid) == []
    decreases |q|
  {
    hide Alone;
    if q != [] {
      AloneAbout(c, q[0], quota, sid);
      ApartAbout(c, q[1..], quota, sid);
      AboutAppend(Alone(c, q[0], quota).out, Apart(c, q[1..], quota).0, sid);
    }
  }

  /** In a round, the events about a response's stream are those it causes alone. */
  lemma ApartOnStream(c: Conn, q: seq<PendingResponse>, quota: nat, i: nat)
    requires i < |q| && DistinctBodies(q)
    ensures About(Apart(c, q, quota).0, q[i].sid) == Alone(c, q[i], quota).out
  {
    hide Alone, Apart;
    var sid := q[i].sid;
    var before, own, after := Apart(c, q[..i], quota).0, Alone(c, q[i], quota).out, Apart(c, q[i + 1..], quota).0;
    ApartAt(c, q, quota, i);
    ApartAbout(c, q[..i], quota, sid);
    ApartAbout(c, q[i + 1..], quota, sid);
    AloneAbout(c, q[i], quota, sid);
    AboutAppend(before, own + after, sid);
    AboutAppend(own, after, sid);
    assert [] + (own + []) == own;
  }

  function Streams(q: seq<PendingResponse>): seq<U32> {
    if q == [] then [] else [q[0].sid] + Streams(q[1..])
  }

  /** All of `some` occur in `all`, in the same order. */
  predicate Within(some: seq<U32>, all: seq<U32>) {
    some == [] || (all != [] && if some[0] == all[0] then Within(some[1..], all[1..]) else Within(some, all[1..]))
  }

  /** The unfinished responses stay in the order of the queue. */
  lemma {:induction false} ApartOrder(c: Conn, q: seq<PendingResponse>, quota: nat)
    requires DistinctBodies(q)
    ensures Within(Streams(Apart(c, q, quota).1), Streams(q))
    ensures forall p :: p in Apart(c, q, quota).1 ==> exists i :: 0 <= i < |q| && q[i].sid == p.sid
    decreases |q|
  {
    hide Alone;
    if q != [] {
      DistinctTail(q);
      ApartOrder(c, q[1..], quota);
      AloneAbout(c, q[0], quota, 0);
      var rest, others := Pending(Alone(c, q[0], quota).rest), Apart(c, q[1..], quota).1;
      assert Streams(q)[1..] == Streams(q[1..]);
      if rest != [] {
        assert (rest + others)[1..] == others;
        assert Streams(rest + others)[1..] == Streams(others);
      } else {
        assert rest + others == others;
        if others != [] {
          assert others[0] in others;
        }
      }
      forall p | p in rest + others ensures exists i :: 0 <= i < |q| && q[i].sid == p.sid {
        if p in others {
          var k :| 0 <= k < |q[1..]| && q[1..][k].sid == p.sid;
          assert q[k + 1].sid == p.sid;
        } else {
          assert q[0].sid == p.sid;
        }
      }
    }
  }

  /** How much a byte-vector response sends in a round with the given share. */
  function Portion(c: Conn, p: PendingResponse, quota: nat): nat
    requires p.body.BytesBody? && p.sid in c.windows && c.windows[p.sid] > 0
  {
    Min(Min(Min(quota, c.peerMaxFrame), c.windows[p.sid]), |p.body.data| - p.body.offset)
  }

  /** A byte-vector response whose stream window is open. */
  predicate Sendable(c: Conn, i: nat) {
    && i < |c.bodyQ| && c.bodyQ[i].body.BytesBody? && c.bodyQ[i].body.offset < |c.bodyQ[i].body.data|
    && c.bodyQ[i].sid in c.windows && c.windows[c.bodyQ[i].sid] > 0
  }

  /**
   What a round gives a byte-vector response: exactly one frame on its stream, of the least of an equal share, the
   frame size, its window and what it has left; the stream ends exactly if that was the rest; what remains of it waits
   in its old place among the others.
   */
  ghost predicate FairTurn(c: Conn, i: nat, turn: Turn)
    requires Sendable(c, i) && c.connWindow >= 0
  {
    var p := c.bodyQ[i];
    var b, end := p.body, p.body.offset + Portion(c, p, c.connWindow / |c.bodyQ|);
    && b.offset < end && end - b.offset <= MAX_ALLOWED_FRAME_SIZE
    && About(turn.out, p.sid) == [Sent(DataFrame(p.sid, b.data[b.offset..end], end == |b.data|))]
    && Within(Streams(turn.conn.bodyQ), Streams(c.bodyQ))
    && (forall r :: r in turn.conn.bodyQ && r.sid == p.sid ==> end < |b.data| && r.body == BytesBody(b.data, end))
    && (end < |b.data| ==> PendingResponse(p.sid, BytesBody(b.data, end)) in turn.conn.bodyQ)
  }

  /** A round over a queue that the connection window covers is fair to each byte-vector response. */
  lemma ExactRound(c: Conn, i: nat)
    requires DistinctBodies(c.bodyQ) && |c.bodyQ| <= c.connWindow && Sendable(c, i)
    ensures FairTurn(c, i, Schedule(c))
  {
    hide Schedule, Apart, Alone, DistinctBodies, Within, Streams, About;
    var p, k := c.bodyQ[i], |c.bodyQ|;
    EqualShares(c);
    var share := Share(c.connWindow, k);
    assert share > 0;
    ExactShare(c, p, share);
    ApartOnStream(c, c.bodyQ, share, i);
    ApartOrder(c, c.bodyQ, share);
    ApartRest(c, c.bodyQ, share, i);
  }

  /** What is left of a response after a round is what is left of it alone. */
  lemma ApartRest(c: Conn, q: seq<PendingResponse>, quota: nat, i: nat)
    requires i < |q| && DistinctBodies(q)
    ensures forall r :: r in Apart(c, q, quota).1 && r.sid == q[i].sid ==> Alone(c, q[i], quota).rest == Some(r)
    ensures forall r :: Alone(c, q[i], quota).rest == Some(r) ==> r in Apart(c, q, quota).1
  {
    hide Apart, Alone;
    ApartAt(c, q, quota, i);
    DistinctParts(q, i);
    ApartOrder(c, q[..i], quota);
    ApartOrder(c, q[i + 1..], quota);
  }

  lemma DistinctParts(q: seq<PendingResponse>, i: nat)
    requires i < |q| && DistinctBodies(q)
    ensures DistinctBodies(q[..i]) && DistinctBodies(q[i + 1..])
    ensures forall k :: 0 <= k < i ==> q[k].sid != q[i].sid
    ensures forall k :: i < k < |q| ==> q[k].sid != q[i].sid
  {
  }
}
