/**
 The main loop of a connection as a whole: the bytes a client sends become frames, each frame is one step, and after
 each frame polling and sending come to rest. How the bytes are cut into reads does not matter.
 */
module ConnectionService {
  import opened Base
  import opened Frame
  import opened Connection
  import opened ConnectionTrace
  import opened ConnectionInv
  import opened ConnectionRuns
  import opened ConnectionRounds
  import opened Segments
  import opened FrameStream

  /** What becomes of a connection, the bytes not yet used, and the number of frames processed. */
  datatype Outcome = Outcome(status: Status, left: seq<Byte>, frames: nat)

  lemma ReactInv(c: Conn, t: Trace, i: Input)
    requires Inv(c, t) && Possible(i)
    ensures var s := React(c, t, i); s.Running? ==> Inv(s.conn, s.history)
  {
    hide Inv, React;
    ReactSound(c, t, i);
  }

  /** One frame, and then polls and rounds until they come to rest. */
  ghost function FrameThenRest(c: Conn, t: Trace, f: Frame, routing: Routing): (s: Status)
    requires Inv(c, t) && FromWire(f)
    ensures s.Running? ==> Inv(s.conn, s.history) && Resting(s.conn)
  {
    ReactInv(c, t, Incoming(f, routing));
    match React(c, t, Incoming(f, routing))
    case Stopped(t1) => Stopped(t1)
    case Running(c1, t1) => var r := Settled(c1, t1); Running(r.conn, r.history)
  }

  /** Everything the buffered bytes lead to; `choices` is what routing answers to the requests that frames complete. */
  ghost function Serve(c: Conn, t: Trace, maxFrame: U32, buf: seq<Byte>, choices: nat -> Routing, k: nat): (r: Outcome)
    requires Inv(c, t)
    ensures r.status.Running? ==> Inv(r.status.conn, r.status.history)
    decreases |buf|
  {
    hide Inv, React, Take, FrameThenRest;
    TakenFromWire(maxFrame, buf);
    match Take(maxFrame, buf)
    case Wait => Outcome(Running(c, t), buf, k)
    case Fail(code) =>
      ReactInv(c, t, Unreadable(code));
      Outcome(React(c, t, Unreadable(code)), buf, k)
    case Item(f, rest) =>
      match FrameThenRest(c, t, f, choices(k))
      case Stopped(t1) => Outcome(Stopped(t1), rest, k + 1)
      case Running(c1, t1) => Serve(c1, t1, maxFrame, rest, choices, k + 1)
  }

  /** A connection at rest is at rest again when it waits for more bytes. */
  lemma {:induction false} ServeRests(c: Conn, t: Trace, maxFrame: U32, buf: seq<Byte>, choices: nat -> Routing, k: nat)
    requires Inv(c, t) && Resting(c)
    ensures var r := Serve(c, t, maxFrame, buf, choices, k); r.status.Running? ==> Resting(r.status.conn)
    decreases |buf|
  {
    hide Inv, React, Take, Resting, FrameThenRest;
    TakenFromWire(maxFrame, buf);
    match Take(maxFrame, buf)
    case Wait =>
    case Fail(code) => StopsUnreadable(c, t, code);
    case Item(f, rest) =>
      var s := FrameThenRest(c, t, f, choices(k));
      if s.Running? {
        ServeRests(s.conn, s.history, maxFrame, rest, choices, k + 1);
      }
  }

  /** The bytes in two reads lead to the same as the bytes in one. */
  lemma {:induction false} ServeAppend(c: Conn, t: Trace, maxFrame: U32, a: seq<Byte>, b: seq<Byte>,
      choices: nat -> Routing, k: nat)
    requires Inv(c, t)
    ensures var first := Serve(c, t, maxFrame, a, choices, k); var all := Serve(c, t, maxFrame, a + b, choices, k);
            if first.status.Running? then
              all == Serve(first.status.conn, first.status.history, maxFrame, first.left + b, choices, first.frames)
            else all == first.(left := first.left + b)
    decreases |a|
  {
    hide Inv, React, FrameThenRest, Take;
    TakenFromWire(maxFrame, a);
    TakeStable(maxFrame, a, b);
    match Take(maxFrame, a)
    case Wait =>
    case Fail(code) =>
      StopsUnreadable(c, t, code);
    case Item(f, rest) =>
      var s := FrameThenRest(c, t, f, choices(k));
      if s.Running? {
        ServeAppend(s.conn, s.history, maxFrame, rest, b, choices, k + 1);
      }
  }

  lemma StopsUnreadable(c: Conn, t: Trace, code: ErrorCode)
    ensures React(c, t, Unreadable(code)).Stopped?
  {
  }

  /** Reads that follow one another. */
  ghost function ServePieces(c: Conn, t: Trace, maxFrame: U32, pieces: seq<seq<Byte>>,
      choices: nat -> Routing): (r: Outcome)
    requires Inv(c, t)
    ensures r.status.Running? ==> Inv(r.status.conn, r.status.history)
    decreases |pieces|
  {
    hide Inv, Serve;
    if pieces == [] then Serve(c, t, maxFrame, [], choices, 0)
    else
      var n := |pieces| - 1;
      var before := ServePieces(c, t, maxFrame, pieces[..n], choices);
      if before.status.Stopped? then before.(left := before.left + pieces[n])
      else Serve(before.status.conn, before.status.history, maxFrame, before.left + pieces[n], choices, before.frames)
  }

  /** However a client's bytes are cut into reads, the whole history of the connection is the same. */
  lemma {:induction false} ServeSegmentation(c: Conn, t: Trace, maxFrame: U32, pieces: seq<seq<Byte>>,
      choices: nat -> Routing)
    requires Inv(c, t)
    ensures ServePieces(c, t, maxFrame, pieces, choices) == Serve(c, t, maxFrame, Concat(pieces), choices, 0)
    decreases |pieces|
  {
    hide Inv, Serve;
    if pieces != [] {
      var n := |pieces| - 1;
      ServeSegmentation(c, t, maxFrame, pieces[..n], choices);
      ServeAppend(c, t, maxFrame, Concat(pieces[..n]), pieces[n], choices, 0);
    }
  }

  // ---------------------------------------------------------------- what the server itself did

  /** The events of a history other than the frames received: what was written and exchanged. */
  function Reactions(t: Trace): seq<Event> {
    match t
    case Start => []
    case After(prev, e) => if e.Received? then Reactions(prev) else Reactions(prev) + [e]
  }

  lemma {:induction false} ReactionsExtend(t: Trace, out: seq<Event>)
    requires forall e :: e in out ==> !e.Received?
    ensures Reactions(Extend(t, out)) == Reactions(t) + out
    decreases |out|
  {
    if out != [] {
      assert !out[0].Received?;
      ReactionsExtend(After(t, out[0]), out[1..]);
      assert [out[0]] + out[1..] == out;
    }
  }

  lemma ReactionsMore(t: Trace, e: Event)
    requires !e.Received?
    ensures Reactions(After(t, e)) == Reactions(t) + [e]
  {
  }

  /** The frames among the inputs, in order. */
  function FramesOf(inputs: seq<Input>): seq<Frame> {
    if inputs == [] then []
    else
      var last := inputs[|inputs| - 1];
      FramesOf(inputs[..|inputs| - 1]) + if last.Incoming? then [last.frame] else []
  }

  lemma FramesMore(inputs: seq<Input>, i: Input)
    ensures FramesOf(inputs + [i]) == FramesOf(inputs) + if i.Incoming? then [i.frame] else []
  {
    assert (inputs + [i])[..|inputs|] == inputs;
  }
}
