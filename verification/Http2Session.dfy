/**
 The main loop of a connection: bytes from the socket in any pieces, frames taken off the buffer, and polling and
 sending until they come to rest after every frame. Every state of the session is the state of a run whose inputs
 are exactly the frames received, and what the driver wrote is what that run's history says.
 */
module Http2Session {
  import opened Base
  import opened Frame
  import opened Connection
  import opened ConnectionTrace
  import opened ConnectionInv
  import opened ConnectionRuns
  import opened ConnectionService
  import opened Segments
  import opened FrameStream
  import opened Http2Connection
  import ConnectionHeaders
  import ConnectionRounds

  class Session {
    const driver: Driver
    var buffer: seq<Byte>
    ghost var history: Trace
    ghost var inputs: seq<Input>
    ghost var received: seq<Byte>

    /** The log is what the history says, and the history that of a run. */
    ghost predicate Valid()
      reads this, driver, driver.decoder.dynamicTable, driver.recvWindow, driver.connWindow
    {
      driver.Valid() && (forall i :: i in inputs ==> Possible(i)) && driver.log == Reactions(history)
    }

    /** The connection is open, in the state its run has come to. */
    ghost predicate Alive()
      reads this, driver, driver.decoder.dynamicTable, driver.recvWindow, driver.connWindow
    {
      Valid() && Execute(driver.config, inputs) == Running(driver.Value(), history) && Inv(driver.Value(), history)
    }

    /** The connection has ended, as its run has. */
    ghost predicate Ended()
      reads this, driver, driver.decoder.dynamicTable, driver.recvWindow, driver.connWindow
    {
      Valid() && Execute(driver.config, inputs) == Stopped(history)
    }

    /** The inputs so far and the frames in the buffer are together all that was received. */
    ghost predicate Underway()
      reads this
    {
      var whole, here := Frames(driver.config.maxFrame, received), Frames(driver.config.maxFrame, buffer);
      FramesOf(inputs) + here.items == whole.items && here.left == whole.left && here.error == whole.error
    }

    constructor (config: Config)
      ensures Alive() && CaughtUp() && buffer == received == [] && history == Opening(config) && driver.config == config
      ensures ConnectionRounds.Resting(driver.Value())
      ensures fresh(driver) && fresh(driver.decoder.dynamicTable) && fresh(driver.recvWindow)
              && fresh(driver.connWindow)
    {
      hide Inv, Initial, Frames, ConnectionRounds.Resting;
      driver := new Driver(config);
      buffer, history, inputs, received := [], Opening(config), [], [];
      new;
      driver.log := [Sent(ServerSettings(config))];
      assert driver.Value() == Initial(config);
      assert Reactions(history) == driver.log;
      OpeningSound(config);
      StartRests(config);
      FramesStep(config.maxFrame, []);
    }

    /** One more input, and what it leads to. */
    ghost method Record(i: Input, t: Trace)
      requires forall j :: j in inputs ==> Possible(j)
      requires Possible(i)
      modifies this`inputs, this`history
      ensures inputs == old(inputs) + [i] && history == t && (forall j :: j in inputs ==> Possible(j))
      ensures FramesOf(inputs) == FramesOf(old(inputs)) + if i.Incoming? then [i.frame] else []
      ensures var s := Execute(driver.config, old(inputs));
              s.Running? ==> Execute(driver.config, inputs) == React(s.conn, s.history, i)
    {
      hide Execute, React, Possible;
      FramesMore(inputs, i);
      var s := Execute(driver.config, inputs);
      if s.Running? {
        OneMore(driver.config, inputs, i, s.conn, s.history);
      }
      inputs, history := inputs + [i], t;
    }

    /** Poll the upstreams once. */
    method PollOnce() returns (progressed: bool)
      requires Alive()
      modifies driver, this`history, this`inputs
      ensures Alive() && FramesOf(inputs) == FramesOf(old(inputs))
      ensures var turn := Poll(old(driver.Value()));
              driver.Value() == turn.conn && history == Extend(old(history), turn.out) && progressed == turn.progressed
    {
      hide Inv, Poll, Extend, Execute, Reactions, FramesOf;
      ghost var c, t := driver.Value(), history;
      ghost var turn := Poll(c);
      PollReacts(c, t);
      progressed := driver.PollPendingHeaders();
      Record(PollUpstreams, Extend(t, turn.out));
    }

    /** Make one scheduling round. */
    method SendOnce() returns (progressed: bool)
      requires Alive()
      modifies driver, driver.connWindow, this`history, this`inputs
      ensures Alive() && FramesOf(inputs) == FramesOf(old(inputs))
      ensures var turn := Schedule(old(driver.Value()));
              driver.Value() == turn.conn && history == Extend(old(history), turn.out) && progressed == turn.progressed
    {
      hide Inv, Schedule, Extend, Execute, Reactions, FramesOf;
      ghost var c, t := driver.Value(), history;
      ghost var turn := Schedule(c);
      SendReacts(c, t);
      progressed := driver.SchedulePendingResponses();
      Record(SendRound, Extend(t, turn.out));
    }

    /** Poll and send until neither makes progress. */
    method Settle()
      requires Alive()
      modifies driver, driver.connWindow, this`history, this`inputs
      ensures Alive() && FramesOf(inputs) == FramesOf(old(inputs)) && ConnectionRounds.Resting(driver.Value())
      ensures var r := ConnectionRounds.Settled(old(driver.Value()), old(history));
              driver.Value() == r.conn && history == r.history
    {
      hide Inv, Poll, Schedule, Extend, Execute, Reactions, FramesOf, Possible;
      hide ConnectionRounds.Work, ConnectionRounds.Resting;
      var again := true;
      ghost var r := ConnectionRounds.Settled(driver.Value(), history);
      ConnectionRounds.InvWork(driver.Value(), history);
      while again
        invariant Alive() && ConnectionRounds.Work(driver.Value()) >= 0 && FramesOf(inputs) == FramesOf(old(inputs))
        invariant again ==> ConnectionRounds.Settled(driver.Value(), history).conn == r.conn
        invariant again ==> ConnectionRounds.Settled(driver.Value(), history).history == r.history
        invariant !again ==> driver.Value() == r.conn && history == r.history
        decreases ConnectionRounds.Work(driver.Value()) + if again then 1 else 0
      {
        ConnectionRounds.LoopPass(driver.Value(), history);
        again := PollOnce();
        if !again {
          again := SendOnce();
        }
      }
    }

    /** One frame; an error ends the connection with GOAWAY. */
    method OneFrame(f: Frame, routing: Routing) returns (goesOn: bool)
      requires Alive() && FromWire(f)
      modifies driver, driver.decoder.dynamicTable, driver.recvWindow, driver.connWindow, this`history, this`inputs
      ensures inputs == old(inputs) + [Incoming(f, routing)] && FramesOf(inputs) == FramesOf(old(inputs)) + [f]
      ensures match React(old(driver.Value()), old(history), Incoming(f, routing))
              case Running(c, t) => goesOn && Alive() && driver.Value() == c && history == t
              case Stopped(t) => !goesOn && Ended() && history == t
    {
      hide Inv, Connection.ProcessFrame, Extend, Execute, Reactions, FramesOf, React;
      ghost var c, t, i := driver.Value(), history, Incoming(f, routing);
      FrameReacts(driver.config, inputs, c, t, f, routing);
      ghost var s, t1 := Connection.ProcessFrame(c, f, routing), After(t, Received(f));
      var r := driver.ProcessFrame(f, routing);
      if r.Ok? {
        Record(i, Extend(t1, s.out));
        return true;
      }
      SendGoAway(r.code);
      ReactionsMore(Extend(t1, s.out), Sent(GoAwayFrame(driver.lastSid, r.code)));
      Record(i, After(Extend(t1, s.out), Sent(GoAwayFrame(driver.lastSid, r.code))));
      return false;
    }

    method SendGoAway(code: ErrorCode)
      modifies driver`log
      ensures driver.log == old(driver.log) + [Sent(GoAwayFrame(driver.lastSid, code))]
    {
      driver.log := driver.log + [Sent(GoAwayFrame(driver.lastSid, code))];
    }

    /** Bytes that are no frame end the connection. */
    method GiveUp(code: ErrorCode)
      requires Alive()
      modifies driver`log, this`history, this`inputs
      ensures Ended() && FramesOf(inputs) == FramesOf(old(inputs))
      ensures Stopped(history) == React(old(driver.Value()), old(history), Unreadable(code))
    {
      hide Inv, Extend, Execute, Reactions, FramesOf, React;
      UnreadableReacts(driver.Value(), history, code);
      SendGoAway(code);
      ReactionsMore(history, Sent(GoAwayFrame(driver.lastSid, code)));
      Record(Unreadable(code), After(history, Sent(GoAwayFrame(driver.lastSid, code))));
    }

    /** Every frame received was an input, and the buffer holds what is left over. */
    ghost predicate CaughtUp()
      reads this
    {
      Frames(driver.config.maxFrame, received) == Delivery(FramesOf(inputs), buffer, None)
    }

    /**
     Bytes from the socket: every frame they complete is processed, polling and sending coming to rest after each.
     The session does exactly what `Serve` says of the buffer and the bytes, and waits for more with nothing at hand
     that could be sent.
     */
    method Receive(bytes: seq<Byte>, choices: nat -> Routing) returns (goesOn: bool)
      requires Alive() && CaughtUp()
      modifies this, driver, driver.decoder.dynamicTable, driver.recvWindow, driver.connWindow
      ensures received == old(received) + bytes
      ensures goesOn && old(ConnectionRounds.Resting(driver.Value())) ==> ConnectionRounds.Resting(driver.Value())
      ensures var c, t, max := old(driver.Value()), old(history), driver.config.maxFrame;
              var o := Serve(c, t, max, old(buffer) + bytes, choices, 0);
              && buffer == o.left
              && match o.status
                 case Running(c, t) => goesOn && Alive() && CaughtUp() && driver.Value() == c && history == t
                 case Stopped(t) => !goesOn && Ended() && history == t && SafeTrace(t) && SaidGoodbye(t)
                                    && FramesOf(inputs) <= Frames(driver.config.maxFrame, received).items
    {
      hide Inv, SafeTrace, Take, SaidGoodbye, Execute, React, FramesOf, Frames, Connection.ProcessFrame, Reactions;
      hide Possible;
      hide ConnectionRounds.Settled, ConnectionRounds.Resting;
      FramesAppend(driver.config.maxFrame, received, bytes);
      buffer, received := buffer + bytes, received + bytes;
      ghost var o := Serve(driver.Value(), history, driver.config.maxFrame, buffer, choices, 0);
      if ConnectionRounds.Resting(driver.Value()) {
        ServeRests(driver.Value(), history, driver.config.maxFrame, buffer, choices, 0);
      }
      var count: nat := 0;
      while true
        invariant Alive() && Underway() && received == old(received) + bytes
        invariant Serve(driver.Value(), history, driver.config.maxFrame, buffer, choices, count) == o
        decreases |buffer|
      {
        TakenFromWire(driver.config.maxFrame, buffer);
        FramesStep(driver.config.maxFrame, buffer);
        match Take(driver.config.maxFrame, buffer)
        case Wait =>
          assert FramesOf(inputs) + [] == FramesOf(inputs);
          return true;
        case Fail(code) =>
          GiveUp(code);
          RunSound(driver.config, inputs);
          return false;
        case Item(f, rest) =>
          ghost var before, later := FramesOf(inputs), Frames(driver.config.maxFrame, rest).items;
          assert before + ([f] + later) == before + [f] + later;
          buffer := rest;
          goesOn := OneFrame(f, choices(count));
          if !goesOn {
            RunSound(driver.config, inputs);
            return false;
          }
          Settle();
          count := count + 1;
      }
    }
  }

  lemma StartRests(config: Config)
    ensures ConnectionRounds.Resting(Initial(config))
  {
  }

  lemma FrameReacts(config: Config, inputs: seq<Input>, c: Conn, t: Trace, f: Frame, routing: Routing)
    requires (forall i :: i in inputs ==> Possible(i)) && FromWire(f)
    requires Execute(config, inputs) == Running(c, t) && Inv(c, t)
    ensures var s := Connection.ProcessFrame(c, f, routing); var t' := Extend(After(t, Received(f)), s.out);
            && React(c, t, Incoming(f, routing)) == ConnectionRuns.Settle(s, After(t, Received(f)))
            && (s.Next? ==> Inv(s.conn, t')) && Reactions(t') == Reactions(t) + s.out
  {
    hide Inv, Connection.ProcessFrame, Extend, Execute, ConnectionHeaders.Agrees, ConnectionHeaders.Truthful;
    hide ConnectionHeaders.ReadAll;
    ConnectionHeaders.RunHonest(config, inputs);
    ConnectionHeaders.FrameTold(c, t, f, routing);
    ReactInv(c, t, Incoming(f, routing));
    ReactionsExtend(After(t, Received(f)), Connection.ProcessFrame(c, f, routing).out);
  }

  lemma UnreadableReacts(c: Conn, t: Trace, code: ErrorCode)
    ensures React(c, t, Unreadable(code)) == Stopped(After(t, Sent(GoAwayFrame(c.lastSid, code))))
  {
    assert Extend(t, []) == t;
  }

  lemma PollReacts(c: Conn, t: Trace)
    requires Inv(c, t)
    ensures var turn := Poll(c); var t' := Extend(t, turn.out);
            && React(c, t, PollUpstreams) == Running(turn.conn, t') && Inv(turn.conn, t')
            && Reactions(t') == Reactions(t) + turn.out
  {
    hide Inv, Poll, Extend, Reactions;
    ReactInv(c, t, PollUpstreams);
    ConnectionHeaders.PollAside(c);
    ReactionsExtend(t, Poll(c).out);
  }

  lemma SendReacts(c: Conn, t: Trace)
    requires Inv(c, t)
    ensures var turn := Schedule(c); var t' := Extend(t, turn.out);
            && React(c, t, SendRound) == Running(turn.conn, t') && Inv(turn.conn, t')
            && Reactions(t') == Reactions(t) + turn.out
  {
    hide Inv, Schedule, Extend, Reactions;
    ReactInv(c, t, SendRound);
    ConnectionHeaders.ScheduleAside(c);
    ReactionsExtend(t, Schedule(c).out);
  }
}
