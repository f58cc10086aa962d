/**
 Whole runs of a connection. An input is what happens next: a frame arrives (with what routing will answer, should
 it complete a request), unreadable bytes arrive, the upstreams are polled, or a scheduling round is made. The
 theorems hold for every finite sequence of inputs, in any order.
 */
module ConnectionRuns {
  import opened Base
  import opened Frame
  import opened Connection
  import opened ConnectionTrace
  import opened ConnectionInv
  import opened ConnectionSteps
  import opened ConnectionSending
  import opened ConnectionReceiving
  import opened ConnectionFrames

  datatype Input =
    | Incoming(frame: Frame, routing: Routing)
    | Unreadable(code: ErrorCode)
    | PollUpstreams
    | SendRound

  /** A frame that arrives is one the parser delivers. */
  predicate Possible(i: Input) {
    i.Incoming? ==> FromWire(i.frame)
  }

  datatype Status = Running(conn: Conn, history: Trace) | Stopped(history: Trace)

  function Opening(config: Config): Trace {
    After(Start, Sent(ServerSettings(config)))
  }

  /** The connection goes on, or says GOAWAY and ends. */
  function Settle(s: Step, t: Trace): Status {
    match s
    case Next(c, out) => Running(c, Extend(t, out))
    case Stop(code, last, out) => Stopped(After(Extend(t, out), Sent(GoAwayFrame(last, code))))
  }

  function React(c: Conn, t: Trace, i: Input): Status
    requires Possible(i)
  {
    match i
    case Incoming(f, routing) => Settle(ProcessFrame(c, f, routing), After(t, Received(f)))
    case Unreadable(code) => Settle(Stop(code, c.lastSid, []), t)
    case PollUpstreams => var turn := Poll(c); Running(turn.conn, Extend(t, turn.out))
    case SendRound => var turn := Schedule(c); Running(turn.conn, Extend(t, turn.out))
  }

  /** The last thing sent is GOAWAY, naming a stream above which nothing was dispatched, answered or sent. */
  ghost predicate SaidGoodbye(t: Trace) {
    && t.After? && t.event.Sent? && t.event.frame.payload.GoAway?
    && forall sid: U32 :: sid > t.event.frame.payload.lastStreamId ==> FreshView(Observe(t, sid))
  }

  ghost predicate Sound(s: Status) {
    match s
    case Running(c, t) => Inv(c, t)
    case Stopped(t) => SafeTrace(t) && SaidGoodbye(t)
  }

  lemma SettleSound(s: Step, t: Trace)
    requires Good(s, t)
    ensures Sound(Settle(s, t))
  {
    hide Inv, SafeTrace, Extend, FreshView;
    if s.Stop? {
      var bye, t' := GoAwayFrame(s.lastSid, s.code), Extend(t, s.out);
      assert WellFormed(bye);
      ConnectionFrameSent(t', bye);
      forall sid: U32 | sid > s.lastSid ensures FreshView(Observe(After(t', Sent(bye)), sid)) {
        assert FreshView(Observe(t', sid));
      }
    }
  }

  lemma ReactSound(c: Conn, t: Trace, i: Input)
    requires Inv(c, t) && Possible(i)
    ensures Sound(React(c, t, i))
  {
    hide Inv, SafeTrace, Extend, Good, Settle, ProcessFrame, Poll, Schedule, MayStop;
    match i
    case Incoming(f, routing) =>
      FrameKeeps(c, t, f, routing);
      SettleSound(ProcessFrame(c, f, routing), After(t, Received(f)));
    case Unreadable(code) =>
      InvSafe(c, t);
      GoodStop(code, c.lastSid, t);
      SettleSound(Stop(code, c.lastSid, []), t);
    case PollUpstreams => PollKeeps(c, t);
    case SendRound => ScheduleKeeps(c, t);
  }

  lemma OpeningSound(config: Config)
    ensures Inv(Initial(config), Opening(config))
  {
    InitialInv(config);
    assert WellFormed(ServerSettings(config)) by {
      var s := ServerSettings(config).payload.settings;
      assert EncodeSettings(s[3..]) == [];
      assert |EncodeSettings(s[2..])| == 6 && |EncodeSettings(s[1..])| == 12;
    }
    hide Inv, WellFormed;
    InvSafe(Initial(config), Start);
    ConnectionFrameSent(Start, ServerSettings(config));
    OpeningUnnoticed(config);
  }

  lemma OpeningUnnoticed(config: Config)
    requires Inv(Initial(config), Start) && SafeTrace(Opening(config))
    ensures Inv(Initial(config), Opening(config))
  {
    hide Loose, SafeTrace;
    Unnoticed(Initial(config), Start, Opening(config), None);
  }

  /** What a sequence of inputs leads to. */
  function Execute(config: Config, inputs: seq<Input>): Status
    requires forall i :: i in inputs ==> Possible(i)
    decreases |inputs|
  {
    if inputs == [] then Running(Initial(config), Opening(config))
    else
      var last := inputs[|inputs| - 1];
      match Execute(config, inputs[..|inputs| - 1])
      case Running(c, t) => React(c, t, last)
      case Stopped(t) => Stopped(t)
  }

  /** One more input for a run that goes on. */
  lemma OneMore(config: Config, inputs: seq<Input>, i: Input, c: Conn, t: Trace)
    requires (forall j :: j in inputs ==> Possible(j)) && Possible(i) && Execute(config, inputs) == Running(c, t)
    ensures forall j :: j in inputs + [i] ==> Possible(j)
    ensures Execute(config, inputs + [i]) == React(c, t, i)
  {
    hide React, Possible;
    assert (inputs + [i])[..|inputs|] == inputs;
  }

  /** Every state reached by any inputs is tied to its history, and every stopped run is safe. */
  lemma {:induction false} RunSound(config: Config, inputs: seq<Input>)
    requires forall i :: i in inputs ==> Possible(i)
    ensures Sound(Execute(config, inputs))
    decreases |inputs|
  {
    hide Sound, React, Initial, Opening;
    if inputs == [] {
      StartSound(config);
    } else {
      var before := inputs[..|inputs| - 1];
      RunSound(config, before);
      NextSound(Execute(config, before), inputs[|inputs| - 1]);
    }
  }

  lemma StartSound(config: Config)
    ensures Sound(Running(Initial(config), Opening(config)))
  {
    hide Inv;
    OpeningSound(config);
  }

  lemma NextSound(s: Status, i: Input)
    requires Sound(s) && Possible(i)
    ensures s.Running? ==> Sound(React(s.conn, s.history, i))
  {
    hide Inv, SafeTrace, SaidGoodbye, React;
    if s.Running? {
      ReactSound(s.conn, s.history, i);
    }
  }
}
