/**
 Histories of a connection, and what they say about each stream. Nothing here looks at the connection's state:
 these are the ledgers and the grammar against which the state machine is judged.
 */
module ConnectionTrace {
  import opened Base
  import opened Frame
  import opened Connection
  import opened Sources

  datatype Trace = Start | After(prev: Trace, event: Event)

  function Extend(t: Trace, out: seq<Event>): Trace
    decreases |out|
  {
    if out == [] then t else Extend(After(t, out[0]), out[1..])
  }

  /** The stream an event is about; 0 stands for the connection. */
  function Subject(e: Event): U32 {
    match e
    case Received(f) => f.header.streamId
    case Sent(f) => f.header.streamId
    case Dispatched(sid, _, _) => sid
    case Responded(sid, _) => sid
  }

  // ---------------------------------------------------------------- the response grammar

  /** How far the frames of one response have come. */
  datatype Phase = NotStarted | InHeaders(endStream: bool) | Streaming | Finished | Aborted | Bad

  function AfterBlock(endStream: bool, endHeaders: bool): Phase {
    if !endHeaders then InHeaders(endStream) else if endStream then Finished else Streaming
  }

  /**
   HEADERS CONTINUATION* DATA*, with END_STREAM on the HEADERS of a body-less response or on the last DATA only,
   possibly cut short by one RST_STREAM. Credit for the request body may be granted before the response starts.
   */
  function NextPhase(p: Phase, sent: FramePayload): Phase {
    match p
    case NotStarted => (
      match sent
      case Headers(_, endStream, endHeaders) => AfterBlock(endStream, endHeaders)
      case RstStream(_) => Aborted
      case WindowUpdate(_) => NotStarted
      case _ => Bad)
    case InHeaders(endStream) =>
      if sent.Continuation? then AfterBlock(endStream, sent.endHeaders) else Bad
    case Streaming => (
      match sent
      case Data(_, endStream) => if endStream then Finished else Streaming
      case RstStream(_) => Aborted
      case _ => Bad)
    case _ => Bad
  }

  // ---------------------------------------------------------------- one stream's history

  /**
   What a history shows of one stream: the request so far (`request`, `gotHeaders`, `gotEnd`), whether it was
   handed to routing and answered, the response frames (`phase`, `sent`), the send credit received (`credit`) and
   the credit for request data given back (`granted`); `endInHead` is END_STREAM on the HEADERS sent.
   `orderly` holds while every dispatch was the first, and of a complete request with exactly the body received.
   */
  datatype View = View(
    request: seq<Byte>, gotHeaders: bool, gotEnd: bool,
    dispatches: nat, orderly: bool, responses: nat, body: Option<Body>,
    phase: Phase, sent: seq<Byte>, credit: nat, granted: nat, endInHead: bool)

  const BLANK := View([], false, false, 0, true, 0, None, NotStarted, [], 0, 0, false)

  function OnReceived(v: View, p: FramePayload): View {
    match p
    case Headers(_, endStream, endHeaders) =>
      v.(request := [], gotHeaders := endHeaders, gotEnd := endStream, credit := 0, granted := 0)
    case Continuation(_, endHeaders) => v.(gotHeaders := v.gotHeaders || endHeaders)
    case Data(data, endStream) => v.(request := v.request + data, gotEnd := v.gotEnd || endStream)
    case WindowUpdate(increment) => v.(credit := v.credit + increment)
    case _ => v
  }

  function OnSent(v: View, p: FramePayload): View {
    v.(phase := NextPhase(v.phase, p), sent := if p.Data? then v.sent + p.data else v.sent,
       granted := if p.WindowUpdate? then v.granted + p.windowSizeIncrement else v.granted,
       endInHead := if p.Headers? then p.endStream else v.endInHead)
  }

  /** A view after an event about its stream. */
  function Look(v: View, e: Event): View {
    match e
    case Received(f) => OnReceived(v, f.payload)
    case Sent(f) => OnSent(v, f.payload)
    case Dispatched(_, _, body) =>
      v.(dispatches := v.dispatches + 1,
         orderly := v.orderly && v.dispatches == 0 && v.gotHeaders && v.gotEnd && body == v.request)
    case Responded(_, body) => v.(responses := v.responses + 1, body := body)
  }

  function Observe(t: Trace, sid: U32): View {
    match t
    case Start => BLANK
    case After(prev, e) => if Subject(e) == sid then Look(Observe(prev, sid), e) else Observe(prev, sid)
  }

  // ---------------------------------------------------------------- the connection's history

  /** Credit granted to the connection by WINDOW_UPDATE on stream 0. */
  function ConnectionCredit(t: Trace): nat {
    match t
    case Start => 0
    case After(prev, Received(f)) =>
      if f.header.streamId == 0 && f.payload.WindowUpdate? then ConnectionCredit(prev) + f.payload.windowSizeIncrement
      else ConnectionCredit(prev)
    case After(prev, _) => ConnectionCredit(prev)
  }

  /** Bytes of DATA sent on all streams together. */
  function TotalSent(t: Trace): nat {
    match t
    case Start => 0
    case After(prev, Sent(f)) => if f.payload.Data? then TotalSent(prev) + |f.payload.data| else TotalSent(prev)
    case After(prev, _) => TotalSent(prev)
  }

  /** What the peer is due: credit for its data, replies to its pings in order, and settings acknowledgements. */
  datatype Dues = Dues(data: int, pings: seq<seq<Byte>>, settings: int)

  const NOTHING := Dues(0, [], 0)

  function DuesReceived(d: Dues, p: FramePayload): Dues {
    match p
    case Data(data, _) => d.(data := d.data + |data|)
    case Ping(data, ack) => if ack then d else d.(pings := d.pings + [data])
    case Settings(_, ack) => if ack then d else d.(settings := d.settings + 1)
    case _ => d
  }

  /** A reply settles a due; one that was not called for, or answers with other data, shows up as a new one. */
  function DuesSent(d: Dues, f: Frame): Dues {
    match f.payload
    case WindowUpdate(n) => if f.header.streamId == 0 then d.(data := d.data - n) else d
    case Ping(data, ack) =>
      if !ack then d
      else if d.pings != [] && d.pings[0] == data then d.(pings := d.pings[1..])
      else d.(pings := d.pings + [data])
    case Settings(_, ack) => if ack then d.(settings := d.settings - 1) else d
    case _ => d
  }

  function Owed(t: Trace): Dues {
    match t
    case Start => NOTHING
    case After(prev, Received(f)) => DuesReceived(Owed(prev), f.payload)
    case After(prev, Sent(f)) => DuesSent(Owed(prev), f)
    case After(prev, _) => Owed(prev)
  }

  /** The last SETTINGS_INITIAL_WINDOW_SIZE in a list, or `current` if there is none. */
  function LastInitial(settings: seq<Setting>, current: U32): U32
    decreases |settings|
  {
    if settings == [] then current
    else LastInitial(settings[1..], if settings[0].id == InitialWindowSize then settings[0].value else current)
  }

  /** The initial window the peer currently asks for. */
  function InitialSetting(t: Trace): U32 {
    match t
    case Start => PEER_DEFAULT_WINDOW
    case After(prev, Received(f)) =>
      if f.payload.Settings? && !f.payload.ack then LastInitial(f.payload.settings, InitialSetting(prev))
      else InitialSetting(prev)
    case After(prev, _) => InitialSetting(prev)
  }

  /** Whether a header block is being written, and on which stream (section 4.3 of RFC 9113). */
  datatype Writing = Clear | Within(sid: U32) | Broken

  function NextWriting(w: Writing, f: Frame): Writing {
    match w
    case Clear =>
      if f.payload.Continuation? then Writing.Broken
      else if f.payload.Headers? && !f.payload.endHeaders then Within(f.header.streamId)
      else Clear
    case Within(sid) =>
      if !f.payload.Continuation? || f.header.streamId != sid then Writing.Broken
      else if f.payload.endHeaders then Clear else w
    case Broken => w
  }

  function WritingOf(t: Trace): Writing {
    match t
    case Start => Clear
    case After(prev, Sent(f)) => NextWriting(WritingOf(prev), f)
    case After(prev, _) => WritingOf(prev)
  }

  /** Every frame sent survives encoding and parsing. */
  predicate AllWellFormed(t: Trace) {
    match t
    case Start => true
    case After(prev, Sent(f)) => WellFormed(f) && AllWellFormed(prev)
    case After(prev, _) => AllWellFormed(prev)
  }

  // ---------------------------------------------------------------- response bodies

  /** The bytes of a body not yet taken. */
  function Left(b: Body): seq<Byte> {
    match b
    case BytesBody(data, offset) => data[offset..]
    case FileBody(script, _) => Yields(script)
    case ReaderBody(script, _) => Yields(script)
  }

  /** How many bytes are still to be sent, where that is known. */
  function Declared(b: Body): Option<nat> {
    match b
    case BytesBody(data, offset) => Some(|data| - offset)
    case FileBody(_, remaining) => Some(remaining)
    case ReaderBody(_, left) => left
  }

  /** `sent` is the part of the body `whole` that was taken to leave `rest`. */
  ghost predicate Progress(whole: Body, sent: seq<Byte>, rest: Body) {
    && sent + Left(rest) == Left(whole)
    && whole.ReaderBody? == rest.ReaderBody?
    && (rest.ReaderBody? ==> Ends(rest.script) == Ends(whole.script))
    && Declared(rest).Some? == Declared(whole).Some?
    && (Declared(whole).Some? ==> Declared(whole).value == |sent| + Declared(rest).value)
    && (!rest.ReaderBody? ==> Declared(rest).value > 0)
  }

  /** An upstream body of undeclared length that has come to its end, every byte before the end being in `sent`. */
  ghost predicate AllRead(b: Body, sent: seq<Byte>) {
    b.ReaderBody? ==> Ends(b.script) && sent == Left(b)
  }

  /** A stream's response is complete exactly when its body is, for bodies of known length, and never before. */
  ghost predicate BodySafe(v: View) {
    match v.body
    case None => v.sent == [] && v.phase != Streaming && (v.phase == Finished <==> v.responses > 0)
    case Some(b) =>
      && v.sent <= Left(b)
      && (Declared(b).Some? ==>
            |v.sent| <= Declared(b).value && (v.phase == Finished ==> |v.sent| == Declared(b).value))
      && (!b.ReaderBody? && v.phase != Finished ==> |v.sent| < Declared(b).value)
      && (Declared(b).None? && v.phase == Finished ==> AllRead(b, v.sent))
  }

  /** END_STREAM is on the HEADERS of an answer exactly if the answer has no body. */
  ghost predicate HeadSafe(v: View) {
    v.endInHead <==> v.responses > 0 && v.body.None?
  }

  /** What every stream's history satisfies between steps. */
  ghost predicate SafeView(v: View) {
    && v.phase != Bad && !v.phase.InHeaders?
    && v.orderly && v.dispatches <= 1 && v.responses <= v.dispatches && v.granted <= |v.request|
    && HeadSafe(v) && BodySafe(v)
  }

  ghost predicate SafeTrace(t: Trace) {
    && (forall sid: U32 :: sid != 0 ==> SafeView(Observe(t, sid)))
    && WritingOf(t) == Clear
    && AllWellFormed(t)
  }

  // ---------------------------------------------------------------- basic facts

  lemma {:induction false} ExtendOther(t: Trace, out: seq<Event>, sid: U32)
    requires forall i :: 0 <= i < |out| ==> Subject(out[i]) != sid
    ensures Observe(Extend(t, out), sid) == Observe(t, sid)
    decreases |out|
  {
    if out != [] {
      ExtendOther(After(t, out[0]), out[1..], sid);
    }
  }

  lemma ExtendNone(t: Trace)
    ensures Extend(t, []) == t
  {
  }

  lemma {:induction false} ExtendAppend(t: Trace, a: seq<Event>, b: seq<Event>)
    ensures Extend(t, a + b) == Extend(Extend(t, a), b)
    decreases |a|
  {
    if a == [] {
      assert a + b == b;
    } else {
      assert (a + b)[1..] == a[1..] + b;
      ExtendAppend(After(t, a[0]), a[1..], b);
    }
  }

  lemma ExtendOne(t: Trace, e: Event)
    ensures Extend(t, [e]) == After(t, e)
  {
    assert [e][1..] == [];
  }
}
