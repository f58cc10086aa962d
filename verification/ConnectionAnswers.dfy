/**
 What each stream was answered with. Routing gives every dispatched request a response, at once or through an
 upstream; in every run, what is sent on the stream is that response: its status and headers, and its body.
 */
module ConnectionAnswers {
  import opened Base
  import opened Frame
  import opened HpackTable
  import opened Sources
  import opened Connection
  import opened ConnectionTrace
  import opened ConnectionInv
  import opened ConnectionSteps
  import opened ConnectionSending
  import opened ConnectionRuns
  import opened ConnectionBodies
  import ConnectionLedger

  // ---------------------------------------------------------------- what was given

  /** The first answer of an upstream, after any number of polls too early. */
  function AnswerOf(script: seq<PollEvent>): Option<PollEvent> {
    if script == [] then None
    else if script[0].HeadersPending? then AnswerOf(script[1..])
    else Some(script[0])
  }

  /** A response, with the upstream's body if there is one. */
  datatype Reply = Reply(response: Response, reader: Option<Reader>)

  /** The response that a routing decision comes to, if it comes to one. */
  function ReplyOf(r: Routing): Option<Reply> {
    match r
    case Reject(_) => None
    case Immediate(response) => Some(Reply(response, None))
    case Upstream(script) =>
      match AnswerOf(script)
      case Some(HeadersReady(response, reader)) => Some(Reply(response, reader))
      case _ => None
  }

  /** The header list of a response, `:status` first. */
  function Fields(r: Reply): seq<Header> {
    [Header([58, 115, 116, 97, 116, 117, 115], r.response.status)] + r.response.headers
  }

  /** There is nothing to send after the headers. */
  predicate Bodyless(r: Reply) {
    r.reader.None? &&
    match r.response.source
    case BytesSource(data) => data == []
    case FileSource(_, size) => size == 0
    case GzipSource(_, size) => size == 0
  }

  /** The bytes of a response's body. */
  function Content(r: Reply): seq<Byte> {
    if r.reader.Some? then Yields(r.reader.value.script)
    else
      match r.response.source
      case BytesSource(data) => data
      case FileSource(script, _) => Yields(script)
      case GzipSource(script, _) => Yields(script)
  }

  /** The length of the body, where it is known before. */
  function Length(r: Reply): Option<nat> {
    if r.reader.Some? then r.reader.value.left
    else
      match r.response.source
      case BytesSource(data) => Some(|data|)
      case FileSource(_, size) => Some(size)
      case GzipSource(_, _) => None
  }

  /** The body comes from an upstream or a compressor, which may have to be waited for. */
  predicate Waited(r: Reply) {
    r.reader.Some? || r.response.source.GzipSource?
  }

  /** The body may not come to its end by itself. */
  predicate Unreliable(r: Reply) {
    if r.reader.Some? then
      var u := r.reader.value;
      Breaks(u.script) || (u.left.Some? && Ends(u.script) && |Yields(u.script)| < u.left.value)
    else
      match r.response.source
      case BytesSource(_) => false
      case FileSource(script, size) => |Burst(script)| < size
      case GzipSource(script, _) => Breaks(script)
  }

  /** The body under way is that of the response. */
  ghost predicate BodyOf(r: Reply, answer: Option<Body>) {
    && (answer.None? <==> Bodyless(r))
    && (answer.Some? ==>
          && Left(answer.value) == Content(r) && Declared(answer.value) == Length(r)
          && answer.value.ReaderBody? == Waited(r) && MayFail(answer.value) == Unreliable(r))
  }

  lemma ResponseBodyTrue(response: Response, reader: Option<Reader>)
    ensures BodyOf(Reply(response, reader), ResponseBody(response, reader))
  {
  }

  /** The routing decisions of the requests dispatched by a step. */
  function Assign(g: map<U32, Routing>, out: seq<Event>, routing: Routing): map<U32, Routing>
    decreases |out|
  {
    if out == [] then g
    else Assign(if out[0].Dispatched? then g[out[0].sid := routing] else g, out[1..], routing)
  }

  /** The same with one more input. */
  function Decide(g: map<U32, Routing>, c: Conn, i: Input): map<U32, Routing>
    requires Possible(i)
  {
    if i.Incoming? then Assign(g, ProcessFrame(c, i.frame, i.routing).out, i.routing) else g
  }

  /** What routing decided for each stream dispatched in a run. */
  function GivenTo(config: Config, inputs: seq<Input>): map<U32, Routing>
    requires forall i :: i in inputs ==> Possible(i)
    decreases |inputs|
  {
    if inputs == [] then map[]
    else
      var before, last := inputs[..|inputs| - 1], inputs[|inputs| - 1];
      assert Possible(last);
      var g := GivenTo(config, before);
      match Execute(config, before)
      case Stopped(_) => g
      case Running(c, _) => Decide(g, c, last)
  }

  // ---------------------------------------------------------------- what was sent

  /** The fragments of the header block sent on a stream, joined. */
  function BlockOn(t: Trace, sid: U32): seq<Byte> {
    match t
    case Start => []
    case After(prev, Sent(f)) =>
      if f.header.streamId != sid then BlockOn(prev, sid)
      else
        BlockOn(prev, sid)
        + (if f.payload.Headers? then f.payload.headerBlock else if f.payload.Continuation? then f.payload.headerBlock
            else [])
    case After(prev, _) => BlockOn(prev, sid)
  }

  /** The client has reset the stream since it opened it. */
  predicate ResetOn(t: Trace, sid: U32) {
    match t
    case Start => false
    case After(prev, Received(f)) =>
      if f.header.streamId != sid then ResetOn(prev, sid)
      else if f.payload.RstStream? then true
      else if f.payload.Headers? then false
      else ResetOn(prev, sid)
    case After(prev, _) => ResetOn(prev, sid)
  }

  /** What was sent on a stream is what was given for it, and it was cut short only where it had to be. */
  ghost predicate True(config: Config, g: map<U32, Routing>, t: Trace, sid: U32) {
    var v := Observe(t, sid);
    && (v.dispatches > 0 <==> sid in g)
    && (v.responses == 0 ==> BlockOn(t, sid) == [])
    && (v.responses > 0 ==>
          && v.phase != NotStarted && sid in g && ReplyOf(g[sid]).Some?
          && BlockOn(t, sid) == config.encode(Fields(ReplyOf(g[sid]).value)) && BodyOf(ReplyOf(g[sid]).value, v.body))
    && (v.phase == Aborted && v.responses > 0 ==> v.body.Some? && MayFail(v.body.value))
    && (v.phase == Aborted && v.responses == 0 && v.dispatches > 0 ==>
          sid in g && g[sid].Upstream? && AnswerOf(g[sid].script) == Some(UpstreamFailed))
  }

  // ---------------------------------------------------------------- the state agrees

  ghost predicate WaitingFor(p: PendingHeader, g: map<U32, Routing>) {
    p.sid in g && g[p.sid].Upstream? && AnswerOf(p.script) == AnswerOf(g[p.sid].script)
  }

  ghost predicate SendingOn(p: PendingResponse, v: View) {
    v.body.Some? && Kept(v.body.value, v.sent, p.body)
  }

  /** A response under way is queued unless the client has reset its stream. */
  ghost predicate Present(c: Conn, t: Trace, x: U32) {
    var v := Observe(t, x);
    !ResetOn(t, x) ==>
      && (v.phase == Streaming ==> x in BodyIds(c.bodyQ))
      && (v.phase == NotStarted && v.dispatches > 0 ==> x in HeaderIds(c.headerQ))
  }

  ghost predicate StreamOk(c: Conn, t: Trace, g: map<U32, Routing>, x: U32) {
    && True(c.config, g, t, x)
    && (forall p :: p in c.headerQ && p.sid == x ==> WaitingFor(p, g))
    && (forall p :: p in c.bodyQ && p.sid == x ==> SendingOn(p, Observe(t, x)))
    && Present(c, t, x)
  }

  ghost predicate AllOk(c: Conn, t: Trace, g: map<U32, Routing>) {
    forall x: U32 :: x != 0 ==> StreamOk(c, t, g, x)
  }

  ghost predicate AllTrue(config: Config, g: map<U32, Routing>, t: Trace) {
    forall x: U32 :: x != 0 ==> True(config, g, t, x)
  }

  lemma OkTrue(c: Conn, t: Trace, g: map<U32, Routing>)
    requires AllOk(c, t, g)
    ensures AllTrue(c.config, g, t)
  {
    hide True, Present;
    forall x: U32 | x != 0 ensures True(c.config, g, t, x) {
      assert StreamOk(c, t, g, x);
    }
  }

  // ---------------------------------------------------------------- one stream at a time

  /** The same entries for every stream but one. */
  ghost predicate QueuesApart(c: Conn, c': Conn, sid: U32) {
    && (forall p: PendingHeader :: p.sid != sid ==> (p in c.headerQ <==> p in c'.headerQ))
    && (forall p: PendingResponse :: p.sid != sid ==> (p in c.bodyQ <==> p in c'.bodyQ))
  }

  /** The same history for every stream but one. */
  ghost predicate TracesApart(t: Trace, t': Trace, sid: U32) {
    forall x: U32 :: x != sid && x != 0 ==>
      Observe(t', x) == Observe(t, x) && BlockOn(t', x) == BlockOn(t, x) && ResetOn(t', x) == ResetOn(t, x)
  }

  ghost predicate GivenApart(g: map<U32, Routing>, g': map<U32, Routing>, sid: U32) {
    forall x: U32 :: x != sid ==> (x in g <==> x in g') && (x in g ==> g[x] == g'[x])
  }

  ghost predicate Subjects(out: seq<Event>, sid: U32) {
    forall e :: e in out ==> Subject(e) == sid || Subject(e) == 0
  }

  lemma {:induction false} ApartExtend(t: Trace, out: seq<Event>, sid: U32)
    requires Subjects(out, sid)
    ensures TracesApart(t, Extend(t, out), sid)
    decreases |out|
  {
    if out != [] {
      assert Subject(out[0]) == sid || Subject(out[0]) == 0;
      ApartOne(t, out[0], sid);
      ApartExtend(After(t, out[0]), out[1..], sid);
      hide Observe, BlockOn, ResetOn;
    }
  }

  lemma ApartOne(t: Trace, e: Event, sid: U32)
    requires Subject(e) == sid || Subject(e) == 0
    ensures TracesApart(t, After(t, e), sid)
  {
    hide Look;
  }

  /** A step that is about one stream keeps the others. */
  lemma OneStream(c: Conn, t: Trace, g: map<U32, Routing>, c': Conn, t': Trace, g': map<U32, Routing>, sid: U32)
    requires AllOk(c, t, g) && c'.config == c.config
    requires QueuesApart(c, c', sid) && TracesApart(t, t', sid) && GivenApart(g, g', sid)
    requires sid != 0 ==> StreamOk(c', t', g', sid)
    ensures AllOk(c', t', g')
  {
    forall x: U32 | x != 0 ensures StreamOk(c', t', g', x) {
      if x != sid {
        assert StreamOk(c, t, g, x);
        OtherStream(c, t, g, c', t', g', sid, x);
      }
    }
  }

  lemma OtherStream(c: Conn, t: Trace, g: map<U32, Routing>, c': Conn, t': Trace, g': map<U32, Routing>, sid: U32,
      x: U32)
    requires StreamOk(c, t, g, x) && x != sid && x != 0 && c'.config == c.config
    requires QueuesApart(c, c', sid) && TracesApart(t, t', sid) && GivenApart(g, g', sid)
    ensures StreamOk(c', t', g', x)
  {
    hide Observe, BlockOn, ResetOn, ReplyOf, BodyOf, Fields, AnswerOf, Kept;
    assert True(c.config, g', t', x);
    if x in BodyIds(c.bodyQ) {
      var p :| p in c.bodyQ && p.sid == x;
      assert p in c'.bodyQ;
    }
    if x in HeaderIds(c.headerQ) {
      var p :| p in c.headerQ && p.sid == x;
      assert p in c'.headerQ;
    }
  }

  // ---------------------------------------------------------------- answering

  lemma FirstSent(t: Trace, f: Frame, later: seq<Frame>, sid: U32)
    ensures Extend(t, Sends([f] + later)) == Extend(After(t, Sent(f)), Sends(later))
    ensures f.header.streamId == sid && Subjects(Sends(later), sid) ==> Subjects(Sends([f] + later), sid)
  {
    var out := Sends([f] + later);
    assert out[0] == Sent(f) && out[1..] == Sends(later);
    assert out == [Sent(f)] + Sends(later);
  }

  lemma FragmentOn(t: Trace, f: Frame, part: seq<Byte>)
    requires f.payload.Headers? || f.payload.Continuation?
    requires f.payload.headerBlock == part
    ensures var t', sid := After(t, Sent(f)), f.header.streamId;
            BlockOn(t', sid) == BlockOn(t, sid) + part && ResetOn(t', sid) == ResetOn(t, sid)
  {
  }

  lemma Joined(a: seq<Byte>, b: seq<Byte>, n: nat)
    requires n <= |b|
    ensures a + b[..n] + b[n..] == a + b
  {
  }

  lemma {:induction false} ContinuationsOn(t: Trace, sid: U32, rest: seq<Byte>, max: FrameSize)
    ensures var t' := Extend(t, Sends(Continuations(sid, rest, max)));
            BlockOn(t', sid) == BlockOn(t, sid) + rest && ResetOn(t', sid) == ResetOn(t, sid)
    ensures Subjects(Sends(Continuations(sid, rest, max)), sid)
    decreases |rest|
  {
    if rest == [] {
      assert Sends(Continuations(sid, rest, max)) == [];
    } else {
      hide Extend, BlockOn, ResetOn, Subjects, Sends;
      var n := Min(max, |rest|);
      var f := ContinuationFrame(sid, rest[..n], n == |rest|);
      ContinuationsOn(After(t, Sent(f)), sid, rest[n..], max);
      FirstSent(t, f, Continuations(sid, rest[n..], max), sid);
      FragmentOn(t, f, rest[..n]);
      Joined(BlockOn(t, sid), rest, n);
    }
  }

  /** The frames of a header block carry the block. */
  lemma HeadersOn(t: Trace, sid: U32, block: seq<Byte>, endStream: bool, max: FrameSize)
    ensures var t' := Extend(t, Sends(HeaderFrames(sid, block, endStream, max)));
            BlockOn(t', sid) == BlockOn(t, sid) + block && ResetOn(t', sid) == ResetOn(t, sid)
    ensures Subjects(Sends(HeaderFrames(sid, block, endStream, max)), sid)
  {
    hide Extend, BlockOn, ResetOn, Subjects, Sends, Continuations;
    var n := Min(|block|, max);
    var f := HeadersFrame(sid, block[..n], endStream, n == |block|);
    ContinuationsOn(After(t, Sent(f)), sid, block[n..], max);
    FirstSent(t, f, Continuations(sid, block[n..], max), sid);
    FragmentOn(t, f, block[..n]);
    Joined(BlockOn(t, sid), block, n);
  }

  /** A stream whose request is dispatched and that has not been answered. */
  ghost predicate Unanswered(t: Trace, sid: U32) {
    var v := Observe(t, sid);
    && v.phase == NotStarted && v.dispatches == 1 && v.responses == 0 && v.body.None? && v.sent == []
    && BlockOn(t, sid) == []
  }

  /** Neither queue has an entry for the stream. */
  ghost predicate Nowhere(c: Conn, sid: U32) {
    sid !in HeaderIds(c.headerQ) && sid !in BodyIds(c.bodyQ)
  }

  /** What answering leaves in a history. */
  lemma AnswerOn(c: Conn, t: Trace, sid: U32, r: Response, reader: Option<Reader>)
    requires Unanswered(t, sid) && WritingOf(t) == Clear && AllWellFormed(t) && 0 < sid < 0x8000_0000
    ensures var s := QueueResponse(c, sid, r, reader); var t' := Extend(t, s.out); var v := Observe(t', sid);
            && v.dispatches == 1 && v.responses == 1 && v.body == ResponseBody(r, reader) && v.sent == []
            && v.phase == (if v.body.None? then Finished else Streaming)
            && BlockOn(t', sid) == c.config.encode(Fields(Reply(r, reader))) && ResetOn(t', sid) == ResetOn(t, sid)
            && Subjects(s.out, sid)
  {
    hide ResponseBody, HeaderFrames, Sends, Observe, WritingOf, AllWellFormed;
    var body, block := ResponseBody(r, reader), HeaderBlock(c, r);
    var e, frames := Responded(sid, body), Sends(HeaderFrames(sid, block, body.None?, c.peerMaxFrame));
    AnswerEvents(t, sid, body, block, c.peerMaxFrame);
    HeadersOn(After(t, e), sid, block, body.None?, c.peerMaxFrame);
    ExtendAppend(t, [e], frames);
    ExtendOne(t, e);
    assert [] + block == block;
  }

  /** An answered stream is as it should be. */
  lemma AnsweredOk(c: Conn, t: Trace, g: map<U32, Routing>, sid: U32, r: Response, reader: Option<Reader>)
    requires Unanswered(t, sid) && WritingOf(t) == Clear && AllWellFormed(t) && 0 < sid < 0x8000_0000 && Nowhere(c, sid)
    requires sid in g && ReplyOf(g[sid]) == Some(Reply(r, reader))
    ensures var s := QueueResponse(c, sid, r, reader);
            StreamOk(s.conn, Extend(t, s.out), g, sid) && QueuesApart(c, s.conn, sid) && Subjects(s.out, sid)
  {
    hide ResponseBody, HeaderFrames, Sends, Observe, WritingOf, AllWellFormed, BlockOn, ResetOn, ReplyOf, MarkClosed;
    hide BodyOf, Extend, Kept, Fields;
    AnswerOn(c, t, sid, r, reader);
    ResponseBodyTrue(r, reader);
    var s := QueueResponse(c, sid, r, reader);
    var v := Observe(Extend(t, s.out), sid);
    NowhereNone(c, sid);
    if v.body.Some? {
      KeptWhole(v.body.value);
      var p := PendingResponse(sid, v.body.value);
      assert s.conn.bodyQ == c.bodyQ + [p] && p in s.conn.bodyQ;
    }
  }

  lemma NowhereNone(c: Conn, sid: U32)
    requires Nowhere(c, sid)
    ensures (forall p :: p in c.headerQ ==> p.sid != sid) && (forall p :: p in c.bodyQ ==> p.sid != sid)
  {
    assert forall p :: p in c.headerQ ==> p.sid in HeaderIds(c.headerQ);
    assert forall p :: p in c.bodyQ ==> p.sid in BodyIds(c.bodyQ);
  }

  // ---------------------------------------------------------------- dispatching

  /** What dispatching alone leaves in a history. */
  lemma DispatchOn(t: Trace, e: Event, sid: U32)
    requires e.Dispatched? && e.sid == sid
    requires var v := Observe(t, sid);
             v.phase == NotStarted && v.dispatches == 0 && v.responses == 0 && v.body.None? && v.sent == []
                 && BlockOn(t, sid) == []
    ensures Unanswered(After(t, e), sid) && ResetOn(After(t, e), sid) == ResetOn(t, sid)
    ensures WritingOf(After(t, e)) == WritingOf(t) && AllWellFormed(After(t, e)) == AllWellFormed(t)
  {
  }

  /** A request that is being handed over, its stream in neither queue. */
  ghost predicate Handing(c: Conn, t: Trace, sid: U32) {
    var v := Observe(t, sid);
    && 0 < sid < 0x8000_0000 && Nowhere(c, sid) && WritingOf(t) == Clear && AllWellFormed(t)
    && v.phase == NotStarted && v.dispatches == 0 && v.responses == 0 && v.body.None? && v.sent == []
    && BlockOn(t, sid) == []
  }

  lemma AssignOne(g: map<U32, Routing>, out: seq<Event>, routing: Routing)
    requires out != [] && forall i :: 0 < i < |out| ==> !out[i].Dispatched?
    ensures Assign(g, out, routing) == if out[0].Dispatched? then g[out[0].sid := routing] else g
  {
    AssignNone(if out[0].Dispatched? then g[out[0].sid := routing] else g, out[1..], routing);
  }

  lemma {:induction false} AssignNone(g: map<U32, Routing>, out: seq<Event>, routing: Routing)
    requires forall e :: e in out ==> !e.Dispatched?
    ensures Assign(g, out, routing) == g
    decreases |out|
  {
    if out != [] {
      assert !out[0].Dispatched?;
      AssignNone(g, out[1..], routing);
    }
  }

  lemma {:induction false} AssignAppend(g: map<U32, Routing>, a: seq<Event>, b: seq<Event>, routing: Routing)
    ensures Assign(g, a + b, routing) == Assign(Assign(g, a, routing), b, routing)
    decreases |a|
  {
    if a == [] {
      assert a + b == b;
    } else {
      assert (a + b)[0] == a[0] && (a + b)[1..] == a[1..] + b;
      AssignAppend(if a[0].Dispatched? then g[a[0].sid := routing] else g, a[1..], b, routing);
    }
  }

  lemma QueueNoDispatch(c: Conn, sid: U32, r: Response, reader: Option<Reader>)
    ensures forall e :: e in QueueResponse(c, sid, r, reader).out ==> !e.Dispatched?
  {
    hide HeaderFrames, HeaderBlock, ResponseBody;
  }

  lemma DispatchOk(c: Conn, t: Trace, g: map<U32, Routing>, sid: U32, st: Stream, routing: Routing)
    requires Handing(c, t, sid)
    ensures var s := Dispatch(c, sid, st, routing);
            && Subjects(s.out, sid)
            && (s.Next? ==>
                  && QueuesApart(c, s.conn, sid) && s.conn.config == c.config
                  && Assign(g, s.out, routing) == g[sid := routing]
                  && StreamOk(s.conn, Extend(t, s.out), g[sid := routing], sid))
            && (s.Stop? ==> s.out == [])
  {
    hide QueueResponse, Observe, WritingOf, AllWellFormed, BlockOn, ResetOn, BodyOf, Fields, Kept, StreamOk;
    var e := Dispatched(sid, st.requestHeaders, st.requestBody);
    var t1, g1 := After(t, e), g[sid := routing];
    DispatchOn(t, e, sid);
    match routing
    case Reject(_) =>
    case Immediate(r) =>
      var q := QueueResponse(c, sid, r, None);
      AnsweredOk(c, t1, g1, sid, r, None);
      QueueNoDispatch(c, sid, r, None);
      QueueConfig(c, sid, r, None);
      var out := [e] + q.out;
      assert forall i :: 0 < i < |out| ==> out[i] in q.out;
      AssignOne(g, out, routing);
      assert out[1..] == q.out;
    case Upstream(script) =>
      var s := Dispatch(c, sid, st, routing);
      AssignOne(g, s.out, routing);
      ExtendOne(t, e);
      WaitingOk(c, t1, g1, sid, script);
  }

  lemma QueueConfig(c: Conn, sid: U32, r: Response, reader: Option<Reader>)
    ensures QueueResponse(c, sid, r, reader).conn.config == c.config
  {
    hide HeaderFrames, HeaderBlock, ResponseBody, MarkClosed;
  }

  /** A stream that now waits for its upstream. */
  lemma WaitingOk(c: Conn, t: Trace, g: map<U32, Routing>, sid: U32, script: seq<PollEvent>)
    requires Unanswered(t, sid) && Nowhere(c, sid) && sid in g && g[sid] == Upstream(script)
    ensures var c' := c.(headerQ := c.headerQ + [PendingHeader(sid, script)]);
            QueuesApart(c, c', sid) && StreamOk(c', t, g, sid)
  {
    hide Observe, BlockOn, ResetOn, BodyOf, Kept, ReplyOf, AnswerOf;
    NowhereNone(c, sid);
    var p := PendingHeader(sid, script);
    var c' := c.(headerQ := c.headerQ + [p]);
    assert p in c'.headerQ;
  }

  // ---------------------------------------------------------------- polling

  lemma DetachedNowhere(c: Conn, t: Trace, sid: U32)
    requires Loose(c, t, Some(sid))
    ensures Nowhere(c, sid) && 0 < sid < 0x8000_0000 && sid in c.windows
  {
    hide Observe, Ties, Credits, OpenStreams, Numbers, HeaderIds, BodyIds;
    StreamIdOk(c, sid);
  }

  lemma SafeWriting(t: Trace)
    requires SafeTrace(t)
    ensures WritingOf(t) == Clear && AllWellFormed(t)
  {
  }

  lemma WaitingUnanswered(config: Config, g: map<U32, Routing>, t: Trace, sid: U32)
    requires WaitingTie(Observe(t, sid)) && True(config, g, t, sid)
    ensures Unanswered(t, sid)
  {
    hide Observe, BlockOn, BodyOf, ReplyOf;
  }

  /** A reset by the server is the end of the stream's response. */
  lemma AbortOn(t: Trace, sid: U32, code: ErrorCode)
    requires sid != 0
    ensures var v, t' := Observe(t, sid), After(t, Sent(RstFrame(sid, code))); var v' := Observe(t', sid);
            && v'.dispatches == v.dispatches && v'.responses == v.responses && v'.body == v.body && v'.sent == v.sent
            && (v.phase in {NotStarted, Streaming} ==> v'.phase == Aborted)
            && BlockOn(t', sid) == BlockOn(t, sid) && ResetOn(t', sid) == ResetOn(t, sid)
  {
  }

  /** One poll of the front upstream. */
  lemma PollFrontOk(c: Conn, t: Trace, g: map<U32, Routing>)
    requires Inv(c, t) && AllOk(c, t, g) && c.headerQ != []
    ensures var turn := PollFront(c); AllOk(turn.conn, Extend(t, turn.out), g)
  {
    hide Loose, SafeTrace, Observe, WaitingTie, QueueResponse, MarkClosed, StreamOk, ReplyOf, Extend, BlockOn, ResetOn;
    hide AllOk, Nowhere, QueuesApart, TracesApart;
    var p, c1 := c.headerQ[0], c.(headerQ := c.headerQ[1..]);
    var sid, turn := p.sid, PollFront(c);
    DetachHeader(c, t);
    DetachedNowhere(c1, t, sid);
    OkAt(c, t, g, sid);
    WaitingUnanswered(c.config, g, t, sid);
    SafeWriting(t);
    FrontGiven(c, t, g);
    ConnectionLedger.PollFrontBooked(c);
    SameGiven(g, sid);
    if p.script == [] || p.script[0].HeadersPending? {
      var p' := if p.script == [] then p else PendingHeader(sid, p.script[1..]);
      ExtendNone(t);
      PollAgainOk(c1, t, g, p');
      FrontApart(c, turn.conn, sid, [p']);
      SameTrace(t, sid);
    } else if p.script[0].UpstreamFailed? {
      var e := Sent(RstFrame(sid, InternalError));
      ExtendOne(t, e);
      AbortOn(t, sid, InternalError);
      FailedOk(c1, t, g, sid);
      FrontApart(c, turn.conn, sid, []);
      ApartOne(t, e, sid);
    } else {
      AnsweredOk(c1, t, g, sid, p.script[0].response, p.script[0].reader);
      ApartExtend(t, turn.out, sid);
      FrontApart(c, c1, sid, []);
      QueuesTwice(c, c1, turn.conn, sid);
    }
    OneStream(c, t, g, turn.conn, Extend(t, turn.out), g, sid);
  }

  lemma OkAt(c: Conn, t: Trace, g: map<U32, Routing>, sid: U32)
    requires AllOk(c, t, g) && sid != 0
    ensures StreamOk(c, t, g, sid) && True(c.config, g, t, sid)
  {
    assert StreamOk(c, t, g, sid);
    hide True, Present;
  }

  /** The front upstream's answer is still the one given. */
  lemma FrontGiven(c: Conn, t: Trace, g: map<U32, Routing>)
    requires c.headerQ != [] && StreamOk(c, t, g, c.headerQ[0].sid)
    ensures var p := c.headerQ[0];
            && WaitingFor(p, g)
            && (p.script != [] && p.script[0].HeadersReady? ==>
                  ReplyOf(g[p.sid]) == Some(Reply(p.script[0].response, p.script[0].reader)))
            && (p.script != [] && p.script[0].UpstreamFailed? ==> AnswerOf(g[p.sid].script) == Some(UpstreamFailed))
            && (p.script != [] && p.script[0].HeadersPending? ==> WaitingFor(PendingHeader(p.sid, p.script[1..]), g))
  {
    hide True, Present;
    assert c.headerQ[0] in c.headerQ;
  }

  lemma SameGiven(g: map<U32, Routing>, sid: U32)
    ensures GivenApart(g, g, sid)
  {
  }

  lemma SameTrace(t: Trace, sid: U32)
    ensures TracesApart(t, t, sid)
  {
  }

  lemma QueuesTwice(a: Conn, b: Conn, c: Conn, sid: U32)
    requires QueuesApart(a, b, sid) && QueuesApart(b, c, sid)
    ensures QueuesApart(a, c, sid)
  {
  }

  /** Taking the front entry away, and perhaps putting one for the same stream at the back, leaves the others. */
  lemma FrontApart(c: Conn, c': Conn, sid: U32, back: seq<PendingHeader>)
    requires c.headerQ != [] && c.headerQ[0].sid == sid && forall p :: p in back ==> p.sid == sid
    requires c'.headerQ == c.headerQ[1..] + back && c'.bodyQ == c.bodyQ
    ensures QueuesApart(c, c', sid)
  {
    assert c.headerQ == [c.headerQ[0]] + c.headerQ[1..];
  }

  lemma PollAgainOk(c: Conn, t: Trace, g: map<U32, Routing>, p: PendingHeader)
    requires Unanswered(t, p.sid) && Nowhere(c, p.sid) && WaitingFor(p, g)
    ensures StreamOk(c.(headerQ := c.headerQ + [p]), t, g, p.sid)
  {
    hide Observe, BlockOn, ResetOn, BodyOf, Kept, ReplyOf, AnswerOf;
    NowhereNone(c, p.sid);
    assert p in c.headerQ + [p];
  }

  lemma FailedOk(c: Conn, t: Trace, g: map<U32, Routing>, sid: U32)
    requires Unanswered(t, sid) && Nowhere(c, sid) && sid != 0
    requires sid in g && g[sid].Upstream? && AnswerOf(g[sid].script) == Some(UpstreamFailed)
    ensures StreamOk(Release(c, sid), After(t, Sent(RstFrame(sid, InternalError))), g, sid)
  {
    hide Observe, BlockOn, ResetOn, BodyOf, Kept, ReplyOf, AnswerOf;
    AbortOn(t, sid, InternalError);
    NowhereNone(c, sid);
  }

  lemma {:induction false} PollManyOk(c: Conn, t: Trace, g: map<U32, Routing>, n: nat)
    requires Inv(c, t) && AllOk(c, t, g) && n <= |c.headerQ|
    ensures var turn := PollMany(c, n); AllOk(turn.conn, Extend(t, turn.out), g)
    decreases n
  {
    hide Inv, PollFront, Extend, AllOk;
    if n == 0 {
      ExtendNone(t);
    } else {
      var first := PollFront(c);
      PollFrontKeeps(c, t);
      PollFrontOk(c, t, g);
      PollManyOk(first.conn, Extend(t, first.out), g, n - 1);
      ExtendAppend(t, first.out, PollMany(first.conn, n - 1).out);
    }
  }

  // ---------------------------------------------------------------- sending

  /** A stream whose response is under way, with its body taken from the queue. */
  ghost predicate Sending(c: Conn, t: Trace, g: map<U32, Routing>, p: PendingResponse) {
    var v := Observe(t, p.sid);
    && 0 < p.sid < 0x8000_0000 && Nowhere(c, p.sid) && v.phase == Streaming
    && True(c.config, g, t, p.sid) && SendingTie(p.body, v) && SendingOn(p, v)
  }

  lemma FrontSending(c: Conn, t: Trace, g: map<U32, Routing>)
    requires Inv(c, t) && AllOk(c, t, g) && c.bodyQ != []
    ensures var p, c1 := c.bodyQ[0], c.(bodyQ := c.bodyQ[1..]); Sending(c1, t, g, p) && p.sid in c1.windows
    ensures WritingOf(t) == Clear && AllWellFormed(t)
  {
    hide Loose, Observe, SendingTie, StreamOk, True, Nowhere, WritingOf, AllWellFormed, AllOk;
    var p, c1 := c.bodyQ[0], c.(bodyQ := c.bodyQ[1..]);
    FrontBody(c, t);
    DetachedNowhere(c1, t, p.sid);
    OkAt(c, t, g, p.sid);
    FrontKept(c, t, g);
  }

  lemma FrontKept(c: Conn, t: Trace, g: map<U32, Routing>)
    requires c.bodyQ != [] && StreamOk(c, t, g, c.bodyQ[0].sid)
    ensures SendingOn(c.bodyQ[0], Observe(t, c.bodyQ[0].sid))
  {
    hide True, Present;
    assert c.bodyQ[0] in c.bodyQ;
  }

  /** The rest of the body goes to the back of the queue. */
  lemma RequeueOk(c: Conn, t: Trace, g: map<U32, Routing>, p: PendingResponse)
    requires Nowhere(c, p.sid) && Observe(t, p.sid).phase == Streaming && True(c.config, g, t, p.sid)
    requires SendingOn(p, Observe(t, p.sid))
    ensures var c' := c.(bodyQ := c.bodyQ + [p]); StreamOk(c', t, g, p.sid) && QueuesApart(c, c', p.sid)
  {
    hide Observe, BlockOn, ResetOn, BodyOf, Kept, True;
    NowhereNone(c, p.sid);
    assert p in c.bodyQ + [p];
  }

  /** A stream that is over has nothing queued. */
  lemma OverOk(c: Conn, t: Trace, g: map<U32, Routing>, sid: U32)
    requires Nowhere(c, sid) && Observe(t, sid).phase in {Finished, Aborted} && True(c.config, g, t, sid)
    ensures StreamOk(c, t, g, sid)
  {
    hide Observe, BlockOn, ResetOn, BodyOf, Kept, True;
    NowhereNone(c, sid);
  }

  lemma DataOn(t: Trace, sid: U32, data: seq<Byte>, endStream: bool)
    requires |data| <= MAX_ALLOWED_FRAME_SIZE
    ensures var t' := After(t, Sent(DataFrame(sid, data, endStream)));
            BlockOn(t', sid) == BlockOn(t, sid) && ResetOn(t', sid) == ResetOn(t, sid)
  {
  }

  /** DATA says nothing about the answer. */
  lemma DataTrue(config: Config, g: map<U32, Routing>, t: Trace, sid: U32, data: seq<Byte>, endStream: bool)
    requires 0 < sid < 0x8000_0000 && |data| <= MAX_ALLOWED_FRAME_SIZE && WritingOf(t) == Clear
    requires Observe(t, sid).phase == Streaming && True(config, g, t, sid)
    ensures var t' := After(t, Sent(DataFrame(sid, data, endStream)));
            && True(config, g, t', sid) && TracesApart(t, t', sid)
            && Observe(t', sid).phase == (if endStream then Finished else Streaming)
            && Observe(t', sid).sent == Observe(t, sid).sent + data && Observe(t', sid).body == Observe(t, sid).body
  {
    hide Observe, BlockOn, ResetOn, WritingOf, BodyOf, ReplyOf, AnswerOf, TracesApart, MayFail;
    DataEvent(t, sid, data, endStream);
    DataOn(t, sid, data, endStream);
    ApartOne(t, Sent(DataFrame(sid, data, endStream)), sid);
  }

  lemma LastOk(c: Conn, c': Conn, t: Trace, g: map<U32, Routing>, sid: U32, data: seq<Byte>)
    requires 0 < sid < 0x8000_0000 && |data| <= MAX_ALLOWED_FRAME_SIZE && WritingOf(t) == Clear && Nowhere(c, sid)
    requires Observe(t, sid).phase == Streaming && True(c.config, g, t, sid)
    requires c'.headerQ == c.headerQ && c'.bodyQ == c.bodyQ && c'.config == c.config
    ensures var t' := Extend(t, [Sent(DataFrame(sid, data, true))]);
            StreamOk(c', t', g, sid) && QueuesApart(c, c', sid) && TracesApart(t, t', sid)
  {
    hide Observe, True, TracesApart, WritingOf, StreamOk, Extend;
    DataTrue(c.config, g, t, sid, data, true);
    ExtendOne(t, Sent(DataFrame(sid, data, true)));
    OverOk(c', After(t, Sent(DataFrame(sid, data, true))), g, sid);
  }

  lemma MoreOk(c: Conn, c': Conn, t: Trace, g: map<U32, Routing>, p: PendingResponse, data: seq<Byte>)
    requires 0 < p.sid < 0x8000_0000 && |data| <= MAX_ALLOWED_FRAME_SIZE && WritingOf(t) == Clear && Nowhere(c, p.sid)
    requires Observe(t, p.sid).phase == Streaming && True(c.config, g, t, p.sid)
    requires var v := Observe(t, p.sid); v.body.Some? && Kept(v.body.value, v.sent + data, p.body)
    requires c'.headerQ == c.headerQ && c'.bodyQ == c.bodyQ + [p] && c'.config == c.config
    ensures var t' := Extend(t, [Sent(DataFrame(p.sid, data, false))]);
            StreamOk(c', t', g, p.sid) && QueuesApart(c, c', p.sid) && TracesApart(t, t', p.sid)
  {
    hide Observe, True, TracesApart, WritingOf, StreamOk, Extend, Kept;
    DataTrue(c.config, g, t, p.sid, data, false);
    ExtendOne(t, Sent(DataFrame(p.sid, data, false)));
    RequeueOk(c'.(bodyQ := c.bodyQ), After(t, Sent(DataFrame(p.sid, data, false))), g, p);
    assert c'.(bodyQ := c.bodyQ).(bodyQ := c.bodyQ + [p]) == c';
  }

  /** What a body yields goes out on its stream. */
  lemma SendReadOk(c: Conn, t: Trace, g: map<U32, Routing>, p: PendingResponse, max: nat)
    requires Sending(c, t, g, p) && p.sid in c.windows && WritingOf(t) == Clear
    requires 0 < max <= c.connWindow && max <= c.windows[p.sid] && max <= MAX_ALLOWED_FRAME_SIZE
    requires ReadChunk(p.body, max).Ok?
    ensures var turn := SendRead(c, p.sid, ReadChunk(p.body, max).value); var t' := Extend(t, turn.out);
            && StreamOk(turn.conn, t', g, p.sid) && QueuesApart(c, turn.conn, p.sid) && TracesApart(t, t', p.sid)
            && turn.conn.config == c.config
  {
    hide Observe, True, TracesApart, WritingOf, StreamOk, Extend, Kept, ReadChunk, MarkClosed, Progress, NextPart;
    hide QueuesApart, Nowhere;
    var v, step := Observe(t, p.sid), ReadChunk(p.body, max).value;
    ReadTie(v, p.body, max);
    ReadKept(v.body.value, v.sent, p.body, max);
    var turn := SendRead(c, p.sid, step);
    match step.read
    case NotReady =>
      ExtendNone(t);
      SameTrace(t, p.sid);
      RequeueOk(c, t, g, PendingResponse(p.sid, step.body));
    case Done => LastOk(c, turn.conn, t, g, p.sid, []);
    case Chunk(data, done) =>
      if done {
        LastOk(c, turn.conn, t, g, p.sid, data);
      } else {
        MoreOk(c, turn.conn, t, g, PendingResponse(p.sid, step.body), data);
      }
  }

  /** A body that cannot be read on ends its stream, and it was one that may fail. */
  lemma CutOk(c: Conn, t: Trace, g: map<U32, Routing>, p: PendingResponse, code: ErrorCode)
    requires Sending(c, t, g, p) && ReadFails(p.body)
    ensures var t' := After(t, Sent(RstFrame(p.sid, code)));
            StreamOk(Release(c, p.sid), t', g, p.sid) && TracesApart(t, t', p.sid)
  {
    hide Observe, BlockOn, ResetOn, BodyOf, ReplyOf, AnswerOf, Kept, MayFail, TracesApart, StreamOk, ReadFails;
    hide MarkClosed, Progress;
    var v, t' := Observe(t, p.sid), After(t, Sent(RstFrame(p.sid, code)));
    FailMeans(v.body.value, v.sent, p.body);
    AbortOn(t, p.sid, code);
    ApartOne(t, Sent(RstFrame(p.sid, code)), p.sid);
    OverOk(Release(c, p.sid), t', g, p.sid);
  }

  lemma BodyFrontApart(c: Conn, c': Conn, sid: U32)
    requires c.bodyQ != [] && c.bodyQ[0].sid == sid && QueuesApart(c.(bodyQ := c.bodyQ[1..]), c', sid)
    ensures QueuesApart(c, c', sid)
  {
    assert c.bodyQ == [c.bodyQ[0]] + c.bodyQ[1..];
  }

  lemma SameQueues(c: Conn, c': Conn, sid: U32)
    requires c'.headerQ == c.headerQ && c'.bodyQ == c.bodyQ
    ensures QueuesApart(c, c', sid)
  {
  }

  /** The turn of one response. */
  lemma ServeFrontOk(c: Conn, t: Trace, g: map<U32, Routing>, quota: nat)
    requires Inv(c, t) && AllOk(c, t, g) && c.bodyQ != [] && quota > 0
    ensures var turn := ServeFront(c, quota); AllOk(turn.conn, Extend(t, turn.out), g)
  {
    hide Inv, AllOk, SendRead, MarkClosed, ReadChunk, StreamOk, Extend, TracesApart, QueuesApart, WritingOf;
    hide AllWellFormed, ReadFails, GivenApart, Nowhere, True, Observe, SendingTie, SendingOn;
    var p, c1 := c.bodyQ[0], c.(bodyQ := c.bodyQ[1..]);
    var sid, turn := p.sid, ServeFront(c, quota);
    FrontSending(c, t, g);
    SameGiven(g, sid);
    if c1.windows[sid] <= 0 || c1.connWindow <= 0 {
      ExtendNone(t);
      SameTrace(t, sid);
      RequeueOk(c1, t, g, p);
    } else {
      var max := Amount(c1, quota, c1.windows[sid]);
      ReadExactly(p.body, max);
      var r := ReadChunk(p.body, max);
      if r.Ok? {
        SendReadOk(c1, t, g, p, max);
      } else {
        CutOk(c1, t, g, p, r.code);
        ExtendOne(t, Sent(RstFrame(sid, r.code)));
        SameQueues(c1, turn.conn, sid);
      }
    }
    BodyFrontApart(c, turn.conn, sid);
    OneStream(c, t, g, turn.conn, Extend(t, turn.out), g, sid);
  }

  lemma {:induction false} ServeManyOk(c: Conn, t: Trace, g: map<U32, Routing>, quota: nat, n: nat)
    requires Inv(c, t) && AllOk(c, t, g) && n <= |c.bodyQ| && quota > 0
    ensures var turn := ServeMany(c, quota, n); AllOk(turn.conn, Extend(t, turn.out), g)
    decreases n
  {
    hide Inv, ServeFront, Extend, AllOk;
    if n == 0 {
      ExtendNone(t);
    } else {
      var first := ServeFront(c, quota);
      ServeFrontKeeps(c, t, quota);
      ServeFrontOk(c, t, g, quota);
      ServeManyOk(first.conn, Extend(t, first.out), g, quota, n - 1);
      ExtendAppend(t, first.out, ServeMany(first.conn, quota, n - 1).out);
    }
  }

  lemma ScheduleOk(c: Conn, t: Trace, g: map<U32, Routing>)
    requires Inv(c, t) && AllOk(c, t, g)
    ensures var turn := Schedule(c); AllOk(turn.conn, Extend(t, turn.out), g)
  {
    hide Inv, ServeMany, Extend, Share, AllOk;
    ExtendNone(t);
    if c.bodyQ != [] && c.connWindow > 0 {
      ServeManyOk(c, t, g, Share(c.connWindow, |c.bodyQ|), |c.bodyQ|);
    }
  }
}
