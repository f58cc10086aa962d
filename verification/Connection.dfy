/**
 The HTTP/2 connection (src/server/http2/connection.rs and stream.rs) as a state machine on values.
 One received frame, one poll of the upstream headers and one scheduling round are each one step; a step gives
 the next state and the events it causes, or stops the connection with an error code.
 */
module Connection {
  import opened Base
  import opened Frame
  import opened HpackTable
  import opened Sources
  import Hpack
  import Flow

  const TABLE_LIMIT := 4096
  const PEER_DEFAULT_WINDOW := 65_535

  /** The bytes of ":status". */
  const STATUS: seq<Byte> := [58, 115, 116, 97, 116, 117, 115]

  /** SETTINGS_MAX_FRAME_SIZE values the peer may announce. */
  type FrameSize = x: int | DEFAULT_MAX_FRAME_SIZE <= x <= MAX_ALLOWED_FRAME_SIZE witness DEFAULT_MAX_FRAME_SIZE

  // ---------------------------------------------------------------- response bodies

  datatype BodyData =
    | BytesBody(data: seq<Byte>, offset: nat)
    | FileBody(script: seq<ReadEvent>, remaining: nat)
    | ReaderBody(script: seq<ReadEvent>, left: Option<nat>)

  /** A response body; a byte vector's offset is inside its data. */
  type Body = b: BodyData | b.BytesBody? ==> b.offset <= |b.data| witness ReaderBody([], None)

  datatype BodyRead = Chunk(data: seq<Byte>, done: bool) | NotReady | Done

  datatype BodyStep = BodyStep(read: BodyRead, body: Body)

  /** `PendingBody::read_chunk` */
  function ReadChunk(b: Body, max: nat): (r: Result<BodyStep>)
    ensures r.Ok? && r.value.read.Chunk? ==> |r.value.read.data| <= max
  {
    match b
    case BytesBody(data, offset) =>
      var end := Min(offset + max, |data|);
      Ok(BodyStep(Chunk(data[offset..end], end == |data|), BytesBody(data, end)))
    case FileBody(script, remaining) => (
      match ReadSource(script, Min(remaining, max))
      case Got(bytes, rest) =>
        if bytes == [] then Err(InternalError)
        else Ok(BodyStep(Chunk(bytes, remaining == |bytes|), FileBody(rest, remaining - |bytes|)))
      case WouldBlock(_) => Err(InternalError)
      case Failed => Err(InternalError))
    case ReaderBody(script, left) =>
      var want := if left.Some? then Min(left.value, max) else max;
      if want == 0 then Ok(BodyStep(Done, b))
      else
        match ReadSource(script, want)
        case Got(bytes, rest) =>
          if bytes == [] then
            (if left.Some? && left.value != 0 then Err(InternalError) else Ok(BodyStep(Done, ReaderBody(rest, left))))
          else if left.None? then Ok(BodyStep(Chunk(bytes, false), ReaderBody(rest, None)))
          else Ok(BodyStep(Chunk(bytes, left.value == |bytes|), ReaderBody(rest, Some(left.value - |bytes|))))
        case WouldBlock(rest) => Ok(BodyStep(NotReady, ReaderBody(rest, left)))
        case Failed => Err(InternalError)
  }

  datatype BodySource =
    | BytesSource(data: seq<Byte>)
    | FileSource(script: seq<ReadEvent>, size: nat)
    | GzipSource(script: seq<ReadEvent>, size: nat)

  datatype Response = Response(status: seq<Byte>, headers: seq<Header>, source: BodySource)

  /** The body to send for a response, unless there is none. */
  function PendingBody(source: BodySource): Option<Body> {
    match source
    case BytesSource(data) => if data == [] then None else Some(BytesBody(data, 0))
    case FileSource(script, size) => if size == 0 then None else Some(FileBody(script, size))
    case GzipSource(script, size) => if size == 0 then None else Some(ReaderBody(script, None))
  }

  // ---------------------------------------------------------------- streams and queues

  datatype StreamState = Idle | ReservedLocal | ReservedRemote | Open | HalfClosedLocal | HalfClosedRemote | Closed

  /** `Stream::transition_to` */
  function Transition(from: StreamState, to: StreamState): Result<StreamState> {
    if || (from == Idle && to in {Open, HalfClosedRemote})
       || (from == Open && to in {HalfClosedRemote, HalfClosedLocal, Closed})
       || (from in {HalfClosedRemote, HalfClosedLocal, Closed} && to == Closed)
    then Ok(to) else Err(StreamClosed)
  }

  datatype Stream = Stream(
    state: StreamState, window: int, sendWindow: int,
    requestHeaders: seq<Header>, requestBody: seq<Byte>, endStream: bool, endHeaders: bool)

  /** An upstream body, with the length the upstream declared if it did. */
  datatype Reader = Reader(script: seq<ReadEvent>, left: Option<nat>)

  /** What successive polls for an upstream response yield. */
  datatype PollEvent =
    | HeadersPending
    | HeadersReady(response: Response, reader: Option<Reader>)
    | UpstreamFailed

  datatype PendingHeader = PendingHeader(sid: U32, script: seq<PollEvent>)
  datatype PendingResponse = PendingResponse(sid: U32, body: Body)

  /** How routing answers a complete request. */
  datatype Routing = Reject(code: ErrorCode) | Immediate(response: Response) | Upstream(script: seq<PollEvent>)

  /** The limits of the server configuration, and the HPACK encoder in use. */
  datatype Config = Config(
    maxConcurrentStreams: nat, maxHeaderBlock: nat, maxRequestSize: nat, initialWindow: U32, maxFrame: U32,
    encode: seq<Header> -> seq<Byte>)

  datatype Conn = Conn(
    config: Config,
    table: Hpack.Table,
    recvWindow: int,
    peerMaxFrame: FrameSize,
    connWindow: int,
    peerInitial: U32,
    windows: map<U32, int>,
    active: map<U32, Stream>,
    lastSid: U32,
    contSid: Option<U32>,
    contBlock: seq<Byte>,
    headerQ: seq<PendingHeader>,
    bodyQ: seq<PendingResponse>,
    closed: seq<U32>)

  function Initial(config: Config): Conn {
    Conn(config, Hpack.Table([], TABLE_LIMIT), Flow.AsI32(config.initialWindow), DEFAULT_MAX_FRAME_SIZE,
         PEER_DEFAULT_WINDOW, PEER_DEFAULT_WINDOW, map[], map[], 0, None, [], [], [], [])
  }

  /** What happens on the connection: frames in and out, and the exchanges with request handling. */
  datatype Event =
    | Received(frame: Frame)
    | Sent(frame: Frame)
    | Dispatched(sid: U32, headers: seq<Header>, body: seq<Byte>)
    | Responded(sid: U32, answer: Option<Body>)

  datatype Step = Next(conn: Conn, out: seq<Event>) | Stop(code: ErrorCode, lastSid: U32, out: seq<Event>)

  function Then(out: seq<Event>, s: Step): Step {
    match s
    case Next(c, more) => Next(c, out + more)
    case Stop(code, last, more) => Stop(code, last, out + more)
  }

  // ---------------------------------------------------------------- frames the server writes

  function Flag(b: bool, mask: Byte): Byte { if b then mask else 0 }

  function DataFrame(sid: U32, data: seq<Byte>, endStream: bool): Frame
    requires |data| <= MAX_ALLOWED_FRAME_SIZE
  {
    Frame(FrameHeader(|data|, DataType, Flag(endStream, END_STREAM), sid), Data(data, endStream))
  }

  function HeadersFrame(sid: U32, block: seq<Byte>, endStream: bool, endHeaders: bool): Frame
    requires |block| <= MAX_ALLOWED_FRAME_SIZE
  {
    Frame(FrameHeader(|block|, HeadersType, Flag(endHeaders, END_HEADERS) + Flag(endStream, END_STREAM), sid),
          Headers(block, endStream, endHeaders))
  }

  function ContinuationFrame(sid: U32, block: seq<Byte>, endHeaders: bool): Frame
    requires |block| <= MAX_ALLOWED_FRAME_SIZE
  {
    Frame(FrameHeader(|block|, ContinuationType, Flag(endHeaders, END_HEADERS), sid), Continuation(block, endHeaders))
  }

  function RstFrame(sid: U32, code: ErrorCode): Frame {
    Frame(FrameHeader(4, RstStreamType, 0, sid), RstStream(code))
  }

  function WindowUpdateFrame(sid: U32, increment: U32): Frame {
    Frame(FrameHeader(4, WindowUpdateType, 0, sid), WindowUpdate(increment))
  }

  /** The SETTINGS frame that opens the connection; the stream limit is cut to 32 bits. */
  function ServerSettings(config: Config): Frame {
    Frame(FrameHeader(18, SettingsType, 0, 0),
          Settings([Setting(MaxConcurrentStreams, config.maxConcurrentStreams % 0x1_0000_0000),
                    Setting(InitialWindowSize, config.initialWindow), Setting(MaxFrameSize, config.maxFrame)], false))
  }

  const SETTINGS_ACK := Frame(FrameHeader(0, SettingsType, ACK, 0), Settings([], true))

  function PingAck(data: seq<Byte>): Frame {
    Frame(FrameHeader(8, PingType, ACK, 0), Ping(data, true))
  }

  function GoAwayFrame(lastSid: U32, code: ErrorCode): Frame {
    Frame(FrameHeader(8, GoAwayType, 0, 0), GoAway(lastSid, code, []))
  }

  /** The fragments after the first, each as large as the peer allows. */
  function Continuations(sid: U32, rest: seq<Byte>, max: FrameSize): seq<Frame> {
    if rest == [] then []
    else
      var n := Min(max, |rest|);
      [ContinuationFrame(sid, rest[..n], n == |rest|)] + Continuations(sid, rest[n..], max)
  }

  function HeaderFrames(sid: U32, block: seq<Byte>, endStream: bool, max: FrameSize): seq<Frame> {
    var n := Min(|block|, max);
    [HeadersFrame(sid, block[..n], endStream, n == |block|)] + Continuations(sid, block[n..], max)
  }

  function Sends(frames: seq<Frame>): (out: seq<Event>)
    ensures |out| == |frames|
  {
    seq(|frames|, i requires 0 <= i < |frames| => Sent(frames[i]))
  }

  // ---------------------------------------------------------------- closing and answering

  function ClosedLimit(config: Config): nat {
    Max(2 * config.maxConcurrentStreams, 16)
  }

  /** `mark_closed_stream`: a bounded list without repetitions, oldest first. */
  function MarkClosed(closed: seq<U32>, sid: U32, limit: nat): seq<U32> {
    if sid in closed then closed
    else if |closed| + 1 > limit then (closed + [sid])[|closed| + 1 - limit..]
    else closed + [sid]
  }

  function Release(c: Conn, sid: U32): Conn {
    c.(windows := c.windows - {sid}, closed := MarkClosed(c.closed, sid, ClosedLimit(c.config)))
  }

  function HeaderBlock(c: Conn, r: Response): seq<Byte> {
    c.config.encode([Header(STATUS, r.status)] + r.headers)
  }

  function ResponseBody(r: Response, reader: Option<Reader>): Option<Body> {
    if reader.Some? then Some(ReaderBody(reader.value.script, reader.value.left)) else PendingBody(r.source)
  }

  /** `queue_h2_stream_response`: the header block goes out at once, a body waits for the scheduler. */
  function QueueResponse(c: Conn, sid: U32, r: Response, reader: Option<Reader>): (s: Step)
    ensures s.Next?
  {
    var body := ResponseBody(r, reader);
    var out := [Responded(sid, body)] + Sends(HeaderFrames(sid, HeaderBlock(c, r), body.None?, c.peerMaxFrame));
    if body.None? then Next(Release(c, sid), out)
    else Next(c.(bodyQ := c.bodyQ + [PendingResponse(sid, body.value)]), out)
  }

  function Dispatch(c: Conn, sid: U32, st: Stream, routing: Routing): Step {
    match routing
    case Reject(code) => Stop(code, c.lastSid, [])
    case Immediate(r) => Then([Dispatched(sid, st.requestHeaders, st.requestBody)], QueueResponse(c, sid, r, None))
    case Upstream(script) =>
      Next(c.(headerQ := c.headerQ + [PendingHeader(sid, script)]),
          [Dispatched(sid, st.requestHeaders, st.requestBody)])
  }

  // ---------------------------------------------------------------- received frames

  /** Frames as `Frame::parse` delivers them. */
  predicate FromWire(f: Frame) {
    && KindMatches(f.header.frameType, f.payload)
    && f.header.streamId < 0x8000_0000
    && (f.payload.Data? ==> f.header.streamId != 0 && |f.payload.data| <= MAX_ALLOWED_FRAME_SIZE)
    && (f.payload.Headers? || f.payload.Continuation? || f.payload.RstStream? ==> f.header.streamId != 0)
    && (f.payload.Settings? || f.payload.Ping? || f.payload.GoAway? ==> f.header.streamId == 0)
    && (f.payload.Ping? ==> |f.payload.opaqueData| == 8)
    && (f.payload.WindowUpdate? ==> 0 < f.payload.windowSizeIncrement < 0x8000_0000)
  }

  /** Every window moved by `delta`, unless one of them would leave its range. */
  function AdjustWindows(windows: map<U32, int>, delta: int): Result<map<U32, int>> {
    if forall sid :: sid in windows ==> Flow.Adjusted(windows[sid], delta).Ok?
    then Ok(map sid | sid in windows :: windows[sid] + delta)
    else Err(FlowControlError)
  }

  function AdjustStreams(active: map<U32, Stream>, delta: int): Result<map<U32, Stream>> {
    if forall sid :: sid in active ==> Flow.Adjusted(active[sid].sendWindow, delta).Ok?
    then Ok(map sid | sid in active :: active[sid].(sendWindow := active[sid].sendWindow + delta))
    else Err(FlowControlError)
  }

  function ApplySetting(c: Conn, s: Setting): Result<Conn> {
    match s.id
    case MaxFrameSize =>
      if s.value < 16_384 || s.value > 16_777_215 then Err(FrameSizeError) else Ok(c.(peerMaxFrame := s.value))
    case InitialWindowSize =>
      if s.value > 2_147_483_647 then Err(FlowControlError)
      else
        var delta := s.value - c.peerInitial;
        var active :- AdjustStreams(c.active, delta);
        var windows :- AdjustWindows(c.windows, delta);
        Ok(c.(active := active, windows := windows, peerInitial := s.value))
    case _ => Ok(c)
  }

  function ApplySettings(c: Conn, settings: seq<Setting>): Result<Conn>
    decreases |settings|
  {
    if settings == [] then Ok(c)
    else
      var next :- ApplySetting(c, settings[0]);
      ApplySettings(next, settings[1..])
  }

  function HeadersComplete(st: Stream, headers: seq<Header>): Stream {
    st.(requestHeaders := st.requestHeaders + headers, endHeaders := true)
  }

  /** The request is complete; a state that cannot be left stays. */
  function HalfClose(st: Stream): Stream {
    match Transition(st.state, HalfClosedRemote)
    case Ok(state) => st.(state := state)
    case Err(_) => st
  }

  /** With its header block decoded, a request that has no body to come is dispatched. */
  function FinishDecoded(c: Conn, sid: U32, b: Hpack.Block, routing: Routing): Step {
    var c := c.(table := b.table);
    if sid !in c.active then Next(c, [])
    else
      var st := HeadersComplete(c.active[sid], b.headers);
      if st.endStream then Dispatch(c.(active := c.active - {sid}), sid, HalfClose(st), routing)
      else Next(c.(active := c.active[sid := st]), [])
  }

  function FinishHeaders(c: Conn, sid: U32, block: seq<Byte>, routing: Routing): Step {
    match Hpack.DecodeBlock(c.table, TABLE_LIMIT, c.config.maxHeaderBlock, block)
    case Err(code) => Stop(code, c.lastSid, [])
    case Ok(b) => FinishDecoded(c, sid, b, routing)
  }

  function NewStream(c: Conn, endStream: bool): Stream {
    Stream(Open, Flow.AsI32(c.config.initialWindow), Flow.AsI32(c.peerInitial), [], [], endStream, false)
  }

  function OnHeaders(c: Conn, sid: U32, block: seq<Byte>, endStream: bool, endHeaders: bool, routing: Routing): Step {
    if sid == 0 || sid % 2 == 0 then Stop(ProtocolError, c.lastSid, [])
    else if sid <= c.lastSid then Stop(ProtocolError, c.lastSid, [])
    else
      var c := c.(lastSid := sid);
      if |c.windows| >= c.config.maxConcurrentStreams then
        Next(c.(closed := MarkClosed(c.closed, sid, ClosedLimit(c.config))), [Sent(RstFrame(sid, RefusedStream))])
      else
        var c := c.(windows := c.windows[sid := Flow.AsI32(c.peerInitial)],
          active := c.active[sid := NewStream(c, endStream)]);
        if endHeaders then FinishHeaders(c, sid, block, routing)
        else if |block| > c.config.maxHeaderBlock then Stop(EnhanceYourCalm, c.lastSid, [])
        else Next(c.(contSid := Some(sid), contBlock := block), [])
  }

  function OnContinuation(c: Conn, sid: U32, block: seq<Byte>, endHeaders: bool, routing: Routing): Step {
    var all := c.contBlock + block;
    if |all| > c.config.maxHeaderBlock then Stop(EnhanceYourCalm, c.lastSid, [])
    else if endHeaders then FinishHeaders(c.(contSid := None, contBlock := []), sid, all, routing)
    else Next(c.(contBlock := all), [])
  }

  /** Take `n` bytes from both receive windows and give them back at once. */
  function Replenish(connection: int, stream: int, n: nat): Result<(int, int)> {
    if n == 0 then Ok((connection, stream))
    else
      var a :- Flow.Consumed(connection, n);
      var b :- Flow.Consumed(stream, n);
      var a' :- Flow.Updated(a, n);
      var b' :- Flow.Updated(b, n);
      Ok((a', b'))
  }

  /** The two frames that give back the credit for `n` bytes of a request body. */
  function Credit(sid: U32, n: nat): seq<Event>
    requires n <= MAX_ALLOWED_FRAME_SIZE
  {
    if n == 0 then [] else [Sent(WindowUpdateFrame(0, n)), Sent(WindowUpdateFrame(sid, n))]
  }

  function OnData(c: Conn, sid: U32, data: seq<Byte>, endStream: bool, routing: Routing): Step
    requires |data| <= MAX_ALLOWED_FRAME_SIZE
  {
    if sid !in c.active then Stop(StreamClosed, c.lastSid, [])
    else
      var st := c.active[sid];
      match Replenish(c.recvWindow, st.window, |data|)
      case Err(code) => Stop(code, c.lastSid, [])
      case Ok((connection, stream)) =>
        var out := Credit(sid, |data|);
        if |data| > SaturatingSub(c.config.maxRequestSize, |st.requestBody|) then Stop(EnhanceYourCalm, c.lastSid, out)
        else
          var st := st.(window := stream, requestBody := st.requestBody + data);
          var c := c.(recvWindow := connection);
          if endStream then
            Then(out, Dispatch(c.(active := c.active - {sid}), sid, HalfClose(st.(endStream := true)), routing))
          else Next(c.(active := c.active[sid := st]), out)
  }

  function OnWindowUpdate(c: Conn, sid: U32, increment: U32): Step {
    if sid == 0 then
      match Flow.Updated(c.connWindow, increment)
      case Ok(w) => Next(c.(connWindow := w), [])
      case Err(code) => Stop(code, c.lastSid, [])
    else if sid in c.active then
      match Flow.Updated(c.active[sid].sendWindow, increment)
      case Err(code) => Stop(code, c.lastSid, [])
      case Ok(shadow) =>
        match Flow.Updated(if sid in c.windows then c.windows[sid] else Flow.AsI32(c.peerInitial), increment)
        case Err(code) => Stop(code, c.lastSid, [])
        case Ok(w) =>
          Next(c.(active := c.active[sid := c.active[sid].(sendWindow := shadow)], windows := c.windows[sid := w]), [])
    else if sid in c.windows then
      match Flow.Updated(c.windows[sid], increment)
      case Ok(w) => Next(c.(windows := c.windows[sid := w]), [])
      case Err(code) => Stop(code, c.lastSid, [])
    else if sid in c.closed then Next(c, [])
    else Stop(ProtocolError, c.lastSid, [])
  }

  function WithoutHeader(q: seq<PendingHeader>, sid: U32): (r: seq<PendingHeader>) {
    if q == [] then []
    else if q[0].sid == sid then WithoutHeader(q[1..], sid)
    else [q[0]] + WithoutHeader(q[1..], sid)
  }

  function WithoutBody(q: seq<PendingResponse>, sid: U32): (r: seq<PendingResponse>) {
    if q == [] then []
    else if q[0].sid == sid then WithoutBody(q[1..], sid)
    else [q[0]] + WithoutBody(q[1..], sid)
  }

  function OnReset(c: Conn, sid: U32): Step {
    Next(Release(c.(active := c.active - {sid}, headerQ := WithoutHeader(c.headerQ, sid),
        bodyQ := WithoutBody(c.bodyQ, sid)), sid), [])
  }

  /** `process_frame` */
  function ProcessFrame(c: Conn, f: Frame, routing: Routing): Step
    requires FromWire(f)
  {
    var sid := f.header.streamId;
    if c.contSid.Some? && (sid != c.contSid.value || f.header.frameType != ContinuationType) then
      Stop(ProtocolError, c.lastSid, [])
    else if c.contSid.None? && f.header.frameType == ContinuationType then Stop(ProtocolError, c.lastSid, [])
    else
      match f.payload
      case Settings(settings, ack) =>
        if ack then Next(c, [])
        else (
          match ApplySettings(c, settings)
          case Ok(c') => Next(c', [Sent(SETTINGS_ACK)])
          case Err(code) => Stop(code, c.lastSid, []))
      case Ping(data, ack) => if ack then Next(c, []) else Next(c, [Sent(PingAck(data))])
      case Headers(block, endStream, endHeaders) => OnHeaders(c, sid, block, endStream, endHeaders, routing)
      case Continuation(block, endHeaders) => OnContinuation(c, sid, block, endHeaders, routing)
      case Data(data, endStream) => OnData(c, sid, data, endStream, routing)
      case WindowUpdate(increment) => OnWindowUpdate(c, sid, increment)
      case RstStream(_) => OnReset(c, sid)
      case GoAway(_, _, _) => Stop(NoError, c.lastSid, [])
      case Priority(_, _, _) => Next(c, [])
      case PushPromise(_, _) => Next(c, [])
      case Unknown(_) => Next(c, [])
  }

  // ---------------------------------------------------------------- polling and scheduling

  /** A step of a queue loop: the state, the events, and whether something was sent. */
  datatype Turn = Turn(conn: Conn, out: seq<Event>, progressed: bool)

  function Both(first: Turn, second: Turn): Turn {
    Turn(second.conn, first.out + second.out, first.progressed || second.progressed)
  }

  /** The front pending response header is polled once. */
  function PollFront(c: Conn): (r: Turn)
    requires c.headerQ != []
    ensures |r.conn.headerQ| >= |c.headerQ| - 1
  {
    var p := c.headerQ[0];
    var c := c.(headerQ := c.headerQ[1..]);
    if p.script == [] then Turn(c.(headerQ := c.headerQ + [p]), [], false)
    else
      match p.script[0]
      case HeadersPending => Turn(c.(headerQ := c.headerQ + [PendingHeader(p.sid, p.script[1..])]), [], false)
      case UpstreamFailed => Turn(Release(c, p.sid), [Sent(RstFrame(p.sid, InternalError))], true)
      case HeadersReady(response, reader) =>
        var s := QueueResponse(c, p.sid, response, reader);
        Turn(s.conn, s.out, true)
  }

  function PollMany(c: Conn, n: nat): Turn
    requires n <= |c.headerQ|
    decreases n
  {
    if n == 0 then Turn(c, [], false)
    else
      var first := PollFront(c);
      Both(first, PollMany(first.conn, n - 1))
  }

  /** `poll_pending_headers` */
  function Poll(c: Conn): Turn {
    PollMany(c, |c.headerQ|)
  }

  /** How much one turn may send: the quota, a frame, and both windows. */
  function Amount(c: Conn, quota: nat, streamWindow: nat): nat
    requires c.connWindow >= 0
  {
    Min(Min(Min(quota, c.peerMaxFrame), c.connWindow), streamWindow)
  }

  /** What the front response sends, its body having been read. */
  function SendRead(c: Conn, sid: U32, step: BodyStep): Turn
    requires sid in c.windows
    requires step.read.Chunk? ==>
               && |step.read.data| <= MAX_ALLOWED_FRAME_SIZE
               && Flow.Consumed(c.connWindow, |step.read.data|).Ok?
               && Flow.Consumed(c.windows[sid], |step.read.data|).Ok?
  {
    match step.read
    case NotReady => Turn(c.(bodyQ := c.bodyQ + [PendingResponse(sid, step.body)]), [], false)
    case Done => Turn(Release(c, sid), [Sent(DataFrame(sid, [], true))], true)
    case Chunk(data, done) =>
      if data == [] && !done then Turn(c.(bodyQ := c.bodyQ + [PendingResponse(sid, step.body)]), [], false)
      else if data == [] then Turn(Release(c, sid), [Sent(DataFrame(sid, [], true))], true)
      else
        var c := c.(connWindow := Flow.Consumed(c.connWindow, |data|).value,
                    windows := c.windows[sid := Flow.Consumed(c.windows[sid], |data|).value]);
        if done then Turn(Release(c, sid), [Sent(DataFrame(sid, data, true))], true)
        else Turn(c.(bodyQ := c.bodyQ + [PendingResponse(sid, step.body)]), [Sent(DataFrame(sid, data, false))], true)
  }

  /** The front response takes its turn. */
  function ServeFront(c: Conn, quota: nat): (r: Turn)
    requires c.bodyQ != []
    ensures |r.conn.bodyQ| >= |c.bodyQ| - 1
  {
    var p := c.bodyQ[0];
    var c := c.(bodyQ := c.bodyQ[1..]);
    if p.sid !in c.windows then Turn(c, [], false)
    else if c.windows[p.sid] <= 0 || c.connWindow <= 0 then Turn(c.(bodyQ := c.bodyQ + [p]), [], false)
    else
      match ReadChunk(p.body, Amount(c, quota, c.windows[p.sid]))
      case Err(code) => Turn(Release(c, p.sid), [Sent(RstFrame(p.sid, code))], true)
      case Ok(step) => SendRead(c, p.sid, step)
  }

  function ServeMany(c: Conn, quota: nat, n: nat): Turn
    requires n <= |c.bodyQ|
    decreases n
  {
    if n == 0 then Turn(c, [], false)
    else
      var first := ServeFront(c, quota);
      Both(first, ServeMany(first.conn, quota, n - 1))
  }

  /** The part of the connection window one response may use in a round. */
  function Share(window: nat, rounds: nat): (quota: nat)
    requires rounds > 0
    ensures quota > 0
  {
    Max(window / rounds, 1)
  }

  /** `schedule_pending_responses`: one round, every response getting an equal share of the connection window. */
  function Schedule(c: Conn): Turn
  {
    var rounds := |c.bodyQ|;
    if rounds == 0 || c.connWindow <= 0 then Turn(c, [], false)
    else ServeMany(c, Share(c.connWindow, rounds), rounds)
  }
}
