/**
 HTTP/2 frames (src/server/http2/frame.rs): the nine-byte header, the payload of every frame type,
 and the exact set of frames that survive being encoded and parsed back.
 */
module Frame {
  import opened Base

  const FRAME_HEADER_SIZE := 9
  const DEFAULT_MAX_FRAME_SIZE := 16_384
  const MAX_ALLOWED_FRAME_SIZE := 16_777_215

  type U16 = x: int | 0 <= x < 0x1_0000
  type U32 = x: int | 0 <= x < 0x1_0000_0000

  datatype FrameType =
    | DataType | HeadersType | PriorityType | RstStreamType | SettingsType | PushPromiseType
    | PingType | GoAwayType | WindowUpdateType | ContinuationType | UnknownType(code: Byte)

  datatype SettingId =
    | HeaderTableSize | EnablePush | MaxConcurrentStreams | InitialWindowSize
    | MaxFrameSize | MaxHeaderListSize | UnknownSetting(id: U16)

  datatype Setting = Setting(id: SettingId, value: U32)

  datatype FrameHeader = FrameHeader(length: U32, frameType: FrameType, flags: Byte, streamId: U32)

  datatype FramePayload =
    | Data(data: seq<Byte>, endStream: bool)
    | Headers(headerBlock: seq<Byte>, endStream: bool, endHeaders: bool)
    | Priority(streamDependency: U32, weight: Byte, exclusive: bool)
    | RstStream(errorCode: ErrorCode)
    | Settings(settings: seq<Setting>, ack: bool)
    | PushPromise(promisedStreamId: U32, headerBlock: seq<Byte>)
    | Ping(opaqueData: seq<Byte>, ack: bool)
    | GoAway(lastStreamId: U32, errorCode: ErrorCode, debugData: seq<Byte>)
    | WindowUpdate(windowSizeIncrement: U32)
    | Continuation(headerBlock: seq<Byte>, endHeaders: bool)
    | Unknown(payload: seq<Byte>)

  datatype Frame = Frame(header: FrameHeader, payload: FramePayload)

  const END_STREAM := 1
  const ACK := 1
  const END_HEADERS := 4
  const PADDED := 8
  const PRIORITY := 0x20

  /** `flags & mask != 0`, for a mask of one bit. */
  predicate Bit(flags: Byte, mask: int)
    requires mask > 0
  {
    flags / mask % 2 == 1
  }

  // ---------------------------------------------------------------- number formats

  function ErrorNumber(c: ErrorCode): U32 {
    match c
    case NoError => 0 case ProtocolError => 1 case InternalError => 2 case FlowControlError => 3
    case SettingsTimeout => 4 case StreamClosed => 5 case FrameSizeError => 6 case RefusedStream => 7
    case Cancel => 8 case CompressionError => 9 case ConnectError => 10 case EnhanceYourCalm => 11
    case InadequateSecurity => 12 case Http11Required => 13
  }

  function ErrorFromNumber(n: U32): ErrorCode {
    match n
    case 0 => NoError case 1 => ProtocolError case 2 => InternalError case 3 => FlowControlError
    case 4 => SettingsTimeout case 5 => StreamClosed case 6 => FrameSizeError case 7 => RefusedStream
    case 8 => Cancel case 9 => CompressionError case 10 => ConnectError case 11 => EnhanceYourCalm
    case 12 => InadequateSecurity case 13 => Http11Required
    case _ => ProtocolError
  }

  function TypeNumber(t: FrameType): Byte {
    match t
    case DataType => 0 case HeadersType => 1 case PriorityType => 2 case RstStreamType => 3
    case SettingsType => 4 case PushPromiseType => 5 case PingType => 6 case GoAwayType => 7
    case WindowUpdateType => 8 case ContinuationType => 9 case UnknownType(b) => b
  }

  function TypeFromNumber(b: Byte): FrameType {
    match b
    case 0 => DataType case 1 => HeadersType case 2 => PriorityType case 3 => RstStreamType
    case 4 => SettingsType case 5 => PushPromiseType case 6 => PingType case 7 => GoAwayType
    case 8 => WindowUpdateType case 9 => ContinuationType
    case other => UnknownType(other)
  }

  function SettingNumber(s: SettingId): U16 {
    match s
    case HeaderTableSize => 1 case EnablePush => 2 case MaxConcurrentStreams => 3
    case InitialWindowSize => 4 case MaxFrameSize => 5 case MaxHeaderListSize => 6
    case UnknownSetting(n) => n
  }

  function SettingFromNumber(n: U16): SettingId {
    match n
    case 1 => HeaderTableSize case 2 => EnablePush case 3 => MaxConcurrentStreams
    case 4 => InitialWindowSize case 5 => MaxFrameSize case 6 => MaxHeaderListSize
    case other => UnknownSetting(other)
  }

  function Be16(n: U16): (b: seq<Byte>)
    ensures |b| == 2
  {
    [n / 0x100, n % 0x100]
  }

  function FromBe16(b: seq<Byte>): (n: U16)
    requires |b| == 2
  {
    0x100 * (b[0] as int) + b[1]
  }

  function Be32(n: U32): (b: seq<Byte>)
    ensures |b| == 4
  {
    [n / 0x100_0000, n / 0x1_0000 % 0x100, n / 0x100 % 0x100, n % 0x100]
  }

  function FromBe32(b: seq<Byte>): (n: U32)
    requires |b| == 4
  {
    0x100_0000 * (b[0] as int) + 0x1_0000 * (b[1] as int) + 0x100 * (b[2] as int) + b[3]
  }

  /** `n & 0x7FFF_FFFF` */
  function Low31(n: U32): U32 {
    n % 0x8000_0000
  }

  lemma Be16RoundTrip(n: U16)
    ensures FromBe16(Be16(n)) == n
  {
  }

  lemma Be32RoundTrip(n: U32)
    ensures FromBe32(Be32(n)) == n
  {
    var q := n / 0x100;
    var r := q / 0x100;
    assert r == n / 0x1_0000 && r / 0x100 == n / 0x100_0000;
    assert n == 0x100 * q + n % 0x100 && q == 0x100 * r + q % 0x100 && r == 0x100 * (r / 0x100) + r % 0x100;
  }

  // ---------------------------------------------------------------- header

  function ParseHeader(buf: seq<Byte>): (r: Result<FrameHeader>) {
    if |buf| < FRAME_HEADER_SIZE then Err(FrameSizeError)
    else
      Ok(FrameHeader(
           FromBe32([0] + buf[..3]),
           TypeFromNumber(buf[3]),
           buf[4],
           Low31(FromBe32(buf[5..9]))))
  }

  function EncodeHeader(h: FrameHeader): (b: seq<Byte>)
    ensures |b| == FRAME_HEADER_SIZE
  {
    [h.length / 0x1_0000 % 0x100, h.length / 0x100 % 0x100, h.length % 0x100, TypeNumber(h.frameType), h.flags]
    + Be32(Low31(h.streamId))
  }

  lemma Low24(n: U32)
    ensures [n / 0x1_0000 % 0x100, n / 0x100 % 0x100, n % 0x100] == Be32(n % 0x100_0000)[1..]
    ensures Be32(n % 0x100_0000)[0] == 0
  {
    var l := n % 0x100_0000;
    var q := n / 0x100_0000;
    assert n == 0x100_0000 * q + l;
    assert n / 0x100 == 0x1_0000 * q + l / 0x100;
    assert n / 0x1_0000 == 0x100 * q + l / 0x1_0000;
    HighBitsDrop(l, 0x1_0000 * q);
    HighBitsDrop(l / 0x100, 0x100 * q);
    HighBitsDrop(l / 0x1_0000, q);
  }

  lemma HighBitsDrop(low: nat, high: nat)
    ensures (0x100 * high + low) % 0x100 == low % 0x100
  {
  }

  /** What the header codec keeps: the length modulo 2^24, the type number, the flags, the low 31 id bits. */
  lemma HeaderRoundTrip(h: FrameHeader, rest: seq<Byte>)
    ensures ParseHeader(EncodeHeader(h) + rest)
         == Ok(FrameHeader(h.length % 0x100_0000, TypeFromNumber(TypeNumber(h.frameType)), h.flags, Low31(h.streamId)))
  {
    var b := EncodeHeader(h) + rest;
    Be32RoundTrip(Low31(h.streamId));
    assert b[5..9] == Be32(Low31(h.streamId));
    var l := h.length % 0x100_0000;
    Be32RoundTrip(l);
    Low24(h.length);
    assert [0] + b[..3] == Be32(l);
  }

  // ---------------------------------------------------------------- payload

  function EncodeSettings(settings: seq<Setting>): (b: seq<Byte>)
    ensures |b| == 6 * |settings|
  {
    if settings == [] then []
    else EncodeSettings(settings[..|settings| - 1]) + EncodeSetting(settings[|settings| - 1])
  }

  function EncodeSetting(s: Setting): (b: seq<Byte>)
    ensures |b| == 6
  {
    Be16(SettingNumber(s.id)) + Be32(s.value)
  }

  function ParseSetting(chunk: seq<Byte>): Setting
    requires |chunk| == 6
  {
    Setting(SettingFromNumber(FromBe16(chunk[..2])), FromBe32(chunk[2..]))
  }

  function ParseSettings(b: seq<Byte>): (settings: seq<Setting>)
    requires |b| % 6 == 0
    ensures |settings| == |b| / 6
  {
    if b == [] then []
    else ParseSettings(b[..|b| - 6]) + [ParseSetting(b[|b| - 6..])]
  }

  function EncodeBody(p: FramePayload): seq<Byte> {
    match p
    case Data(data, _) => data
    case Headers(block, _, _) => block
    case Priority(dep, weight, exclusive) => Be32(Low31(dep) + if exclusive then 0x8000_0000 else 0) + [weight]
    case RstStream(code) => Be32(ErrorNumber(code))
    case Settings(settings, _) => EncodeSettings(settings)
    case PushPromise(sid, block) => Be32(Low31(sid)) + block
    case Ping(data, _) => data
    case GoAway(last, code, debug) => Be32(Low31(last)) + Be32(ErrorNumber(code)) + debug
    case WindowUpdate(inc) => Be32(Low31(inc))
    case Continuation(block, _) => block
    case Unknown(payload) => payload
  }

  /** `Frame::encode`; the length written is that of the body, not the one in the frame's header. */
  function Encode(f: Frame): seq<Byte>
    requires |EncodeBody(f.payload)| < 0x1_0000_0000
  {
    var body := EncodeBody(f.payload);
    EncodeHeader(f.header.(length := |body|)) + body
  }

  function ParseData(h: FrameHeader, b: seq<Byte>): Result<FramePayload> {
    if h.streamId == 0 then Err(ProtocolError)
    else if !Bit(h.flags, PADDED) then Ok(Data(b, Bit(h.flags, END_STREAM)))
    else if b == [] then Err(FrameSizeError)
    else if 1 + b[0] > |b| then Err(ProtocolError)
    else Ok(Data(b[1..|b| - b[0]], Bit(h.flags, END_STREAM)))
  }

  function ParseHeaders(h: FrameHeader, b: seq<Byte>): Result<FramePayload> {
    var padded := Bit(h.flags, PADDED);
    if h.streamId == 0 then Err(ProtocolError)
    else if padded && b == [] then Err(FrameSizeError)
    else
      var padLen := if padded then b[0] else 0;
      var skip := if padded then 1 else 0;
      if Bit(h.flags, PRIORITY) && |b| < skip + 5 then Err(FrameSizeError)
      else
        var offset := if Bit(h.flags, PRIORITY) then skip + 5 else skip;
        if offset + padLen > |b| then Err(ProtocolError)
        else Ok(Headers(b[offset..|b| - padLen], Bit(h.flags, END_STREAM), Bit(h.flags, END_HEADERS)))
  }

  function ParsePayload(h: FrameHeader, b: seq<Byte>): Result<FramePayload> {
    match h.frameType
    case DataType => ParseData(h, b)
    case HeadersType => ParseHeaders(h, b)
    case PriorityType =>
      if h.streamId == 0 then Err(ProtocolError)
      else if |b| != 5 then Err(FrameSizeError)
      else
        var raw := FromBe32(b[..4]);
        Ok(Priority(Low31(raw), b[4], raw >= 0x8000_0000))
    case RstStreamType =>
      if h.streamId == 0 then Err(ProtocolError)
      else if |b| != 4 then Err(FrameSizeError)
      else Ok(RstStream(ErrorFromNumber(FromBe32(b))))
    case SettingsType =>
      if h.streamId != 0 then Err(ProtocolError)
      else if Bit(h.flags, ACK) && b != [] then Err(FrameSizeError)
      else if |b| % 6 != 0 then Err(FrameSizeError)
      else Ok(Settings(ParseSettings(b), Bit(h.flags, ACK)))
    case PushPromiseType => Err(ProtocolError)
    case PingType =>
      if h.streamId != 0 then Err(ProtocolError)
      else if |b| != 8 then Err(FrameSizeError)
      else Ok(Ping(b, Bit(h.flags, ACK)))
    case GoAwayType =>
      if h.streamId != 0 then Err(ProtocolError)
      else if |b| < 8 then Err(FrameSizeError)
      else Ok(GoAway(Low31(FromBe32(b[..4])), ErrorFromNumber(FromBe32(b[4..8])), b[8..]))
    case WindowUpdateType =>
      if |b| != 4 then Err(FrameSizeError)
      else
        var inc := Low31(FromBe32(b));
        if inc == 0 then Err(ProtocolError) else Ok(WindowUpdate(inc))
    case ContinuationType =>
      if h.streamId == 0 then Err(ProtocolError)
      else Ok(Continuation(b, Bit(h.flags, END_HEADERS)))
    case UnknownType(_) => Ok(Unknown(b))
  }

  function Parse(h: FrameHeader, b: seq<Byte>): (r: Result<Frame>) {
    if |b| != h.length then Err(FrameSizeError)
    else
      var p :- ParsePayload(h, b);
      Ok(Frame(h, p))
  }

  /** A reader that splits an encoded frame after nine bytes, as the connection's main loop does. */
  function ParseWire(wire: seq<Byte>): Result<Frame> {
    var h :- ParseHeader(wire);
    Parse(h, wire[FRAME_HEADER_SIZE..])
  }

  // ---------------------------------------------------------------- imperative forms

  /** `Frame::parse`, pushing SETTINGS entries in a loop. */
  method ParseFrame(h: FrameHeader, b: seq<Byte>) returns (r: Result<Frame>)
    ensures r == Parse(h, b)
  {
    if |b| == h.length && h.frameType == SettingsType && h.streamId == 0
       && !(Bit(h.flags, ACK) && b != []) && |b| % 6 == 0 {
      var settings: seq<Setting> := [];
      var at := 0;
      while at < |b|
        invariant 0 <= at <= |b| && at % 6 == 0
        invariant settings == ParseSettings(b[..at])
      {
        settings := settings + [ParseSetting(b[at..at + 6])];
        assert b[..at + 6][..at] == b[..at] && b[..at + 6][at..] == b[at..at + 6];
        at := at + 6;
      }
      assert b[..at] == b;
      return Ok(Frame(h, Settings(settings, Bit(h.flags, ACK))));
    }
    r := Parse(h, b);
  }

  /** `Frame::encode`, extending the body vector entry by entry. */
  method EncodeFrame(f: Frame) returns (wire: seq<Byte>)
    requires |EncodeBody(f.payload)| < 0x1_0000_0000
    ensures wire == Encode(f)
  {
    var body: seq<Byte>;
    if f.payload.Settings? {
      body := [];
      for k := 0 to |f.payload.settings|
        invariant body == EncodeSettings(f.payload.settings[..k])
      {
        body := body + EncodeSetting(f.payload.settings[k]);
        assert f.payload.settings[..k + 1][..k] == f.payload.settings[..k];
      }
      assert f.payload.settings[..|f.payload.settings|] == f.payload.settings;
    } else {
      body := EncodeBody(f.payload);
    }
    wire := EncodeHeader(f.header.(length := |body|)) + body;
  }

  // ---------------------------------------------------------------- round trip

  predicate KnownSettings(settings: seq<Setting>) {
    forall s :: s in settings ==> s.id.UnknownSetting? ==> !(1 <= s.id.id <= 6)
  }

  /** The frames that mean on the wire what they say in memory. */
  predicate WellFormed(f: Frame) {
    var h := f.header;
    && h.length == |EncodeBody(f.payload)| <= MAX_ALLOWED_FRAME_SIZE
    && h.streamId < 0x8000_0000
    && match f.payload
       case Data(_, es) =>
         h.frameType == DataType && h.streamId != 0 && !Bit(h.flags, PADDED) && es == Bit(h.flags, END_STREAM)
       case Headers(_, es, eh) =>
         && h.frameType == HeadersType && h.streamId != 0 && !Bit(h.flags, PADDED) && !Bit(h.flags, PRIORITY)
         && es == Bit(h.flags, END_STREAM) && eh == Bit(h.flags, END_HEADERS)
       case Priority(dep, _, _) => h.frameType == PriorityType && h.streamId != 0 && dep < 0x8000_0000
       case RstStream(_) => h.frameType == RstStreamType && h.streamId != 0
       case Settings(settings, ack) =>
         && h.frameType == SettingsType && h.streamId == 0 && KnownSettings(settings)
         && ack == Bit(h.flags, ACK) && (ack ==> settings == [])
       case PushPromise(_, _) => false
       case Ping(data, ack) => h.frameType == PingType && h.streamId == 0 && |data| == 8 && ack == Bit(h.flags, ACK)
       case GoAway(last, _, _) => h.frameType == GoAwayType && h.streamId == 0 && last < 0x8000_0000
       case WindowUpdate(inc) => h.frameType == WindowUpdateType && 0 < inc < 0x8000_0000
       case Continuation(_, eh) => h.frameType == ContinuationType && h.streamId != 0 && eh == Bit(h.flags, END_HEADERS)
       case Unknown(_) => h.frameType.UnknownType? && h.frameType.code >= 10
  }

  lemma SettingRoundTrip(s: Setting)
    ensures ParseSetting(EncodeSetting(s)) == s <==> KnownSettings([s])
  {
    var b := EncodeSetting(s);
    assert b[..2] == Be16(SettingNumber(s.id)) && b[2..] == Be32(s.value);
    Be16RoundTrip(SettingNumber(s.id));
    Be32RoundTrip(s.value);
    assert KnownSettings([s]) <==> (s.id.UnknownSetting? ==> !(1 <= s.id.id <= 6)) by {
      assert s in [s];
    }
  }

  lemma ParseSettingsSnoc(b: seq<Byte>, chunk: seq<Byte>)
    requires |b| % 6 == 0 && |chunk| == 6
    ensures ParseSettings(b + chunk) == ParseSettings(b) + [ParseSetting(chunk)]
  {
  }

  lemma {:induction false} SettingsRoundTrip(settings: seq<Setting>)
    ensures ParseSettings(EncodeSettings(settings)) == settings <==> KnownSettings(settings)
  {
    if settings != [] {
      var init, last := settings[..|settings| - 1], settings[|settings| - 1];
      SettingsRoundTrip(init);
      SettingRoundTrip(last);
      ParseSettingsSnoc(EncodeSettings(init), EncodeSetting(last));
      assert settings == init + [last];
      assert KnownSettings(settings) <==> KnownSettings(init) && KnownSettings([last]) by {
        assert forall s :: s in settings <==> s in init || s in [last];
      }
      var parsed := ParseSettings(EncodeSettings(init));
      assert parsed + [ParseSetting(EncodeSetting(last))] == init + [last]
             <==> parsed == init && ParseSetting(EncodeSetting(last)) == last;
    }
  }

  /** The payload constructor that each frame type stands for. */
  predicate KindMatches(t: FrameType, p: FramePayload) {
    match p
    case Data(_, _) => t == DataType
    case Headers(_, _, _) => t == HeadersType
    case Priority(_, _, _) => t == PriorityType
    case RstStream(_) => t == RstStreamType
    case Settings(_, _) => t == SettingsType
    case PushPromise(_, _) => false
    case Ping(_, _) => t == PingType
    case GoAway(_, _, _) => t == GoAwayType
    case WindowUpdate(_) => t == WindowUpdateType
    case Continuation(_, _) => t == ContinuationType
    case Unknown(_) => t.UnknownType?
  }

  lemma ParsedKind(h: FrameHeader, b: seq<Byte>)
    ensures ParsePayload(h, b).Ok? ==> KindMatches(h.frameType, ParsePayload(h, b).value)
  {
  }

  predicate Sized(h: FrameHeader, p: FramePayload) {
    && h.length == |EncodeBody(p)| <= MAX_ALLOWED_FRAME_SIZE
    && h.streamId < 0x8000_0000
    && (h.frameType.UnknownType? ==> h.frameType.code >= 10)
  }

  predicate Survives(h: FrameHeader, p: FramePayload) {
    ParsePayload(h, EncodeBody(p)) == Ok(p)
  }

  lemma BlockRoundTrip(h: FrameHeader, p: FramePayload)
    requires p.Data? || p.Headers? || p.Continuation? || p.Ping? || p.Unknown?
    requires KindMatches(h.frameType, p) && Sized(h, p)
    ensures Survives(h, p) <==> WellFormed(Frame(h, p))
  {
    var b := EncodeBody(p);
    if p.Data? {
      assert ParseData(h, b).Ok? && Bit(h.flags, PADDED) ==> |ParseData(h, b).value.data| < |b|;
    } else if p.Headers? {
      assert ParseHeaders(h, b).Ok? && (Bit(h.flags, PADDED) || Bit(h.flags, PRIORITY))
             ==> |ParseHeaders(h, b).value.headerBlock| < |b|;
      assert b[0..|b|] == b;
    }
  }

  lemma GoAwayRoundTrip(h: FrameHeader, p: FramePayload)
    requires p.GoAway?
    requires KindMatches(h.frameType, p) && Sized(h, p)
    ensures Survives(h, p) <==> WellFormed(Frame(h, p))
  {
    var b := EncodeBody(p);
    var last, code := Be32(Low31(p.lastStreamId)), Be32(ErrorNumber(p.errorCode));
    Be32RoundTrip(Low31(p.lastStreamId));
    Be32RoundTrip(ErrorNumber(p.errorCode));
    assert b[..4] == last;
    assert b[4..8] == code;
    assert b[8..] == p.debugData;
  }

  /** The top bit beside a number of 31 bits. */
  lemma TopBit(n: U32, top: bool)
    requires n < 0x8000_0000
    ensures var raw := n + if top then 0x8000_0000 else 0; Low31(raw) == n && (raw >= 0x8000_0000 <==> top)
  {
  }

  lemma PriorityRoundTrip(h: FrameHeader, p: FramePayload)
    requires p.Priority?
    requires KindMatches(h.frameType, p) && Sized(h, p)
    ensures Survives(h, p) <==> WellFormed(Frame(h, p))
  {
    var raw := Low31(p.streamDependency) + if p.exclusive then 0x8000_0000 else 0;
    Be32RoundTrip(raw);
    TopBit(Low31(p.streamDependency), p.exclusive);
    assert Low31(p.streamDependency) == p.streamDependency <==> p.streamDependency < 0x8000_0000;
    hide Be32, FromBe32, Low31, ParseData, ParseHeaders, ParseSettings, EncodeSettings, KnownSettings, Bit;
    assert EncodeBody(p)[..4] == Be32(raw) && EncodeBody(p)[4] == p.weight;
  }

  lemma NumberRoundTrip(h: FrameHeader, p: FramePayload)
    requires p.RstStream? || p.WindowUpdate?
    requires KindMatches(h.frameType, p) && Sized(h, p)
    ensures Survives(h, p) <==> WellFormed(Frame(h, p))
  {
    if p.RstStream? {
      Be32RoundTrip(ErrorNumber(p.errorCode));
    } else {
      Be32RoundTrip(Low31(p.windowSizeIncrement));
    }
  }

  lemma SettingsFrameRoundTrip(h: FrameHeader, p: FramePayload)
    requires p.Settings?
    requires KindMatches(h.frameType, p) && Sized(h, p)
    ensures Survives(h, p) <==> WellFormed(Frame(h, p))
  {
    SettingsRoundTrip(p.settings);
  }

  /** The payload comes back exactly when the frame is well formed, its length fields being right. */
  lemma PayloadRoundTrip(h: FrameHeader, p: FramePayload)
    requires Sized(h, p)
    ensures Survives(h, p) <==> WellFormed(Frame(h, p))
  {
    ParsedKind(h, EncodeBody(p));
    if KindMatches(h.frameType, p) {
      if p.Settings? { SettingsFrameRoundTrip(h, p); }
      else if p.GoAway? { GoAwayRoundTrip(h, p); }
      else if p.Priority? { PriorityRoundTrip(h, p); }
      else if p.RstStream? || p.WindowUpdate? { NumberRoundTrip(h, p); }
      else { BlockRoundTrip(h, p); }
    }
  }

  lemma WellFormedSized(f: Frame)
    requires WellFormed(f)
    ensures Sized(f.header, f.payload)
  {
    hide EncodeBody;
  }

  /** Encoding then parsing gives the frame back if and only if the frame is well formed. */
  lemma FrameRoundTrip(f: Frame)
    requires |EncodeBody(f.payload)| < 0x1_0000_0000
    ensures ParseWire(Encode(f)) == Ok(f) <==> WellFormed(f)
  {
    hide WellFormed, EncodeBody, ParsePayload, EncodeHeader, ParseHeader;
    var body := EncodeBody(f.payload);
    HeaderRoundTrip(f.header.(length := |body|), body);
    assert Encode(f)[FRAME_HEADER_SIZE..] == body;
    if WellFormed(f) {
      WellFormedSized(f);
    }
    if Sized(f.header, f.payload) {
      PayloadRoundTrip(f.header, f.payload);
    }
  }
}
