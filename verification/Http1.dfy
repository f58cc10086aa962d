/**
 The HTTP/1.1 request parser (src/server/http.rs): a request head is looked for at the front of a buffer, checked
 line by line, and taken off together with its body. Text is kept as UTF-8 bytes.
 */
module Http1 {
  import opened Base
  import opened Segments
  import Decimal
  import Utf8

  const CR: Byte := 13
  const LF: Byte := 10
  const TAB: Byte := 9
  const SPACE: Byte := 32
  const COLON: Byte := 58
  const CRLF: seq<Byte> := [13, 10]
  const BLANK_LINE: seq<Byte> := [13, 10, 13, 10]

  datatype ParseError =
    | OversizedHeader | MalformedRequest | OversizedRequestLine | OversizedHeaderLine | UnsupportedVersion
    | TooManyHeaders | ChunkedEncodingNotImplemented | MissingHost | MalformedHost | ConflictingHeaders
    | MalformedContentLength | OversizedBody

  datatype Outcome<+T> = Good(value: T) | Bad(error: ParseError) {
    predicate IsFailure() { Bad? }

    function PropagateFailure<U>(): Outcome<U>
      requires Bad?
    {
      Bad(error)
    }

    function Extract(): T
      requires Good?
    {
      value
    }
  }

  datatype Limits = Limits(maxHeaderSize: nat, maxUriLength: nat, maxHeaderLine: nat, maxHeaders: nat,
      maxRequestSize: nat)

  datatype Field = Field(name: seq<Byte>, value: seq<Byte>)

  datatype Head = Head(verb: seq<Byte>, uri: seq<Byte>, headers: seq<Field>, contentLength: nat, headerLen: nat)

  datatype Request = Request(verb: seq<Byte>, uri: seq<Byte>, headers: seq<Field>, body: seq<Byte>)

  // ---------------------------------------------------------------- bytes and text

  /** `find_subslice` for the blank line: the first place it starts. */
  function FindEnd(buf: seq<Byte>): Option<nat> {
    if |buf| < 4 then None
    else if buf[..4] == BLANK_LINE then Some(0)
    else
      match FindEnd(buf[1..])
      case None => None
      case Some(p) => Some(p + 1)
  }

  /** A CR or LF that is not part of CR LF. */
  predicate BareAt(h: seq<Byte>, i: nat)
    requires i < |h|
  {
    || (h[i] == LF && (i == 0 || h[i - 1] != CR))
    || (h[i] == CR && (i + 1 >= |h| || h[i + 1] != LF))
  }

  predicate BareBreak(h: seq<Byte>) {
    exists i :: 0 <= i < |h| && BareAt(h, i)
  }

  /** `split("\r\n")` */
  function Lines(h: seq<Byte>): (lines: seq<seq<Byte>>)
    ensures lines != []
    decreases |h|
  {
    if h == [] then [[]]
    else if |h| >= 2 && h[..2] == CRLF then [[]] + Lines(h[2..])
    else
      var rest := Lines(h[1..]);
      [[h[0]] + rest[0]] + rest[1..]
  }

  /** `split(' ')` */
  function Pieces(s: seq<Byte>, sep: Byte): (pieces: seq<seq<Byte>>)
    ensures pieces != []
  {
    if s == [] then [[]]
    else
      var rest := Pieces(s[1..], sep);
      if s[0] == sep then [[]] + rest else [[s[0]] + rest[0]] + rest[1..]
  }

  /** `split_once(':')`: where the first separator is. */
  function IndexOf(s: seq<Byte>, b: Byte): (r: Option<nat>)
    ensures r.Some? ==> r.value < |s| && s[r.value] == b && b !in s[..r.value]
    ensures r.None? ==> b !in s
  {
    if s == [] then None
    else if s[0] == b then Some(0)
    else
      match IndexOf(s[1..], b)
      case None => None
      case Some(p) => assert s[..p + 1] == [s[0]] + s[1..][..p]; Some(p + 1)
  }

  /** The encodings of the characters with the White_Space property of Unicode. */
  predicate WhiteChar(s: seq<Byte>) {
    || (|s| == 1 && (9 <= s[0] <= 13 || s[0] == 32))
    || (|s| == 2 && s[0] == 0xC2 && (s[1] == 0x85 || s[1] == 0xA0))
    || (|s| == 3 && s[0] == 0xE1 && s[1] == 0x9A && s[2] == 0x80)
    || (|s| == 3 && s[0] == 0xE2 && s[1] == 0x80
        && (0x80 <= s[2] <= 0x8A || s[2] == 0xA8 || s[2] == 0xA9 || s[2] == 0xAF))
    || (|s| == 3 && s[0] == 0xE2 && s[1] == 0x81 && s[2] == 0x9F)
    || (|s| == 3 && s[0] == 0xE3 && s[1] == 0x80 && s[2] == 0x80)
  }

  function WhitePrefix(s: seq<Byte>): (n: nat)
    ensures n <= |s| && (n > 0 ==> WhiteChar(s[..n]))
  {
    if |s| >= 1 && WhiteChar(s[..1]) then 1
    else if |s| >= 2 && WhiteChar(s[..2]) then 2
    else if |s| >= 3 && WhiteChar(s[..3]) then 3
    else 0
  }

  function WhiteSuffix(s: seq<Byte>): (n: nat)
    ensures n <= |s| && (n > 0 ==> WhiteChar(s[|s| - n..]))
  {
    if |s| >= 1 && WhiteChar(s[|s| - 1..]) then 1
    else if |s| >= 2 && WhiteChar(s[|s| - 2..]) then 2
    else if |s| >= 3 && WhiteChar(s[|s| - 3..]) then 3
    else 0
  }

  function TrimStart(s: seq<Byte>): (r: seq<Byte>)
    ensures |r| <= |s| && WhitePrefix(r) == 0
  {
    var n := WhitePrefix(s);
    if n == 0 then s else TrimStart(s[n..])
  }

  function TrimEnd(s: seq<Byte>): (r: seq<Byte>)
    ensures r <= s && WhiteSuffix(r) == 0
  {
    var n := WhiteSuffix(s);
    if n == 0 then s else TrimEnd(s[..|s| - n])
  }

  function Trim(s: seq<Byte>): seq<Byte> {
    TrimEnd(TrimStart(s))
  }

  predicate Alpha(b: Byte) { 65 <= b <= 90 || 97 <= b <= 122 }

  /** `is_tchar` */
  predicate TokenChar(b: Byte) {
    Alpha(b) || 48 <= b <= 57 || b in {33, 35, 36, 37, 38, 39, 42, 43, 45, 46, 94, 95, 96, 124, 126}
  }

  function LowerByte(b: Byte): Byte {
    if 65 <= b <= 90 then b + 32 else b
  }

  predicate SameName(a: seq<Byte>, b: seq<Byte>) {
    |a| == |b| && forall i :: 0 <= i < |a| ==> LowerByte(a[i]) == LowerByte(b[i])
  }

  const HOST := Ascii("Host")
  const CONTENT_LENGTH := Ascii("Content-Length")
  const TRANSFER_ENCODING := Ascii("Transfer-Encoding")
  const VERSION := Ascii("HTTP/1.1")

  function Text(b: seq<Byte>): string {
    seq(|b|, i requires 0 <= i < |b| => b[i] as char)
  }

  // ---------------------------------------------------------------- the head

  predicate PlainPart(part: seq<Byte>) {
    part != [] && TAB !in part
  }

  predicate PlainUri(uri: seq<Byte>) {
    forall i :: 0 <= i < |uri| ==> uri[i] > 31 && uri[i] != 127
  }

  /** The request line: method and target. */
  function ParseRequestLine(line: seq<Byte>, limits: Limits): Outcome<(seq<Byte>, seq<Byte>)> {
    var parts := Pieces(line, SPACE);
    if |parts| != 3 || exists i :: 0 <= i < |parts| && !PlainPart(parts[i]) then Bad(MalformedRequest)
    else if exists i :: 0 <= i < |parts[0]| && !Alpha(parts[0][i]) then Bad(MalformedRequest)
    else if |parts[1]| > limits.maxUriLength then Bad(OversizedRequestLine)
    else if |line| > limits.maxHeaderLine then Bad(OversizedHeaderLine)
    else if !PlainUri(parts[1]) then Bad(MalformedRequest)
    else if parts[2] != VERSION then Bad(UnsupportedVersion)
    else Good((parts[0], parts[1]))
  }

  /** One header line, split and checked. */
  function ParseField(line: seq<Byte>): Outcome<Field> {
    match IndexOf(line, COLON)
    case None => Bad(MalformedRequest)
    case Some(at) =>
      var name := line[..at];
      var value := Trim(line[at + 1..]);
      if name == [] || exists i :: 0 <= i < |name| && !TokenChar(name[i]) then Bad(MalformedRequest)
      else if CR in value || LF in value then Bad(MalformedRequest)
      else if SameName(name, TRANSFER_ENCODING) then Bad(ChunkedEncodingNotImplemented)
      else Good(Field(name, value))
  }

  /** The header lines, in order; blank ones are skipped. */
  function ParseFields(lines: seq<seq<Byte>>, limits: Limits, sofar: seq<Field>): Outcome<seq<Field>>
    decreases |lines|
  {
    if lines == [] then Good(sofar)
    else if Trim(lines[0]) == [] then ParseFields(lines[1..], limits, sofar)
    else if |lines[0]| > limits.maxHeaderLine then Bad(OversizedHeaderLine)
    else if |sofar| >= limits.maxHeaders then Bad(TooManyHeaders)
    else
      var f :- ParseField(lines[0]);
      ParseFields(lines[1..], limits, sofar + [f])
  }

  /** The values of all headers with a given name. */
  function ValuesOf(headers: seq<Field>, name: seq<Byte>): seq<seq<Byte>> {
    if headers == [] then []
    else (if SameName(headers[0].name, name) then [headers[0].value] else []) + ValuesOf(headers[1..], name)
  }

  function CheckHost(hosts: seq<seq<Byte>>): Outcome<()> {
    if hosts == [] then Bad(MissingHost)
    else if |hosts| != 1 || Trim(hosts[0]) == [] then Bad(MalformedHost)
    else Good(())
  }

  function CheckLength(lengths: seq<seq<Byte>>, limits: Limits): Outcome<nat> {
    if lengths == [] then Good(0)
    else if exists i :: 0 <= i < |lengths| && lengths[i] != lengths[0] then Bad(ConflictingHeaders)
    else
      match Decimal.ParseNumber(Text(lengths[0]))
      case None => Bad(MalformedContentLength)
      case Some(n) => if n > limits.maxRequestSize then Bad(OversizedBody) else Good(n)
  }

  /** The whole head, without the blank line that ends it. */
  function ParseHead(h: seq<Byte>, limits: Limits): Outcome<Head> {
    if BareBreak(h) then Bad(MalformedRequest)
    else if !Utf8.Valid(h) then Bad(MalformedRequest)
    else
      var lines := Lines(h);
      var start :- ParseRequestLine(lines[0], limits);
      var headers :- ParseFields(lines[1..], limits, []);
      var _ :- CheckHost(ValuesOf(headers, HOST));
      var length :- CheckLength(ValuesOf(headers, CONTENT_LENGTH), limits);
      Good(Head(start.0, start.1, headers, length, |h| + 4))
  }

  /** `parse_http_request_head_from_buf_with_limits`: nothing yet, a head, or an error. */
  function FindHead(buf: seq<Byte>, limits: Limits): Outcome<Option<Head>> {
    match FindEnd(buf)
    case None => if |buf| > limits.maxHeaderSize then Bad(OversizedHeader) else Good(None)
    case Some(end) =>
      if end + 4 > limits.maxHeaderSize then Bad(OversizedHeader)
      else
        EndInside(buf);
        var head :- ParseHead(buf[..end], limits);
        Good(Some(head))
  }

  /** `parse_http_request_from_buf_with_limits` as a decision about the front of the buffer. */
  function TakeRequest(buf: seq<Byte>, limits: Limits): Verdict<Request, ParseError> {
    match FindHead(buf, limits)
    case Bad(e) => Fail(e)
    case Good(None) => Wait
    case Good(Some(head)) =>
      var total := head.headerLen + head.contentLength;
      if |buf| < total then Wait
      else Item(Request(head.verb, head.uri, head.headers, buf[head.headerLen..total]), buf[total..])
  }

  lemma {:induction false} EndInside(buf: seq<Byte>)
    ensures match FindEnd(buf)
            case None => true
            case Some(p) => p + 4 <= |buf| && buf[p..p + 4] == BLANK_LINE
  {
    if |buf| >= 4 && buf[..4] != BLANK_LINE {
      EndInside(buf[1..]);
      var r := FindEnd(buf[1..]);
      if r.Some? {
        assert buf[1..][r.value..r.value + 4] == buf[r.value + 1..r.value + 5];
      }
    }
  }

  // ---------------------------------------------------------------- segmentation

  /** More bytes do not move a blank line already found; without one, the next can only end beyond the old bytes. */
  lemma {:induction false} FindEndStable(buf: seq<Byte>, more: seq<Byte>)
    ensures FindEnd(buf).Some? ==> FindEnd(buf + more) == FindEnd(buf)
    ensures FindEnd(buf).None? && FindEnd(buf + more).Some? ==> FindEnd(buf + more).value + 4 > |buf|
    decreases |buf|
  {
    if |buf| >= 4 {
      assert (buf + more)[..4] == buf[..4] && (buf + more)[1..] == buf[1..] + more;
      if buf[..4] != BLANK_LINE {
        FindEndStable(buf[1..], more);
      }
    }
  }

  lemma FindHeadStable(buf: seq<Byte>, more: seq<Byte>, limits: Limits)
    ensures FindHead(buf, limits) != Good(None) ==> FindHead(buf + more, limits) == FindHead(buf, limits)
  {
    hide ParseHead;
    FindEndStable(buf, more);
    EndInside(buf);
    var end := FindEnd(buf);
    if end.Some? {
      assert (buf + more)[..end.value] == buf[..end.value];
    }
  }

  lemma HeadInside(buf: seq<Byte>, limits: Limits)
    ensures match FindHead(buf, limits)
            case Good(Some(head)) => 4 <= head.headerLen <= |buf| && head.headerLen <= limits.maxHeaderSize
            case _ => true
  {
    EndInside(buf);
  }

  lemma TakeStable(buf: seq<Byte>, more: seq<Byte>, limits: Limits)
    ensures match TakeRequest(buf, limits)
            case Wait => true
            case Item(r, rest) => TakeRequest(buf + more, limits) == Item(r, rest + more) && |rest| < |buf|
            case Fail(e) => TakeRequest(buf + more, limits) == Fail(e)
  {
    hide FindHead;
    FindHeadStable(buf, more, limits);
    HeadInside(buf, limits);
    var r := FindHead(buf, limits);
    if r.Good? && r.value.Some? {
      var from, total := r.value.value.headerLen, r.value.value.headerLen + r.value.value.contentLength;
      if total <= |buf| {
        assert (buf + more)[from..total] == buf[from..total] && (buf + more)[total..] == buf[total..] + more;
      }
    }
  }

  /** The request reader of a connection. */
  function Reader(limits: Limits): seq<Byte> -> Verdict<Request, ParseError> {
    buf => TakeRequest(buf, limits)
  }

  lemma ReaderStable(limits: Limits)
    ensures Consuming(Reader(limits)) && Stable(Reader(limits))
  {
    hide TakeRequest;
    forall buf ensures Reader(limits)(buf).Item? ==> |Reader(limits)(buf).rest| < |buf| {
      TakeStable(buf, [], limits);
    }
    forall buf, more ensures StableAt(Reader(limits), buf, more) {
      TakeStable(buf, more, limits);
    }
  }

  /**
   However a client's bytes are cut into reads, the requests, the bytes left over and the first error are the same.
   */
  lemma RequestSegmentation(limits: Limits, pieces: seq<seq<Byte>>)
    ensures Consuming(Reader(limits))
    ensures Receive(Reader(limits), pieces) == Deliver(Reader(limits), Concat(pieces))
  {
    ReaderStable(limits);
    Segmentation(Reader(limits), pieces);
  }

  // ---------------------------------------------------------------- what an accepted head guarantees

  predicate Token(name: seq<Byte>) {
    name != [] && forall i :: 0 <= i < |name| ==> TokenChar(name[i])
  }

  /** A header as the parser lets it through. */
  predicate CleanField(f: Field) {
    Token(f.name) && CR !in f.value && LF !in f.value && !SameName(f.name, TRANSFER_ENCODING)
  }

  ghost predicate CleanHead(h: Head, limits: Limits) {
    && h.verb != [] && (forall i :: 0 <= i < |h.verb| ==> Alpha(h.verb[i]))
    && h.uri != [] && SPACE !in h.uri && PlainUri(h.uri) && |h.uri| <= limits.maxUriLength
    && |h.verb| + 1 + |h.uri| + 1 + |VERSION| <= limits.maxHeaderLine
    && (forall i :: 0 <= i < |h.headers| ==> |h.headers[i].name| + 1 + |h.headers[i].value| <= limits.maxHeaderLine)
    && |h.headers| <= limits.maxHeaders && (forall i :: 0 <= i < |h.headers| ==> CleanField(h.headers[i]))
    && (exists host :: ValuesOf(h.headers, HOST) == [host] && Trim(host) != [])
    && (forall v :: v in ValuesOf(h.headers, CONTENT_LENGTH) ==> Decimal.ParseNumber(Text(v)) == Some(h.contentLength))
    && (ValuesOf(h.headers, CONTENT_LENGTH) == [] ==> h.contentLength == 0)
    && h.contentLength <= limits.maxRequestSize
  }

  lemma {:induction false} PiecesClean(s: seq<Byte>, sep: Byte)
    ensures forall i :: 0 <= i < |Pieces(s, sep)| ==> sep !in Pieces(s, sep)[i]
  {
    if s != [] {
      PiecesClean(s[1..], sep);
      var rest := Pieces(s[1..], sep);
      assert sep !in rest[0];
    }
  }

  function TotalLength(pieces: seq<seq<Byte>>): nat {
    if pieces == [] then 0 else |pieces[0]| + TotalLength(pieces[1..])
  }

  /** Splitting takes away the separators and nothing else. */
  lemma {:induction false} PiecesLength(s: seq<Byte>, sep: Byte)
    ensures |s| == TotalLength(Pieces(s, sep)) + |Pieces(s, sep)| - 1
  {
    if s != [] {
      PiecesLength(s[1..], sep);
      var pieces := Pieces(s, sep);
      var rest := Pieces(s[1..], sep);
      assert pieces[1..] == if s[0] == sep then rest else rest[1..];
    }
  }

  lemma ThreeLengths(parts: seq<seq<Byte>>)
    requires |parts| == 3
    ensures TotalLength(parts) == |parts[0]| + |parts[1]| + |parts[2]|
  {
    var two, one := parts[1..], parts[2..];
    assert two[1..] == one && one[1..] == [];
    assert TotalLength(one) == |parts[2]| && TotalLength(two) == |parts[1]| + TotalLength(one);
  }

  /** A header as the parser lets it through, name and value fitting in its line. */
  predicate FittingField(f: Field, limits: Limits) {
    CleanField(f) && |f.name| + 1 + |f.value| <= limits.maxHeaderLine
  }

  lemma FieldClean(line: seq<Byte>)
    ensures var r := ParseField(line); r.Good? ==> CleanField(r.value) && |r.value.name| + 1 + |r.value.value| <= |line|
  {
  }

  lemma {:induction false} FieldsClean(lines: seq<seq<Byte>>, limits: Limits, sofar: seq<Field>)
    requires |sofar| <= limits.maxHeaders && forall i :: 0 <= i < |sofar| ==> FittingField(sofar[i], limits)
    ensures var r := ParseFields(lines, limits, sofar);
            r.Good? ==> |r.value| <= limits.maxHeaders && forall i :: 0 <= i < |r.value| ==>
                FittingField(r.value[i], limits)
    decreases |lines|
  {
    hide Trim, CleanField, ParseField;
    if lines != [] {
      FieldClean(lines[0]);
      if Trim(lines[0]) == [] {
        FieldsClean(lines[1..], limits, sofar);
      } else if |lines[0]| <= limits.maxHeaderLine && |sofar| < limits.maxHeaders && ParseField(lines[0]).Good? {
        FieldsClean(lines[1..], limits, sofar + [ParseField(lines[0]).value]);
      }
    }
  }

  lemma LengthClean(lengths: seq<seq<Byte>>, limits: Limits)
    ensures var r := CheckLength(lengths, limits);
            r.Good? ==>
              && (forall v :: v in lengths ==> Decimal.ParseNumber(Text(v)) == Some(r.value))
              && (lengths == [] ==> r.value == 0) && r.value <= limits.maxRequestSize
  {
  }

  lemma RequestLineClean(line: seq<Byte>, limits: Limits)
    ensures var r := ParseRequestLine(line, limits);
            r.Good? ==>
              && r.value.0 != [] && (forall i :: 0 <= i < |r.value.0| ==> Alpha(r.value.0[i]))
              && r.value.1 != [] && SPACE !in r.value.1 && PlainUri(r.value.1) && |r.value.1| <= limits.maxUriLength
              && |r.value.0| + 1 + |r.value.1| + 1 + |VERSION| <= limits.maxHeaderLine
  {
    hide Pieces, Alpha, PlainUri;
    PiecesClean(line, SPACE);
    var parts := Pieces(line, SPACE);
    if |parts| == 3 && ParseRequestLine(line, limits).Good? {
      assert PlainPart(parts[0]) && PlainPart(parts[1]);
      PiecesLength(line, SPACE);
      ThreeLengths(parts);
    }
  }

  /**
   An accepted head has exactly one non-blank Host, no Transfer-Encoding, agreeing Content-Length values that are
   the length used, token names, values free of line breaks, and keeps every limit.
   */
  lemma HeadClean(h: seq<Byte>, limits: Limits)
    ensures ParseHead(h, limits).Good? ==> CleanHead(ParseHead(h, limits).value, limits)
  {
    hide BareBreak, Utf8.Valid, Lines, ParseRequestLine, ParseFields, CheckLength, Trim, CleanField, PlainUri, ValuesOf;
    hide Alpha;
    var lines := Lines(h);
    RequestLineClean(lines[0], limits);
    FieldsClean(lines[1..], limits, []);
    if ParseHead(h, limits).Good? {
      var headers := ParseHead(h, limits).value.headers;
      LengthClean(ValuesOf(headers, CONTENT_LENGTH), limits);
      var hosts := ValuesOf(headers, HOST);
      assert hosts == [hosts[0]];
    }
  }

  /** Any head found at the front of a buffer is clean, and ends within the header size limit. */
  lemma AcceptedHead(buf: seq<Byte>, limits: Limits)
    ensures match FindHead(buf, limits)
            case Good(Some(head)) =>
              && CleanHead(head, limits) && 4 <= head.headerLen <= limits.maxHeaderSize && head.headerLen <= |buf|
              && buf[head.headerLen - 4..head.headerLen] == BLANK_LINE
            case _ => true
  {
    hide ParseHead, CleanHead;
    EndInside(buf);
    var end := FindEnd(buf);
    if end.Some? {
      HeadClean(buf[..end.value], limits);
      HeadEnds(buf[..end.value], limits);
    }
  }

  lemma HeadEnds(h: seq<Byte>, limits: Limits)
    ensures ParseHead(h, limits).Good? ==> ParseHead(h, limits).value.headerLen == |h| + 4
  {
  }
}
