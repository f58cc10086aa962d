/**
 Requests written out and read back: every request within the limits survives, and the bytes after it are untouched.
 */
module Http1Text {
  import opened Base
  import opened Segments
  import opened Http1
  import Utf8

  // ---------------------------------------------------------------- writing

  function RequestLine(r: Request): seq<Byte> {
    r.verb + [SPACE] + r.uri + [SPACE] + VERSION
  }

  function FieldLine(f: Field): seq<Byte> {
    f.name + [COLON] + ([SPACE] + f.value)
  }

  function FieldLines(headers: seq<Field>): (lines: seq<seq<Byte>>)
    ensures |lines| == |headers|
  {
    seq(|headers|, i requires 0 <= i < |headers| => FieldLine(headers[i]))
  }

  function HeadLines(r: Request): (lines: seq<seq<Byte>>)
    ensures lines != []
  {
    [RequestLine(r)] + FieldLines(r.headers)
  }

  function Join(lines: seq<seq<Byte>>): seq<Byte>
    requires lines != []
  {
    if |lines| == 1 then lines[0] else lines[0] + (CRLF + Join(lines[1..]))
  }

  function Render(r: Request): seq<Byte> {
    Join(HeadLines(r)) + (BLANK_LINE + r.body)
  }

  // ---------------------------------------------------------------- lines

  predicate Unbroken(line: seq<Byte>) {
    line != [] && CR !in line && LF !in line
  }

  predicate AllUnbroken(lines: seq<seq<Byte>>) {
    forall i :: 0 <= i < |lines| ==> Unbroken(lines[i])
  }

  lemma {:induction false} OneLine(line: seq<Byte>)
    requires CR !in line
    ensures Lines(line) == [line]
    decreases |line|
  {
    if line != [] {
      OneLine(line[1..]);
      assert [line[0]] + line[1..] == line;
    }
  }

  lemma {:induction false} LineEnds(line: seq<Byte>, rest: seq<Byte>)
    requires CR !in line
    ensures Lines(line + (CRLF + rest)) == [line] + Lines(rest)
    decreases |line|
  {
    var h := line + (CRLF + rest);
    assert CRLF == [CR, LF];
    if line == [] {
      assert h[..2] == CRLF && h[2..] == rest;
    } else {
      LineEnds(line[1..], rest);
      assert h[0] == line[0] && h[1..] == line[1..] + (CRLF + rest) && [line[0]] + line[1..] == line;
      assert h[..2] != CRLF;
    }
  }

  lemma {:induction false} LinesOfJoin(lines: seq<seq<Byte>>)
    requires lines != [] && AllUnbroken(lines)
    ensures Lines(Join(lines)) == lines
    decreases |lines|
  {
    hide Lines;
    OneLine(lines[0]);
    if |lines| > 1 {
      LinesOfJoin(lines[1..]);
      LineEnds(lines[0], Join(lines[1..]));
      assert [lines[0]] + lines[1..] == lines;
    } else {
      assert [lines[0]] == lines;
    }
  }

  lemma NoBreakAfter(line: seq<Byte>, rest: seq<Byte>)
    requires CR !in line && LF !in line && !BareBreak(rest)
    ensures !BareBreak(line + (CRLF + rest)) && !BareBreak(line)
  {
    var h := line + (CRLF + rest);
    var n := |line| + 2;
    forall i | 0 <= i < |h| ensures !BareAt(h, i) {
      if i < |line| {
        assert h[i] == line[i];
      } else if i >= n {
        var k := i - n;
        assert !BareAt(rest, k);
        assert h[i] == rest[k] && (k > 0 ==> h[i - 1] == rest[k - 1]) && (k + 1 < |rest| ==> h[i + 1] == rest[k + 1]);
      }
    }
  }

  lemma {:induction false} JoinNoBareBreak(lines: seq<seq<Byte>>)
    requires lines != [] && AllUnbroken(lines)
    ensures !BareBreak(Join(lines))
    decreases |lines|
  {
    hide BareBreak;
    if |lines| > 1 {
      JoinNoBareBreak(lines[1..]);
      NoBreakAfter(lines[0], Join(lines[1..]));
    } else {
      NoBareBreakInNothing();
      NoBreakAfter(lines[0], []);
    }
  }

  lemma NoBareBreakInNothing()
    ensures !BareBreak([])
  {
  }

  // ---------------------------------------------------------------- the blank line

  lemma {:induction false} SkipLine(line: seq<Byte>, rest: seq<Byte>)
    requires CR !in line && FindEnd(rest).Some?
    ensures FindEnd(line + rest) == Some(|line| + FindEnd(rest).value)
    decreases |line|
  {
    if line == [] {
      assert line + rest == rest;
    } else {
      SkipLine(line[1..], rest);
      var h := line + rest;
      assert h[1..] == line[1..] + rest && h[..4][0] == line[0];
    }
  }

  lemma SkipBreak(rest: seq<Byte>)
    requires rest != [] && rest[0] != CR && FindEnd(rest).Some?
    ensures FindEnd(CRLF + rest) == Some(2 + FindEnd(rest).value)
  {
    var h := CRLF + rest;
    assert h[..4][2] == rest[0];
    assert h[1..] == [LF] + rest;
    SkipLine([LF], rest);
  }

  lemma JoinFirst(lines: seq<seq<Byte>>)
    requires lines != [] && AllUnbroken(lines)
    ensures Join(lines) != [] && Join(lines)[0] != CR
  {
  }

  lemma {:induction false} EndOfJoin(lines: seq<seq<Byte>>, more: seq<Byte>)
    requires lines != [] && AllUnbroken(lines)
    ensures FindEnd(Join(lines) + (BLANK_LINE + more)) == Some(|Join(lines)|)
    decreases |lines|
  {
    var tail := BLANK_LINE + more;
    assert FindEnd(tail) == Some(0) by { assert tail[..4] == BLANK_LINE; }
    hide FindEnd;
    if |lines| == 1 {
      SkipLine(lines[0], tail);
    } else {
      var rest := Join(lines[1..]);
      EndOfJoin(lines[1..], more);
      JoinFirst(lines[1..]);
      SkipBreak(rest + tail);
      SkipLine(lines[0], CRLF + (rest + tail));
      assert Join(lines) + tail == lines[0] + (CRLF + (rest + tail));
    }
  }

  // ---------------------------------------------------------------- one line

  lemma {:induction false} PieceEnds(a: seq<Byte>, rest: seq<Byte>, sep: Byte)
    requires sep !in a
    ensures Pieces(a + [sep] + rest, sep) == [a] + Pieces(rest, sep) && Pieces(a, sep) == [a]
    decreases |a|
  {
    var s := a + [sep] + rest;
    if a == [] {
      assert s[1..] == rest;
    } else {
      PieceEnds(a[1..], rest, sep);
      assert s[1..] == a[1..] + [sep] + rest && [a[0]] + a[1..] == a;
    }
  }

  lemma ThreePieces(a: seq<Byte>, b: seq<Byte>, c: seq<Byte>, sep: Byte)
    requires sep !in a && sep !in b && sep !in c
    ensures Pieces(a + [sep] + b + [sep] + c, sep) == [a, b, c]
  {
    hide Pieces;
    PieceEnds(a, b + [sep] + c, sep);
    PieceEnds(b, c, sep);
    PieceEnds(c, [], sep);
    assert a + [sep] + b + [sep] + c == a + [sep] + (b + [sep] + c);
  }

  /** A first byte that cannot start a white character. */
  predicate Inky(b: Byte) {
    32 < b < 0xC2
  }

  lemma WhiteNotInky(s: seq<Byte>)
    requires WhiteChar(s)
    ensures s != [] && !Inky(s[0])
  {
  }

  lemma {:induction false} AllWhite(s: seq<Byte>)
    requires TrimEnd(s) == [] && s != []
    ensures !Inky(s[0])
    decreases |s|
  {
    hide WhiteChar, WhiteSuffix, Inky;
    var n := WhiteSuffix(s);
    if n > 0 {
      WhiteNotInky(s[|s| - n..]);
      if n < |s| {
        AllWhite(s[..|s| - n]);
      }
    }
  }

  lemma InkyNotBlank(s: seq<Byte>)
    requires s != [] && Inky(s[0])
    ensures Trim(s) != [] && WhitePrefix(s) == 0
  {
    hide WhiteChar, TrimEnd;
    if WhitePrefix(s) > 0 {
      WhiteNotInky(s[..WhitePrefix(s)]);
    }
    assert TrimStart(s) == s;
    if TrimEnd(s) == [] {
      AllWhite(s);
    }
  }

  lemma TrimOne(value: seq<Byte>)
    requires WhitePrefix(value) == 0 && WhiteSuffix(value) == 0
    ensures Trim([SPACE] + value) == value
  {
    var s := [SPACE] + value;
    assert s[..1] == [SPACE] && WhiteChar(s[..1]) && s[1..] == value;
    assert TrimStart(s) == value;
  }

  lemma {:induction false} IndexAfter(a: seq<Byte>, b: Byte, rest: seq<Byte>)
    requires b !in a
    ensures IndexOf(a + [b] + rest, b) == Some(|a|)
    decreases |a|
  {
    var s := a + [b] + rest;
    if a != [] {
      IndexAfter(a[1..], b, rest);
      assert s[1..] == a[1..] + [b] + rest;
    }
  }

  // ---------------------------------------------------------------- requests that can be written

  /** A header that survives: clean, and its value without white space at either end. */
  predicate PlainField(f: Field) {
    CleanField(f) && WhitePrefix(f.value) == 0 && WhiteSuffix(f.value) == 0
  }

  predicate PlainStart(r: Request, limits: Limits) {
    && r.verb != [] && (forall i :: 0 <= i < |r.verb| ==> Alpha(r.verb[i]))
    && r.uri != [] && SPACE !in r.uri && PlainUri(r.uri)
    && |r.uri| <= limits.maxUriLength && |RequestLine(r)| <= limits.maxHeaderLine
  }

  predicate PlainFields(headers: seq<Field>, limits: Limits) {
    && |headers| <= limits.maxHeaders
    && forall i :: 0 <= i < |headers| ==> PlainField(headers[i]) && |FieldLine(headers[i])| <= limits.maxHeaderLine
  }

  /** A request within every limit, with one Host and a Content-Length that is the length of its body. */
  predicate Renderable(r: Request, limits: Limits) {
    && PlainStart(r, limits) && PlainFields(r.headers, limits)
    && CheckHost(ValuesOf(r.headers, HOST)).Good?
    && CheckLength(ValuesOf(r.headers, CONTENT_LENGTH), limits) == Good(|r.body|)
    && |Join(HeadLines(r))| + 4 <= limits.maxHeaderSize
    && Utf8.Valid(Join(HeadLines(r)))
  }

  lemma VersionPlain()
    ensures VERSION != [] && SPACE !in VERSION && TAB !in VERSION && CR !in VERSION && LF !in VERSION
  {
  }

  lemma AlphaPlain(verb: seq<Byte>)
    requires forall i :: 0 <= i < |verb| ==> Alpha(verb[i])
    ensures SPACE !in verb && TAB !in verb && CR !in verb && LF !in verb
  {
  }

  lemma UriPlain(uri: seq<Byte>)
    requires PlainUri(uri)
    ensures TAB !in uri && CR !in uri && LF !in uri
  {
  }

  lemma RequestLineReads(r: Request, limits: Limits)
    requires PlainStart(r, limits)
    ensures ParseRequestLine(RequestLine(r), limits) == Good((r.verb, r.uri)) && Unbroken(RequestLine(r))
  {
    hide Pieces, Alpha, PlainUri;
    VersionPlain();
    AlphaPlain(r.verb);
    UriPlain(r.uri);
    ThreePieces(r.verb, r.uri, VERSION, SPACE);
    var parts := [r.verb, r.uri, VERSION];
    assert forall i :: 0 <= i < |parts| ==> PlainPart(parts[i]);
    assert RequestLine(r)[0] == r.verb[0];
  }

  lemma TokenPlain(name: seq<Byte>)
    requires Token(name)
    ensures COLON !in name && CR !in name && LF !in name && Inky(name[0])
  {
  }

  lemma FieldReads(f: Field)
    requires PlainField(f)
    ensures ParseField(FieldLine(f)) == Good(f) && Trim(FieldLine(f)) != [] && Unbroken(FieldLine(f))
  {
    hide Trim, IndexOf, WhitePrefix, WhiteSuffix, SameName, TokenChar;
    var line := FieldLine(f);
    TokenPlain(f.name);
    IndexAfter(f.name, COLON, [SPACE] + f.value);
    assert line[..|f.name|] == f.name && line[|f.name| + 1..] == [SPACE] + f.value;
    TrimOne(f.value);
    InkyNotBlank(line);
  }

  lemma {:induction false} FieldsRead(headers: seq<Field>, limits: Limits, sofar: seq<Field>)
    requires |sofar| + |headers| <= limits.maxHeaders
    requires forall i :: 0 <= i < |headers| ==>
             PlainField(headers[i]) && |FieldLine(headers[i])| <= limits.maxHeaderLine
    ensures ParseFields(FieldLines(headers), limits, sofar) == Good(sofar + headers)
    decreases |headers|
  {
    hide Trim, ParseField, FieldLine, PlainField;
    if headers == [] {
      assert sofar + headers == sofar;
    } else {
      FieldReads(headers[0]);
      FieldsRead(headers[1..], limits, sofar + [headers[0]]);
      assert FieldLines(headers)[1..] == FieldLines(headers[1..]);
      assert sofar + [headers[0]] + headers[1..] == sofar + headers;
    }
  }

  lemma LinesUnbroken(r: Request, limits: Limits)
    requires PlainStart(r, limits) && PlainFields(r.headers, limits)
    ensures AllUnbroken(HeadLines(r))
  {
    hide PlainStart, PlainField, RequestLine, FieldLine, Unbroken, ParseField, ParseRequestLine, Trim;
    RequestLineReads(r, limits);
    forall i | 0 <= i < |HeadLines(r)| ensures Unbroken(HeadLines(r)[i]) {
      if i > 0 {
        FieldReads(r.headers[i - 1]);
      }
    }
  }

  lemma HeadReads(r: Request, limits: Limits)
    requires Renderable(r, limits)
    ensures ParseHead(Join(HeadLines(r)), limits)
            == Good(Head(r.verb, r.uri, r.headers, |r.body|, |Join(HeadLines(r))| + 4))
  {
    hide BareBreak, Utf8.Valid, Lines, Join, ParseRequestLine, ParseFields, CheckLength, CheckHost, ValuesOf;
    hide PlainStart, PlainField, FieldLine, RequestLine, AllUnbroken;
    var lines := HeadLines(r);
    LinesUnbroken(r, limits);
    RequestLineReads(r, limits);
    LinesOfJoin(lines);
    JoinNoBareBreak(lines);
    FieldsRead(r.headers, limits, []);
    assert lines[1..] == FieldLines(r.headers) && [] + r.headers == r.headers;
  }

  /** Every request within the limits, written out and followed by anything, is read back and the rest left alone. */
  lemma RequestRoundTrip(r: Request, limits: Limits, more: seq<Byte>)
    requires Renderable(r, limits)
    ensures TakeRequest(Render(r) + more, limits) == Item(r, more)
  {
    hide ParseHead, FindEnd, Join, HeadLines, AllUnbroken, PlainStart, PlainFields, CheckHost, CheckLength, ValuesOf;
    hide Utf8.Valid;
    LinesUnbroken(r, limits);
    HeadReads(r, limits);
    var head := Join(HeadLines(r));
    var buf := Render(r) + more;
    assert buf == head + (BLANK_LINE + (r.body + more));
    EndOfJoin(HeadLines(r), r.body + more);
    assert buf[..|head|] == head;
    var from, total := |head| + 4, |head| + 4 + |r.body|;
    assert buf[from..total] == r.body && buf[total..] == more;
  }
}
