/**
 Header names in any spelling. Two request heads that differ only in the case of letters of header names are treated
 alike; what such a difference is, is said on the bytes.
 */
module Http1Case {
  import opened Base
  import opened Segments
  import opened Http1
  import Decimal
  import Utf8

  /** The same byte, or a capital letter and the small one. */
  predicate Recase(a: Byte, b: Byte) {
    a == b || (65 <= a <= 90 && b == a + 32) || (65 <= b <= 90 && a == b + 32)
  }

  /** Two spellings of one name. */
  predicate Spelling(a: seq<Byte>, b: seq<Byte>) {
    |a| == |b| && forall i :: 0 <= i < |a| ==> Recase(a[i], b[i])
  }

  /** Names are the same to the parser exactly if they are two spellings of one name. */
  lemma SameNameExactly(a: seq<Byte>, b: seq<Byte>)
    ensures SameName(a, b) <==> Spelling(a, b)
  {
    if |a| == |b| {
      forall i | 0 <= i < |a| ensures LowerByte(a[i]) == LowerByte(b[i]) <==> Recase(a[i], b[i]) {
      }
    }
  }

  /**
   From left to right, two texts are the same but for the case of letters inside header names. `inName` says whether
   a header name is being read: it begins after a line break and ends at the colon.
   */
  predicate Recased(h: seq<Byte>, g: seq<Byte>, inName: bool) {
    if h == [] then g == []
    else if |h| >= 2 && h[..2] == [13, 10] then |g| >= 2 && g[..2] == [13, 10] && Recased(h[2..], g[2..], true)
    else
      && g != [] && (if inName then Recase(h[0], g[0]) else h[0] == g[0])
      && Recased(h[1..], g[1..], inName && h[0] != 58)
  }

  // ---------------------------------------------------------------- bytes

  /** Where the texts differ, both have a letter. */
  predicate Close(h: seq<Byte>, g: seq<Byte>) {
    |h| == |g| && forall i :: 0 <= i < |h| ==> h[i] == g[i] || (Alpha(h[i]) && Alpha(g[i]))
  }

  lemma {:induction false} RecasedClose(h: seq<Byte>, g: seq<Byte>, inName: bool)
    requires Recased(h, g, inName)
    ensures Close(h, g)
    decreases |h|
  {
    if h != [] {
      if |h| >= 2 && h[..2] == [13, 10] {
        RecasedClose(h[2..], g[2..], true);
        assert h == h[..2] + h[2..] && g == g[..2] + g[2..];
      } else {
        RecasedClose(h[1..], g[1..], inName && h[0] != 58);
        assert h == [h[0]] + h[1..] && g == [g[0]] + g[1..];
      }
    }
  }

  lemma CloseBreaks(h: seq<Byte>, g: seq<Byte>)
    requires Close(h, g)
    ensures BareBreak(h) <==> BareBreak(g)
  {
    assert forall i :: 0 <= i < |h| ==> (h[i] == CR <==> g[i] == CR) && (h[i] == LF <==> g[i] == LF);
    forall i | 0 <= i < |h| ensures BareAt(h, i) <==> BareAt(g, i) {
    }
    if BareBreak(h) {
      var i :| 0 <= i < |h| && BareAt(h, i);
      assert BareAt(g, i);
    }
    if BareBreak(g) {
      var i :| 0 <= i < |g| && BareAt(g, i);
      assert BareAt(h, i);
    }
  }

  lemma CloseLead(h: seq<Byte>, g: seq<Byte>)
    requires Close(h, g)
    ensures Utf8.LeadLength(h) == Utf8.LeadLength(g)
  {
  }

  lemma {:induction false} CloseValid(h: seq<Byte>, g: seq<Byte>)
    requires Close(h, g)
    ensures Utf8.Valid(h) <==> Utf8.Valid(g)
    decreases |h|
  {
    hide Utf8.LeadLength;
    CloseLead(h, g);
    var n := Utf8.LeadLength(h);
    if n > 0 && h != [] {
      CloseTail(h, g, n);
      CloseValid(h[n..], g[n..]);
    }
  }

  lemma CloseTail(h: seq<Byte>, g: seq<Byte>, n: nat)
    requires Close(h, g) && n <= |h|
    ensures Close(h[n..], g[n..]) && Close(h[..n], g[..n])
  {
  }

  // ---------------------------------------------------------------- lines

  /** Two header lines that differ only before the colon. */
  predicate LineAlike(a: seq<Byte>, b: seq<Byte>, inName: bool) {
    if a == [] then b == []
    else
      && b != [] && (if inName then Recase(a[0], b[0]) else a[0] == b[0])
      && LineAlike(a[1..], b[1..], inName && a[0] != COLON)
  }

  predicate LinesAlike(a: seq<seq<Byte>>, b: seq<seq<Byte>>) {
    |a| == |b| && forall i :: 0 <= i < |a| ==> LineAlike(a[i], b[i], true)
  }

  lemma {:induction false} RecasedLines(h: seq<Byte>, g: seq<Byte>, inName: bool)
    requires Recased(h, g, inName)
    ensures var a, b := Lines(h), Lines(g); LineAlike(a[0], b[0], inName) && LinesAlike(a[1..], b[1..])
    decreases |h|
  {
    if h != [] {
      if |h| >= 2 && h[..2] == [13, 10] {
        RecasedLines(h[2..], g[2..], true);
        var a, b := Lines(h[2..]), Lines(g[2..]);
        assert a == [a[0]] + a[1..] && b == [b[0]] + b[1..];
        assert Lines(h)[1..] == a && Lines(g)[1..] == b;
      } else {
        BreakAlike(h, g, inName);
        RecasedLines(h[1..], g[1..], inName && h[0] != 58);
        var a, b := Lines(h[1..]), Lines(g[1..]);
        assert Lines(h) == [[h[0]] + a[0]] + a[1..] && Lines(g) == [[g[0]] + b[0]] + b[1..];
        assert ([h[0]] + a[0])[1..] == a[0] && ([g[0]] + b[0])[1..] == b[0];
      }
    }
  }

  lemma BreakAlike(h: seq<Byte>, g: seq<Byte>, inName: bool)
    requires Recased(h, g, inName) && h != [] && !(|h| >= 2 && h[..2] == CRLF)
    ensures !(|g| >= 2 && g[..2] == CRLF)
  {
    RecasedClose(h, g, inName);
  }

  lemma {:induction false} SameLine(a: seq<Byte>, b: seq<Byte>)
    requires LineAlike(a, b, false)
    ensures a == b
    decreases |a|
  {
    if a != [] {
      SameLine(a[1..], b[1..]);
      assert a == [a[0]] + a[1..] && b == [b[0]] + b[1..];
    }
  }

  /** Alike lines have their colon at the same place, spellings of one name before it and the same bytes after it. */
  lemma {:induction false} LineParts(a: seq<Byte>, b: seq<Byte>)
    requires LineAlike(a, b, true)
    ensures |a| == |b| && IndexOf(a, COLON) == IndexOf(b, COLON)
    ensures match IndexOf(a, COLON)
            case None => Spelling(a, b)
            case Some(at) => Spelling(a[..at], b[..at]) && a[at + 1..] == b[at + 1..]
    decreases |a|
  {
    if a != [] {
      if a[0] == COLON {
        SameLine(a[1..], b[1..]);
      } else {
        LineParts(a[1..], b[1..]);
        var r := IndexOf(a[1..], COLON);
        SpellingCons(a[0], b[0], if r.Some? then a[1..][..r.value] else a[1..], if r.Some? then b[1..][..r.value]
            else b[1..]);
        if r.Some? {
          var at := r.value + 1;
          assert a[..at] == [a[0]] + a[1..][..r.value] && b[..at] == [b[0]] + b[1..][..r.value];
          assert a[at + 1..] == a[1..][at..] && b[at + 1..] == b[1..][at..];
        } else {
          assert a == [a[0]] + a[1..] && b == [b[0]] + b[1..];
        }
      }
    }
  }

  lemma SpellingCons(x: Byte, y: Byte, a: seq<Byte>, b: seq<Byte>)
    requires Recase(x, y) && Spelling(a, b)
    ensures Spelling([x] + a, [y] + b)
  {
  }

  // ---------------------------------------------------------------- blank lines

  lemma WhiteNoLetter(s: seq<Byte>)
    requires WhiteChar(s)
    ensures forall i :: 0 <= i < |s| ==> !Alpha(s[i])
  {
  }

  lemma {:induction false} StartKeeps(s: seq<Byte>, i: nat)
    requires i < |s| && Alpha(s[i])
    ensures exists j :: 0 <= j < |TrimStart(s)| && Alpha(TrimStart(s)[j])
    decreases |s|
  {
    hide WhiteChar, Alpha;
    var n := WhitePrefix(s);
    if n > 0 {
      WhiteNoLetter(s[..n]);
      StartKeeps(s[n..], i - n);
      assert TrimStart(s) == TrimStart(s[n..]);
    } else {
      assert TrimStart(s)[i] == s[i];
    }
  }

  /** A letter is not part of the white space at the end. */
  lemma LetterBefore(s: seq<Byte>, i: nat, k: nat)
    requires i < |s| && Alpha(s[i]) && k <= |s| && WhiteChar(s[k..])
    ensures i < k
  {
    hide WhiteChar, Alpha;
    var tail := s[k..];
    assert i >= k ==> tail[i - k] == s[i];
    WhiteNoLetter(tail);
  }

  lemma {:induction false} EndKeeps(s: seq<Byte>, i: nat)
    requires i < |s| && Alpha(s[i])
    ensures TrimEnd(s) != []
    decreases |s|
  {
    hide WhiteChar, Alpha, WhiteSuffix;
    var n := WhiteSuffix(s);
    if n > 0 {
      LetterBefore(s, i, |s| - n);
      EndKeeps(s[..|s| - n], i);
    }
  }

  lemma LetterNotBlank(s: seq<Byte>, i: nat)
    requires i < |s| && Alpha(s[i])
    ensures Trim(s) != []
  {
    hide TrimStart, TrimEnd, Alpha;
    StartKeeps(s, i);
    var j :| 0 <= j < |TrimStart(s)| && Alpha(TrimStart(s)[j]);
    EndKeeps(TrimStart(s), j);
  }

  lemma BlankAlike(a: seq<Byte>, b: seq<Byte>)
    requires Close(a, b)
    ensures Trim(a) == [] <==> Trim(b) == []
  {
    hide Trim;
    if a != b {
      var i :| 0 <= i < |a| && a[i] != b[i];
      LetterNotBlank(a, i);
      LetterNotBlank(b, i);
    }
  }

  lemma {:induction false} LineClose(a: seq<Byte>, b: seq<Byte>, inName: bool)
    requires LineAlike(a, b, inName)
    ensures Close(a, b)
    decreases |a|
  {
    if a != [] {
      LineClose(a[1..], b[1..], inName && a[0] != COLON);
      assert a == [a[0]] + a[1..] && b == [b[0]] + b[1..];
    }
  }

  // ---------------------------------------------------------------- headers

  predicate FieldAlike(f: Field, g: Field) {
    Spelling(f.name, g.name) && f.value == g.value
  }

  predicate FieldsAlike(a: seq<Field>, b: seq<Field>) {
    |a| == |b| && forall i :: 0 <= i < |a| ==> FieldAlike(a[i], b[i])
  }

  lemma SpellingOf(a: seq<Byte>, b: seq<Byte>, name: seq<Byte>)
    requires Spelling(a, b)
    ensures SameName(a, name) <==> SameName(b, name)
  {
    SameNameExactly(a, b);
    hide LowerByte;
    if SameName(a, name) {
      forall i | 0 <= i < |b| ensures LowerByte(b[i]) == LowerByte(name[i]) {
        assert LowerByte(a[i]) == LowerByte(b[i]) && LowerByte(a[i]) == LowerByte(name[i]);
      }
    }
    if SameName(b, name) {
      forall i | 0 <= i < |a| ensures LowerByte(a[i]) == LowerByte(name[i]) {
        assert LowerByte(a[i]) == LowerByte(b[i]) && LowerByte(b[i]) == LowerByte(name[i]);
      }
    }
  }

  lemma TokenAlike(a: seq<Byte>, b: seq<Byte>)
    requires Spelling(a, b)
    ensures (exists i :: 0 <= i < |a| && !TokenChar(a[i])) <==> (exists i :: 0 <= i < |b| && !TokenChar(b[i]))
  {
    forall i | 0 <= i < |a| ensures TokenChar(a[i]) <==> TokenChar(b[i]) {
      assert Recase(a[i], b[i]);
    }
    if i :| 0 <= i < |a| && !TokenChar(a[i]) {
      assert !TokenChar(b[i]);
    }
    if i :| 0 <= i < |b| && !TokenChar(b[i]) {
      assert !TokenChar(a[i]);
    }
  }

  lemma ParseFieldAlike(a: seq<Byte>, b: seq<Byte>)
    requires LineAlike(a, b, true)
    ensures match ParseField(a)
            case Bad(e) => ParseField(b) == Bad(e)
            case Good(f) => ParseField(b).Good? && FieldAlike(f, ParseField(b).value)
  {
    hide SameName, TokenChar, Trim, Spelling, LineAlike;
    LineParts(a, b);
    var r := IndexOf(a, COLON);
    if r.Some? {
      TokenAlike(a[..r.value], b[..r.value]);
      SpellingOf(a[..r.value], b[..r.value], TRANSFER_ENCODING);
    }
  }

  lemma {:induction false} ParseFieldsAlike(a: seq<seq<Byte>>, b: seq<seq<Byte>>, limits: Limits, x: seq<Field>,
      y: seq<Field>)
    requires LinesAlike(a, b) && FieldsAlike(x, y)
    ensures match ParseFields(a, limits, x)
            case Bad(e) => ParseFields(b, limits, y) == Bad(e)
            case Good(fs) => ParseFields(b, limits, y).Good? && FieldsAlike(fs, ParseFields(b, limits, y).value)
    decreases |a|
  {
    hide Trim, ParseField, LineAlike, FieldAlike;
    if a != [] {
      assert LineAlike(a[0], b[0], true);
      LineClose(a[0], b[0], true);
      BlankAlike(a[0], b[0]);
      assert LinesAlike(a[1..], b[1..]);
      if Trim(a[0]) == [] {
        ParseFieldsAlike(a[1..], b[1..], limits, x, y);
      } else {
        ParseFieldAlike(a[0], b[0]);
        if ParseField(a[0]).Good? {
          ParseFieldsAlike(a[1..], b[1..], limits, x + [ParseField(a[0]).value], y + [ParseField(b[0]).value]);
        }
      }
    }
  }

  lemma {:induction false} ValuesAlike(x: seq<Field>, y: seq<Field>, name: seq<Byte>)
    requires FieldsAlike(x, y)
    ensures ValuesOf(x, name) == ValuesOf(y, name)
    decreases |x|
  {
    hide SameName;
    if x != [] {
      assert FieldAlike(x[0], y[0]) && FieldsAlike(x[1..], y[1..]);
      SpellingOf(x[0].name, y[0].name, name);
      ValuesAlike(x[1..], y[1..], name);
    }
  }

  // ---------------------------------------------------------------- whole heads

  /** Everything but the spelling of the names. */
  predicate HeadAlike(a: Head, b: Head) {
    && a.verb == b.verb && a.uri == b.uri && a.contentLength == b.contentLength && a.headerLen == b.headerLen
    && FieldsAlike(a.headers, b.headers)
  }

  /** Heads that differ only in the case of header names are accepted or refused alike, with the same error. */
  lemma HeadsAlike(h: seq<Byte>, g: seq<Byte>, limits: Limits)
    requires Recased(h, g, false)
    ensures match ParseHead(h, limits)
            case Bad(e) => ParseHead(g, limits) == Bad(e)
            case Good(a) => ParseHead(g, limits).Good? && HeadAlike(a, ParseHead(g, limits).value)
  {
    hide BareBreak, Utf8.Valid, Lines, ParseRequestLine, ParseFields, CheckHost, CheckLength, ValuesOf, LineAlike;
    hide FieldAlike;
    RecasedClose(h, g, false);
    CloseBreaks(h, g);
    CloseValid(h, g);
    RecasedLines(h, g, false);
    var a, b := Lines(h), Lines(g);
    SameLine(a[0], b[0]);
    ParseFieldsAlike(a[1..], b[1..], limits, [], []);
    var x, y := ParseFields(a[1..], limits, []), ParseFields(b[1..], limits, []);
    if x.Good? {
      ValuesAlike(x.value, y.value, HOST);
      ValuesAlike(x.value, y.value, CONTENT_LENGTH);
    }
  }

  lemma {:induction false} CloseEnd(h: seq<Byte>, g: seq<Byte>)
    requires Close(h, g)
    ensures FindEnd(h) == FindEnd(g)
    decreases |h|
  {
    if |h| >= 4 {
      CloseTail(h, g, 1);
      CloseEnd(h[1..], g[1..]);
      assert h[..4] == BLANK_LINE <==> g[..4] == BLANK_LINE by {
        CloseTail(h, g, 4);
      }
    }
  }

  lemma CloseMore(h: seq<Byte>, g: seq<Byte>, more: seq<Byte>)
    requires Close(h, g)
    ensures Close(h + more, g + more)
  {
  }

  lemma FoundAlike(h: seq<Byte>, g: seq<Byte>, more: seq<Byte>, limits: Limits)
    requires Recased(h, g, false) && FindEnd(h + more) == Some(|h|)
    ensures |h| == |g|
    ensures match FindHead(h + more, limits)
            case Bad(e) => FindHead(g + more, limits) == Bad(e)
            case Good(None) => false
            case Good(Some(a)) =>
              var r := FindHead(g + more, limits);
              r.Good? && r.value.Some? && HeadAlike(a, r.value.value) && a.headerLen == |h| + 4
  {
    hide ParseHead, FindEnd, HeadAlike, Close;
    RecasedClose(h, g, false);
    CloseMore(h, g, more);
    CloseEnd(h + more, g + more);
    SameLength(h, g);
    assert (h + more)[..|h|] == h && (g + more)[..|g|] == g;
    HeadsAlike(h, g, limits);
    HeadEnds(h, limits);
  }

  /**
   Requests whose heads differ only in the case of header names are taken off a buffer alike: the same wait, the same
   error, or the same request but for those names, with the same body and the same bytes left.
   */
  lemma RequestsAlike(h: seq<Byte>, g: seq<Byte>, more: seq<Byte>, limits: Limits)
    requires Recased(h, g, false) && FindEnd(h + more) == Some(|h|)
    ensures match TakeRequest(h + more, limits)
            case Wait => TakeRequest(g + more, limits) == Wait
            case Fail(e) => TakeRequest(g + more, limits) == Fail(e)
            case Item(r, rest) =>
              var s := TakeRequest(g + more, limits);
              && s.Item? && s.rest == rest && s.value.verb == r.verb && s.value.uri == r.uri && s.value.body == r.body
              && FieldsAlike(r.headers, s.value.headers)
  {
    hide FindHead, FindEnd, FieldsAlike, Recased;
    FoundAlike(h, g, more, limits);
    var found := FindHead(h + more, limits);
    if found.Good? {
      var from, total := |h| + 4, |h| + 4 + found.value.value.contentLength;
      if total <= |h + more| {
        SameAfter(h, g, more, total);
        SameSlice(h, g, more, from, total);
      }
    }
  }

  lemma SameLength(h: seq<Byte>, g: seq<Byte>)
    requires Close(h, g)
    ensures |h| == |g|
  {
  }

  lemma SameAfter(h: seq<Byte>, g: seq<Byte>, more: seq<Byte>, n: nat)
    requires |h| == |g| && |h| <= n <= |h| + |more|
    ensures (h + more)[n..] == (g + more)[n..]
  {
  }

  lemma SameSlice(h: seq<Byte>, g: seq<Byte>, more: seq<Byte>, n: nat, m: nat)
    requires |h| == |g| && |h| <= n <= m <= |h| + |more|
    ensures (h + more)[n..m] == (g + more)[n..m]
  {
  }

  // ---------------------------------------------------------------- the guarantees, for every spelling

  /** A header whose name is `name` in some spelling. */
  predicate Named(f: Field, name: string) {
    Spelling(f.name, Ascii(name))
  }

  lemma {:induction false} ValuesAt(headers: seq<Field>, name: seq<Byte>)
    ensures forall i :: 0 <= i < |headers| && SameName(headers[i].name, name) ==>
            headers[i].value in ValuesOf(headers, name)
    ensures ValuesOf(headers, name) == [] <==> forall i :: 0 <= i < |headers| ==> !SameName(headers[i].name, name)
    decreases |headers|
  {
    hide SameName;
    if headers != [] {
      var rest := headers[1..];
      ValuesAt(rest, name);
      assert forall i :: 0 < i < |headers| ==> headers[i] == rest[i - 1];
    }
  }

  lemma {:induction false} OnlyValue(headers: seq<Field>, name: seq<Byte>) returns (k: nat)
    requires |ValuesOf(headers, name)| == 1
    ensures k < |headers| && SameName(headers[k].name, name) && ValuesOf(headers, name) == [headers[k].value]
    ensures forall i :: 0 <= i < |headers| && SameName(headers[i].name, name) ==> i == k
    decreases |headers|
  {
    hide SameName;
    var rest := headers[1..];
    ValuesAt(rest, name);
    if SameName(headers[0].name, name) {
      k := 0;
      assert forall i :: 0 < i < |headers| ==> headers[i] == rest[i - 1];
    } else {
      var j := OnlyValue(rest, name);
      k := j + 1;
      assert forall i :: 0 < i < |headers| ==> headers[i] == rest[i - 1];
    }
  }

  /**
   No Transfer-Encoding, one Host that is not blank, and Content-Length only as the length used; in every spelling.
   */
  ghost predicate CleanNames(head: Head) {
    && (forall i :: 0 <= i < |head.headers| ==> !Named(head.headers[i], "Transfer-Encoding"))
    && (exists k :: 0 <= k < |head.headers| && Named(head.headers[k], "Host") && Trim(head.headers[k].value) != []
                    && forall i :: 0 <= i < |head.headers| && Named(head.headers[i], "Host") ==> i == k)
    && (forall i :: 0 <= i < |head.headers| && Named(head.headers[i], "Content-Length") ==>
          Decimal.ParseNumber(Text(head.headers[i].value)) == Some(head.contentLength))
    && ((forall i :: 0 <= i < |head.headers| ==> !Named(head.headers[i], "Content-Length")) ==> head.contentLength == 0)
  }

  lemma NamedExactly(headers: seq<Field>, name: string)
    ensures forall i :: 0 <= i < |headers| ==> (Named(headers[i], name) <==> SameName(headers[i].name, Ascii(name)))
  {
    hide SameName, Spelling, Ascii;
    forall i | 0 <= i < |headers| ensures Named(headers[i], name) <==> SameName(headers[i].name, Ascii(name)) {
      SameNameExactly(headers[i].name, Ascii(name));
    }
  }

  lemma AnySpelling(h: seq<Byte>, limits: Limits)
    ensures ParseHead(h, limits).Good? ==> CleanNames(ParseHead(h, limits).value)
  {
    hide ParseHead, SameName, Named, ValuesOf, Trim, Token;
    HeadClean(h, limits);
    if ParseHead(h, limits).Good? {
      var head := ParseHead(h, limits).value;
      NamedExactly(head.headers, "Transfer-Encoding");
      NamedExactly(head.headers, "Host");
      NamedExactly(head.headers, "Content-Length");
      ValuesAt(head.headers, CONTENT_LENGTH);
      forall i | 0 <= i < |head.headers| ensures !Named(head.headers[i], "Transfer-Encoding") {
        assert CleanField(head.headers[i]);
      }
      var k := OnlyValue(head.headers, HOST);
    }
  }
}
