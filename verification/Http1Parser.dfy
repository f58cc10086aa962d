/**
 The request parser as the loops it is made of, and the connection buffer it drains in place.
 */
module Http1Parser {
  import opened Base
  import opened Segments
  import opened Http1
  import Utf8

  function Shift(r: Option<nat>, n: nat): Option<nat> {
    if r.Some? then Some(r.value + n) else None
  }

  /** The windows of four bytes, one after the other. */
  method FindBlankLine(buf: seq<Byte>) returns (r: Option<nat>)
    ensures r == FindEnd(buf)
  {
    var i := 0;
    assert buf[0..] == buf;
    while i + 4 <= |buf|
      invariant 0 <= i <= |buf|
      invariant FindEnd(buf) == Shift(FindEnd(buf[i..]), i)
    {
      assert buf[i..][..4] == buf[i..i + 4] && buf[i..][1..] == buf[i + 1..];
      if buf[i..i + 4] == BLANK_LINE {
        return Some(i);
      }
      i := i + 1;
    }
    return None;
  }

  method HasBareBreak(h: seq<Byte>) returns (found: bool)
    ensures found == BareBreak(h)
  {
    var i := 0;
    while i < |h|
      invariant 0 <= i <= |h|
      invariant forall k :: 0 <= k < i ==> !BareAt(h, k)
    {
      if (h[i] == LF && (i == 0 || h[i - 1] != CR)) || (h[i] == CR && (i + 1 >= |h| || h[i + 1] != LF)) {
        assert BareAt(h, i);
        return true;
      }
      i := i + 1;
    }
    return false;
  }

  lemma {:induction false} ValuesSnoc(headers: seq<Field>, f: Field, name: seq<Byte>)
    ensures ValuesOf(headers + [f], name)
            == ValuesOf(headers, name) + (if SameName(f.name, name) then [f.value] else [])
    decreases |headers|
  {
    if headers == [] {
      assert headers + [f] == [f] && ValuesOf([f][1..], name) == [];
    } else {
      ValuesSnoc(headers[1..], f, name);
      assert (headers + [f])[1..] == headers[1..] + [f];
    }
  }

  lemma NamesDiffer(name: seq<Byte>)
    ensures !(SameName(name, HOST) && SameName(name, CONTENT_LENGTH))
  {
  }

  /** The header lines, collecting headers, Host values and Content-Length values side by side. */
  method CollectFields(lines: seq<seq<Byte>>, limits: Limits)
    returns (r: Outcome<seq<Field>>, hosts: seq<seq<Byte>>, lengths: seq<seq<Byte>>)
    ensures r == ParseFields(lines, limits, [])
    ensures r.Good? ==> hosts == ValuesOf(r.value, HOST) && lengths == ValuesOf(r.value, CONTENT_LENGTH)
  {
    hide Trim, ParseField, SameName;
    var headers: seq<Field> := [];
    hosts, lengths := [], [];
    var i := 0;
    assert lines[0..] == lines;
    while i < |lines|
      invariant 0 <= i <= |lines|
      invariant ParseFields(lines, limits, []) == ParseFields(lines[i..], limits, headers)
      invariant hosts == ValuesOf(headers, HOST) && lengths == ValuesOf(headers, CONTENT_LENGTH)
    {
      var line := lines[i];
      assert lines[i..][1..] == lines[i + 1..];
      i := i + 1;
      if Trim(line) != [] {
        if |line| > limits.maxHeaderLine {
          return Bad(OversizedHeaderLine), hosts, lengths;
        }
        if |headers| >= limits.maxHeaders {
          return Bad(TooManyHeaders), hosts, lengths;
        }
        var f := ParseField(line);
        if f.Bad? {
          return Bad(f.error), hosts, lengths;
        }
        NamesDiffer(f.value.name);
        ValuesSnoc(headers, f.value, HOST);
        ValuesSnoc(headers, f.value, CONTENT_LENGTH);
        if SameName(f.value.name, HOST) {
          hosts := hosts + [f.value.value];
        } else if SameName(f.value.name, CONTENT_LENGTH) {
          lengths := lengths + [f.value.value];
        }
        headers := headers + [f.value];
      }
    }
    assert lines[i..] == [];
    return Good(headers), hosts, lengths;
  }

  method ReadHead(h: seq<Byte>, limits: Limits) returns (r: Outcome<Head>)
    ensures r == ParseHead(h, limits)
  {
    hide BareBreak, Utf8.Valid, Lines, ParseRequestLine, ParseFields, CheckHost, CheckLength, ValuesOf;
    var bare := HasBareBreak(h);
    if bare || !Utf8.Valid(h) {
      return Bad(MalformedRequest);
    }
    var lines := Lines(h);
    var start :- ParseRequestLine(lines[0], limits);
    var fields, hosts, lengths := CollectFields(lines[1..], limits);
    var headers :- fields;
    var _ :- CheckHost(hosts);
    var length :- CheckLength(lengths, limits);
    return Good(Head(start.0, start.1, headers, length, |h| + 4));
  }

  /** A connection's unread bytes. */
  class RequestBuffer {
    var bytes: seq<Byte>

    constructor ()
      ensures bytes == []
    {
      bytes := [];
    }

    /** A complete request is taken off the front, header and body and nothing else; otherwise nothing changes. */
    method Next(limits: Limits) returns (r: Outcome<Option<Request>>)
      modifies this
      ensures match TakeRequest(old(bytes), limits)
              case Wait => r == Good(None) && bytes == old(bytes)
              case Item(q, rest) => r == Good(Some(q)) && bytes == rest
              case Fail(e) => r == Bad(e) && bytes == old(bytes)
    {
      hide FindEnd, ParseHead;
      HeadInside(bytes, limits);
      EndInside(bytes);
      var end := FindBlankLine(bytes);
      if end.None? {
        if |bytes| > limits.maxHeaderSize {
          return Bad(OversizedHeader);
        }
        return Good(None);
      }
      if end.value + 4 > limits.maxHeaderSize {
        return Bad(OversizedHeader);
      }
      var head :- ReadHead(bytes[..end.value], limits);
      var total := head.headerLen + head.contentLength;
      if |bytes| < total {
        return Good(None);
      }
      var body := bytes[head.headerLen..total];
      bytes := bytes[total..];
      return Good(Some(Request(head.verb, head.uri, head.headers, body)));
    }
  }
}
