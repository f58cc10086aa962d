/**
 HPACK header blocks (src/server/http2/hpack.rs:121-278): the decoder with its dynamic table, and the
 encoder that refers to the static table only.
 */
module Hpack {
  import opened Base
  import opened HpackTable
  import opened HpackCodec
  import Utf8

  // ---------------------------------------------------------------- tables

  /** RFC 7541 Appendix A. */
  const STATIC_TABLE: seq<(string, string)> := [
      (":authority", ""), (":method", "GET"), (":method", "POST"), (":path", "/"), (":path", "/index.html"),
      (":scheme", "http"), (":scheme", "https"), (":status", "200"), (":status", "204"), (":status", "206"),
      (":status", "304"), (":status", "400"), (":status", "404"), (":status", "500"), ("accept-charset", ""),
      ("accept-encoding", "gzip, deflate"), ("accept-language", ""), ("accept-ranges", ""), ("accept", ""),
      ("access-control-allow-origin", ""), ("age", ""), ("allow", ""), ("authorization", ""), ("cache-control", ""),
      ("content-disposition", ""), ("content-encoding", ""), ("content-language", ""), ("content-length", ""),
      ("content-location", ""), ("content-range", ""), ("content-type", ""), ("cookie", ""), ("date", ""),
      ("etag", ""), ("expect", ""), ("expires", ""), ("from", ""), ("host", ""), ("if-match", ""),
      ("if-modified-since", ""), ("if-none-match", ""), ("if-range", ""), ("if-unmodified-since", ""),
      ("last-modified", ""), ("link", ""), ("location", ""), ("max-forwards", ""), ("proxy-authenticate", ""),
      ("proxy-authorization", ""), ("range", ""), ("referer", ""), ("refresh", ""), ("retry-after", ""),
      ("server", ""), ("set-cookie", ""), ("strict-transport-security", ""), ("transfer-encoding", ""),
      ("user-agent", ""), ("vary", ""), ("via", ""), ("www-authenticate", "")
  ]

  const STATIC_SIZE := 61

  lemma StaticSize()
    ensures |STATIC_TABLE| == STATIC_SIZE
  {
  }

  function StaticEntry(index: nat): Header
    requires 1 <= index <= STATIC_SIZE
  {
    StaticSize();
    Header(Ascii(STATIC_TABLE[index - 1].0), Ascii(STATIC_TABLE[index - 1].1))
  }

  /** The decoder's dynamic table as a value. */
  datatype Table = Table(entries: seq<Header>, maxSize: nat)

  function Lookup(t: Table, index: nat): Result<Header> {
    if index == 0 then Err(CompressionError)
    else if index <= STATIC_SIZE then Ok(StaticEntry(index))
    else if index - STATIC_SIZE <= |t.entries| then Ok(t.entries[index - STATIC_SIZE - 1])
    else Err(CompressionError)
  }

  // ---------------------------------------------------------------- decoder

  /** What one representation does: the fields it adds, the table it leaves, the bytes it takes. */
  datatype Step = Step(headers: seq<Header>, table: Table, length: nat)

  function DecodeName(t: Table, index: nat, buf: seq<Byte>): (r: Result<Read<seq<Byte>>>)
    ensures r.Ok? ==> r.value.length <= |buf|
  {
    if index == 0 then DecodeString(buf)
    else
      var h :- Lookup(t, index);
      Ok(Read(h.name, 0))
  }

  /** A literal field: an index or a name, then a value. */
  function DecodeLiteral(t: Table, buf: seq<Byte>, prefixBits: nat): (r: Result<Read<Header>>)
    ensures r.Ok? ==> 0 < r.value.length <= |buf|
  {
    var index :- DecodeInt(buf, prefixBits);
    var name :- DecodeName(t, index.value, buf[index.length..]);
    var value :- DecodeString(buf[index.length + name.length..]);
    Ok(Read(Header(name.value, value.value), index.length + name.length + value.length))
  }

  function DecodeField(t: Table, limit: nat, buf: seq<Byte>): (r: Result<Step>)
    requires buf != []
    ensures r.Ok? ==> 0 < r.value.length <= |buf|
  {
    if buf[0] >= 0x80 then
      var index :- DecodeInt(buf, 7);
      var h :- Lookup(t, index.value);
      Ok(Step([h], t, index.length))
    else if buf[0] >= 0x40 then
      var h :- DecodeLiteral(t, buf, 6);
      Ok(Step([h.value], Table(Evict([h.value] + t.entries, t.maxSize), t.maxSize), h.length))
    else if buf[0] >= 0x20 then
      var size :- DecodeInt(buf, 5);
      if size.value > limit then Err(CompressionError)
      else Ok(Step([], Table(Evict(t.entries, size.value), size.value), size.length))
    else
      var h :- DecodeLiteral(t, buf, 4);
      Ok(Step([h.value], t, h.length))
  }

  datatype Block = Block(headers: seq<Header>, table: Table)

  function DecodeFields(t: Table, limit: nat, buf: seq<Byte>): Result<Block>
    decreases |buf|
  {
    if buf == [] then Ok(Block([], t))
    else
      var step :- DecodeField(t, limit, buf);
      var rest :- DecodeFields(step.table, limit, buf[step.length..]);
      Ok(Block(step.headers + rest.headers, rest.table))
  }

  function DecodeBlock(t: Table, limit: nat, maxBlock: nat, buf: seq<Byte>): Result<Block> {
    if |buf| > maxBlock then Err(EnhanceYourCalm) else DecodeFields(t, limit, buf)
  }

  // ---------------------------------------------------------------- splitting a block

  lemma LiteralPrefix(t: Table, buf: seq<Byte>, prefixBits: nat, rest: seq<Byte>)
    requires DecodeLiteral(t, buf, prefixBits).Ok?
    ensures DecodeLiteral(t, buf + rest, prefixBits) == DecodeLiteral(t, buf, prefixBits)
  {
    hide DecodeInt, DecodeString, Lookup;
    IntPrefix(buf, prefixBits, rest);
    var index := DecodeInt(buf, prefixBits).value;
    var at := index.length;
    assert (buf + rest)[at..] == buf[at..] + rest;
    if index.value == 0 {
      StringPrefix(buf[at..], rest);
    }
    var name := DecodeName(t, index.value, buf[at..]).value;
    var next := at + name.length;
    assert (buf + rest)[next..] == buf[next..] + rest;
    StringPrefix(buf[next..], rest);
  }

  lemma FieldPrefix(t: Table, limit: nat, buf: seq<Byte>, rest: seq<Byte>)
    requires buf != [] && DecodeField(t, limit, buf).Ok?
    ensures DecodeField(t, limit, buf + rest) == DecodeField(t, limit, buf)
  {
    hide DecodeInt, DecodeLiteral, Lookup, Evict;
    if buf[0] >= 0x80 {
      IntPrefix(buf, 7, rest);
    } else if buf[0] >= 0x40 {
      LiteralPrefix(t, buf, 6, rest);
    } else if buf[0] >= 0x20 {
      IntPrefix(buf, 5, rest);
    } else {
      LiteralPrefix(t, buf, 4, rest);
    }
  }

  /** Decoding two pieces one after the other is decoding their concatenation. */
  lemma {:induction false} DecodeSplit(t: Table, limit: nat, a: seq<Byte>, b: seq<Byte>)
    requires DecodeFields(t, limit, a).Ok?
    ensures DecodeFields(t, limit, a + b)
         == match DecodeFields(DecodeFields(t, limit, a).value.table, limit, b)
            case Ok(rest) => Ok(Block(DecodeFields(t, limit, a).value.headers + rest.headers, rest.table))
            case Err(c) => Err(c)
    decreases |a|
  {
    hide DecodeField;
    if a == [] {
      assert a + b == b;
      if DecodeFields(t, limit, b).Ok? {
        assert [] + DecodeFields(t, limit, b).value.headers == DecodeFields(t, limit, b).value.headers;
      }
    } else {
      var step := DecodeField(t, limit, a).value;
      FieldPrefix(t, limit, a, b);
      assert (a + b)[step.length..] == a[step.length..] + b;
      DecodeSplit(step.table, limit, a[step.length..], b);
      var first := DecodeFields(step.table, limit, a[step.length..]).value;
      var last := DecodeFields(first.table, limit, b);
      if last.Ok? {
        assert step.headers + (first.headers + last.value.headers) == step.headers + first.headers + last.value.headers;
      }
    }
  }

  // ---------------------------------------------------------------- any encoder

  datatype Name = Reference(index: nat) | Spelled(text: Literal)

  /** The representations of RFC 7541 section 6, with every choice an encoder has. */
  datatype Field =
    | Indexed(index: nat)
    | Indexing(name: Name, value: Literal)
    | Plain(name: Name, value: Literal, never: bool)
    | Resize(size: nat)

  lemma Patterns()
    ensures Pattern(0x80, 7) && Pattern(0x40, 6) && Pattern(0x20, 5) && Pattern(0x10, 4) && Pattern(0x00, 4)
    ensures Pow2(7) == 128 && Pow2(6) == 64 && Pow2(5) == 32 && Pow2(4) == 16
  {
  }

  function WireName(name: Name): seq<Byte> {
    if name.Spelled? then EncodeString(name.text) else []
  }

  function NameIndex(name: Name): nat {
    if name.Spelled? then 0 else name.index
  }

  function Wire(f: Field): (b: seq<Byte>)
    ensures b != []
  {
    Patterns();
    match f
    case Indexed(index) => EncodeInt(0x80, 7, index)
    case Indexing(name, value) => EncodeInt(0x40, 6, NameIndex(name)) + WireName(name) + EncodeString(value)
    case Plain(name, value, never) =>
      EncodeInt(if never then 0x10 else 0x00, 4, NameIndex(name)) + WireName(name) + EncodeString(value)
    case Resize(size) => EncodeInt(0x20, 5, size)
  }

  function WireAll(fields: seq<Field>): seq<Byte> {
    if fields == [] then [] else Wire(fields[0]) + WireAll(fields[1..])
  }

  predicate Legal(s: Literal) {
    Utf8.Valid(s.text) && Sized(s)
  }

  /** The name a reference or a spelling denotes, if it is a legal one. */
  function MeaningOfName(t: Table, name: Name): Option<seq<Byte>> {
    match name
    case Spelled(text) => if Legal(text) then Some(text.text) else None
    case Reference(index) =>
      if index < 0x8000_0000_0000_0000 && Lookup(t, index).Ok? then Some(Lookup(t, index).value.name) else None
  }

  /** What a representation means by RFC 7541, with the encoder's own table; None if it may not be sent. */
  function Meaning(t: Table, limit: nat, f: Field): Option<Block> {
    match f
    case Indexed(index) =>
      if index < 0x8000_0000_0000_0000 && Lookup(t, index).Ok? then Some(Block([Lookup(t, index).value], t)) else None
    case Indexing(name, value) =>
      var n := MeaningOfName(t, name);
      if n.None? || !Legal(value) then None
      else
        var h := Header(n.value, value.text);
        Some(Block([h], t.(entries := RfcInsert(t.entries, h, t.maxSize))))
    case Plain(name, value, _) =>
      var n := MeaningOfName(t, name);
      if n.None? || !Legal(value) then None else Some(Block([Header(n.value, value.text)], t))
    case Resize(size) =>
      if size > limit || size >= 0x8000_0000_0000_0000 then None
      else Some(Block([], Table(Evict(t.entries, size), size)))
  }

  function MeaningAll(t: Table, limit: nat, fields: seq<Field>): Option<Block>
    decreases |fields|
  {
    if fields == [] then Some(Block([], t))
    else
      match Meaning(t, limit, fields[0])
      case None => None
      case Some(first) =>
        match MeaningAll(first.table, limit, fields[1..])
        case None => None
        case Some(rest) => Some(Block(first.headers + rest.headers, rest.table))
  }

  lemma NameRoundTrip(t: Table, name: Name, rest: seq<Byte>)
    requires MeaningOfName(t, name).Some?
    ensures NameIndex(name) < 0x8000_0000_0000_0000
    ensures DecodeName(t, NameIndex(name), WireName(name) + rest)
            == Ok(Read(MeaningOfName(t, name).value, |WireName(name)|))
  {
    hide DecodeString, EncodeString;
    if name.Spelled? {
      StringRoundTrip(name.text, rest);
    }
  }

  /** The three parts of a literal field, read one after the other. */
  lemma LiteralParts(t: Table, buf: seq<Byte>, prefixBits: nat, index: Read<nat>, name: Read<seq<Byte>>,
      value: Read<seq<Byte>>)
    requires DecodeInt(buf, prefixBits) == Ok(index)
    requires DecodeName(t, index.value, buf[index.length..]) == Ok(name)
    requires DecodeString(buf[index.length + name.length..]) == Ok(value)
    ensures DecodeLiteral(t, buf, prefixBits)
         == Ok(Read(Header(name.value, value.value), index.length + name.length + value.length))
  {
    hide DecodeInt, DecodeName, DecodeString;
  }

  /** An index that may be sent is read back. */
  lemma IndexRoundTrip(pattern: Byte, prefixBits: nat, value: nat, rest: seq<Byte>)
    requires Pattern(pattern, prefixBits) && value < 0x8000_0000_0000_0000
    ensures var wire := EncodeInt(pattern, prefixBits, value);
            DecodeInt(wire + rest, prefixBits) == Ok(Read(value, |wire|))
  {
    hide DecodeInt, EncodeInt;
    IntRoundTrip(pattern, prefixBits, value, rest);
  }

  lemma LiteralRoundTrip(t: Table, pattern: Byte, prefixBits: nat, name: Name, value: Literal, rest: seq<Byte>)
    requires Pattern(pattern, prefixBits) && MeaningOfName(t, name).Some? && Legal(value)
    ensures var wire := EncodeInt(pattern, prefixBits, NameIndex(name)) + WireName(name) + EncodeString(value);
            DecodeLiteral(t, wire + rest, prefixBits)
            == Ok(Read(Header(MeaningOfName(t, name).value, value.text), |wire|))
  {
    hide DecodeInt, EncodeInt, DecodeName, DecodeString, EncodeString, DecodeLiteral, MeaningOfName, NameIndex;
    hide WireName;
    hide Pattern, Pow2;
    var i, n, v := EncodeInt(pattern, prefixBits, NameIndex(name)), WireName(name), EncodeString(value);
    var buf := i + n + v + rest;
    NameRoundTrip(t, name, v + rest);
    assert buf == i + (n + (v + rest));
    IndexRoundTrip(pattern, prefixBits, NameIndex(name), n + (v + rest));
    assert buf[|i|..] == n + (v + rest);
    assert buf[|i| + |n|..] == v + rest;
    StringRoundTrip(value, rest);
    LiteralParts(t, buf, prefixBits, Read(NameIndex(name), |i|), Read(MeaningOfName(t, name).value, |n|),
        Read(value.text, |v|));
  }

  /** A legal representation is decoded as meant, and leaves the encoder's table. */
  lemma FieldRoundTrip(t: Table, limit: nat, f: Field, rest: seq<Byte>)
    requires Meaning(t, limit, f).Some?
    ensures var m := Meaning(t, limit, f).value;
            DecodeField(t, limit, Wire(f) + rest) == Ok(Step(m.headers, m.table, |Wire(f)|))
  {
    Patterns();
    hide DecodeInt, EncodeInt, DecodeLiteral, MeaningOfName, Legal, NameIndex, WireName, EncodeString, Lookup, Evict;
    hide Pattern, Pow2;
    match f
    case Indexed(index) =>
      IntRoundTrip(0x80, 7, index, rest);
    case Indexing(name, value) =>
      LiteralRoundTrip(t, 0x40, 6, name, value, rest);
      InsertRefinesRfc(t.entries, Meaning(t, limit, f).value.headers[0], t.maxSize);
    case Plain(name, value, never) =>
      LiteralRoundTrip(t, if never then 0x10 else 0x00, 4, name, value, rest);
    case Resize(size) =>
      IntRoundTrip(0x20, 5, size, rest);
  }

  /** A block from any RFC 7541 encoder decodes to its headers, and the two dynamic tables stay equal. */
  lemma {:induction false} BlockRoundTrip(t: Table, limit: nat, fields: seq<Field>)
    requires MeaningAll(t, limit, fields).Some?
    ensures DecodeFields(t, limit, WireAll(fields)) == Ok(MeaningAll(t, limit, fields).value)
    decreases |fields|
  {
    hide Meaning, Wire, DecodeField;
    if fields != [] {
      var first, rest := fields[0], WireAll(fields[1..]);
      FieldRoundTrip(t, limit, first, rest);
      assert WireAll(fields)[|Wire(first)|..] == rest;
      BlockRoundTrip(Meaning(t, limit, first).value.table, limit, fields[1..]);
    }
  }

  /** One decoder fed a sequence of blocks. */
  function DecodeBlocks(t: Table, limit: nat, maxBlock: nat, blocks: seq<seq<Byte>>): Result<(seq<seq<Header>>, Table)>
    decreases |blocks|
  {
    if blocks == [] then Ok(([], t))
    else
      var first :- DecodeBlock(t, limit, maxBlock, blocks[0]);
      var rest :- DecodeBlocks(first.table, limit, maxBlock, blocks[1..]);
      Ok(([first.headers] + rest.0, rest.1))
  }

  /** The same sequence on the encoder's side. */
  function MeaningOfBlocks(t: Table, limit: nat, blocks: seq<seq<Field>>): Option<(seq<seq<Header>>, Table)>
    decreases |blocks|
  {
    if blocks == [] then Some(([], t))
    else
      match MeaningAll(t, limit, blocks[0])
      case None => None
      case Some(first) =>
        match MeaningOfBlocks(first.table, limit, blocks[1..])
        case None => None
        case Some(rest) => Some(([first.headers] + rest.0, rest.1))
  }

  function WireBlocks(blocks: seq<seq<Field>>): (wire: seq<seq<Byte>>)
    ensures |wire| == |blocks|
  {
    seq(|blocks|, i requires 0 <= i < |blocks| => WireAll(blocks[i]))
  }

  /** Over a whole connection: same header lists, and the tables never diverge. */
  lemma {:induction false} ConnectionRoundTrip(t: Table, limit: nat, maxBlock: nat, blocks: seq<seq<Field>>)
    requires MeaningOfBlocks(t, limit, blocks).Some?
    requires forall i :: 0 <= i < |blocks| ==> |WireAll(blocks[i])| <= maxBlock
    ensures DecodeBlocks(t, limit, maxBlock, WireBlocks(blocks)) == Ok(MeaningOfBlocks(t, limit, blocks).value)
    decreases |blocks|
  {
    hide MeaningAll, WireAll, DecodeFields;
    if blocks != [] {
      BlockRoundTrip(t, limit, blocks[0]);
      ConnectionRoundTrip(MeaningAll(t, limit, blocks[0]).value.table, limit, maxBlock, blocks[1..]);
      assert WireBlocks(blocks)[1..] == WireBlocks(blocks[1..]);
    }
  }

  // ---------------------------------------------------------------- this encoder

  /** The first static entry from `from` on with this name. */
  function FindName(name: seq<Byte>, from: nat): (i: Option<nat>)
    requires 1 <= from <= STATIC_SIZE + 1
    ensures i.Some? ==> from <= i.value <= STATIC_SIZE && StaticEntry(i.value).name == name
    ensures forall j :: from <= j <= STATIC_SIZE && (i.None? || j < i.value) ==> StaticEntry(j).name != name
    decreases STATIC_SIZE + 1 - from
  {
    if from > STATIC_SIZE then None
    else if StaticEntry(from).name == name then Some(from)
    else FindName(name, from + 1)
  }

  /** The first static entry from `from` on that is this header. */
  function FindHeader(h: Header, from: nat): (i: Option<nat>)
    requires 1 <= from <= STATIC_SIZE + 1
    ensures i.Some? ==> from <= i.value <= STATIC_SIZE && StaticEntry(i.value) == h
    ensures forall j :: from <= j <= STATIC_SIZE && (i.None? || j < i.value) ==> StaticEntry(j) != h
    decreases STATIC_SIZE + 1 - from
  {
    if from > STATIC_SIZE then None
    else if StaticEntry(from) == h then Some(from)
    else FindHeader(h, from + 1)
  }

  /** The representation chosen for a header whose name is already lower-cased. */
  function Choose(h: Header): Field {
    if FindHeader(h, 1).Some? then Indexed(FindHeader(h, 1).value)
    else if FindName(h.name, 1).Some? then Plain(Reference(FindName(h.name, 1).value), Literal(h.value, false), false)
    else Plain(Spelled(Literal(h.name, false)), Literal(h.value, false), false)
  }

  function Lowered(lower: seq<Byte> -> seq<Byte>, headers: seq<Header>): (r: seq<Header>)
    ensures |r| == |headers|
  {
    seq(|headers|, i requires 0 <= i < |headers| => Header(lower(headers[i].name), headers[i].value))
  }

  function ChooseAll(headers: seq<Header>): (r: seq<Field>)
    ensures |r| == |headers|
  {
    seq(|headers|, i requires 0 <= i < |headers| => Choose(headers[i]))
  }

  function EncodeHeaders(lower: seq<Byte> -> seq<Byte>, headers: seq<Header>): seq<Byte> {
    WireAll(ChooseAll(Lowered(lower, headers)))
  }

  predicate LegalHeader(h: Header) {
    Legal(Literal(h.name, false)) && Legal(Literal(h.value, false))
  }

  lemma ChosenMeaning(t: Table, limit: nat, h: Header)
    requires LegalHeader(h)
    ensures Meaning(t, limit, Choose(h)) == Some(Block([h], t))
  {
    hide Legal, StaticEntry, FindName, FindHeader;
  }

  lemma {:induction false} ChosenMeanings(t: Table, limit: nat, headers: seq<Header>)
    requires forall h :: h in headers ==> LegalHeader(h)
    ensures MeaningAll(t, limit, ChooseAll(headers)) == Some(Block(headers, t))
    decreases |headers|
  {
    hide Meaning, Choose, LegalHeader;
    if headers != [] {
      ChosenMeaning(t, limit, headers[0]);
      ChosenMeanings(t, limit, headers[1..]);
      assert ChooseAll(headers)[1..] == ChooseAll(headers[1..]);
      assert [headers[0]] + headers[1..] == headers;
    }
  }

  /** A header list sent by this encoder reaches any decoder with its names lower-cased, and its table untouched. */
  lemma EncodeRoundTrip(lower: seq<Byte> -> seq<Byte>, headers: seq<Header>, t: Table, limit: nat, maxBlock: nat)
    requires forall h :: h in Lowered(lower, headers) ==> LegalHeader(h)
    ensures var wire := EncodeHeaders(lower, headers);
            DecodeBlock(t, limit, maxBlock, wire)
            == if |wire| <= maxBlock then Ok(Block(Lowered(lower, headers), t)) else Err(EnhanceYourCalm)
  {
    hide MeaningAll, WireAll, DecodeFields, LegalHeader, ChooseAll, Lowered;
    ChosenMeanings(t, limit, Lowered(lower, headers));
    BlockRoundTrip(t, limit, ChooseAll(Lowered(lower, headers)));
  }

  // ---------------------------------------------------------------- imperative forms

  /** The static-table search of `encode_headers`: one pass that stops at a full match. */
  method SearchStatic(h: Header) returns (matched: Option<nat>, nameIndex: Option<nat>)
    ensures matched == FindHeader(h, 1)
    ensures matched.None? ==> nameIndex == FindName(h.name, 1)
  {
    hide StaticEntry;
    matched, nameIndex := None, None;
    var i := 1;
    while i <= STATIC_SIZE
      invariant 1 <= i <= STATIC_SIZE + 1
      invariant FindHeader(h, 1) == FindHeader(h, i)
      invariant nameIndex.None? ==> FindName(h.name, 1) == FindName(h.name, i)
      invariant nameIndex.Some? ==> nameIndex == FindName(h.name, 1)
    {
      var e := StaticEntry(i);
      if e.name == h.name {
        if nameIndex.None? {
          nameIndex := Some(i);
        }
        if e.value == h.value {
          matched := Some(i);
          return;
        }
      }
      i := i + 1;
    }
  }

  method PushString(out: seq<Byte>, text: seq<Byte>) returns (out': seq<Byte>)
    ensures out' == out + EncodeString(Literal(text, false))
  {
    Patterns();
    out' := EncodeIntLoop(out, 0x00, 7, |text|);
    out' := out' + text;
  }

  /** `encode_headers`, pushing every representation to `out`. */
  method EncodeHeadersLoop(lower: seq<Byte> -> seq<Byte>, headers: seq<Header>) returns (out: seq<Byte>)
    ensures out == EncodeHeaders(lower, headers)
  {
    hide Wire, Choose;
    ghost var fields := ChooseAll(Lowered(lower, headers));
    out := [];
    assert fields[0..] == fields;
    for k := 0 to |headers|
      invariant out + WireAll(fields[k..]) == WireAll(fields)
    {
      var h := Header(lower(headers[k].name), headers[k].value);
      ghost var before := out;
      out := PushHeader(out, h);
      assert fields[k..][1..] == fields[k + 1..];
      assert out + WireAll(fields[k + 1..]) == before + (Wire(fields[k]) + WireAll(fields[k + 1..]));
    }
    assert fields[|headers|..] == [] && out + [] == out;
  }

  method PushHeader(out: seq<Byte>, h: Header) returns (out': seq<Byte>)
    ensures out' == out + Wire(Choose(h))
  {
    Patterns();
    hide FindHeader, FindName, StaticEntry, EncodeInt, EncodeString, Pattern, Pow2;
    var matched, nameIndex := SearchStatic(h);
    if matched.Some? {
      out' := EncodeIntLoop(out, 0x80, 7, matched.value);
    } else if nameIndex.Some? {
      out' := EncodeIntLoop(out, 0x00, 4, nameIndex.value);
      out' := PushString(out', h.value);
    } else {
      out' := EncodeIntLoop(out, 0x00, 4, 0);
      out' := PushString(out', h.name);
      out' := PushString(out', h.value);
    }
  }

  function WithHeaders(done: seq<Header>, rest: Result<Block>): Result<Block> {
    match rest
    case Ok(b) => Ok(Block(done + b.headers, b.table))
    case Err(c) => Err(c)
  }

  /** `HpackDecoder`: a dynamic table updated in place while a position walks over the block. */
  class HpackDecoder {
    const dynamicTable: DynamicTable
    const maxDynamicTableSize: nat
    const maxHeaderBlockSize: nat

    constructor (maxTable: nat, maxBlock: nat)
      ensures dynamicTable.Valid() && fresh(dynamicTable) && Value() == Table([], maxTable)
      ensures maxDynamicTableSize == maxTable && maxHeaderBlockSize == maxBlock
    {
      dynamicTable := new DynamicTable(maxTable);
      maxDynamicTableSize, maxHeaderBlockSize := maxTable, maxBlock;
    }

    function Value(): Table
      reads dynamicTable
    {
      Table(dynamicTable.entries, dynamicTable.maxSize)
    }

    method LookupIndex(index: nat) returns (r: Result<Header>)
      ensures r == Lookup(Value(), index)
    {
      if index == 0 {
        return Err(CompressionError);
      }
      if index <= STATIC_SIZE {
        return Ok(StaticEntry(index));
      }
      var h := dynamicTable.Get(index - STATIC_SIZE);
      r := if h.Some? then Ok(h.value) else Err(CompressionError);
    }

    method ReadLiteral(buf: seq<Byte>, prefixBits: nat) returns (r: Result<Read<Header>>)
      ensures r == DecodeLiteral(Value(), buf, prefixBits)
    {
      hide DecodeInt, DecodeString, Lookup;
      var index :- DecodeIntLoop(buf, prefixBits);
      var at := index.length;
      var name: seq<Byte>;
      if index.value == 0 {
        var spelled :- DecodeStringLoop(buf[at..]);
        name, at := spelled.value, at + spelled.length;
      } else {
        var h :- LookupIndex(index.value);
        name := h.name;
      }
      var value :- DecodeStringLoop(buf[at..]);
      return Ok(Read(Header(name, value.value), at + value.length));
    }

    /** One representation: the headers it adds and the bytes it takes. */
    method ReadField(buf: seq<Byte>) returns (r: Result<Read<seq<Header>>>)
      requires buf != [] && dynamicTable.Valid()
      modifies dynamicTable
      ensures dynamicTable.Valid()
      ensures match DecodeField(old(Value()), maxDynamicTableSize, buf)
              case Ok(s) => r == Ok(Read(s.headers, s.length)) && Value() == s.table
              case Err(c) => r == Err(c)
    {
      hide DecodeInt, DecodeLiteral, Lookup, Evict, RfcInsert, Total;
      if buf[0] >= 0x80 {
        var index :- DecodeIntLoop(buf, 7);
        var h :- LookupIndex(index.value);
        return Ok(Read([h], index.length));
      } else if buf[0] >= 0x40 {
        var h :- ReadLiteral(buf, 6);
        InsertRefinesRfc(dynamicTable.entries, h.value, dynamicTable.maxSize);
        dynamicTable.Insert(h.value);
        return Ok(Read([h.value], h.length));
      } else if buf[0] >= 0x20 {
        var newMax :- DecodeIntLoop(buf, 5);
        if newMax.value > maxDynamicTableSize {
          return Err(CompressionError);
        }
        dynamicTable.SetMaxSize(newMax.value);
        return Ok(Read([], newMax.length));
      } else {
        var h :- ReadLiteral(buf, 4);
        return Ok(Read([h.value], h.length));
      }
    }

    method DecodeHeaderBlock(buf: seq<Byte>) returns (r: Result<seq<Header>>)
      requires dynamicTable.Valid()
      modifies dynamicTable
      ensures dynamicTable.Valid()
      ensures match DecodeBlock(old(Value()), maxDynamicTableSize, maxHeaderBlockSize, buf)
              case Ok(b) => r == Ok(b.headers) && Value() == b.table
              case Err(c) => r == Err(c)
    {
      hide DecodeField;
      if |buf| > maxHeaderBlockSize {
        return Err(EnhanceYourCalm);
      }
      var pos, headers := 0, [];
      ghost var whole := DecodeFields(Value(), maxDynamicTableSize, buf);
      assert buf[0..] == buf && (whole.Ok? ==> [] + whole.value.headers == whole.value.headers);
      while pos < |buf|
        invariant 0 <= pos <= |buf| && dynamicTable.Valid()
        invariant DecodeFields(old(Value()), maxDynamicTableSize, buf)
               == WithHeaders(headers, DecodeFields(Value(), maxDynamicTableSize, buf[pos..]))
      {
        var before := headers;
        var field :- ReadField(buf[pos..]);
        assert buf[pos..][field.length..] == buf[pos + field.length..];
        headers, pos := headers + field.value, pos + field.length;
        ghost var rest := DecodeFields(Value(), maxDynamicTableSize, buf[pos..]);
        if rest.Ok? {
          assert before + (field.value + rest.value.headers) == headers + rest.value.headers;
        }
      }
      assert buf[pos..] == [] && headers + [] == headers;
      return Ok(headers);
    }
  }
}
