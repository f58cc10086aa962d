/**
 HPACK integers and strings (src/server/http2/hpack.rs:281-376, sections 5.1 and 5.2 of RFC 7541).
 */
module HpackCodec {
  import opened Base
  import CanonicalCode
  import Huffman
  import Utf8

  /** A decoded item and the number of bytes it took. */
  datatype Read<+T> = Read(value: T, length: nat)

  // ---------------------------------------------------------------- integers

  /** The continuation bytes, `k` of which have been read, adding to `val`. */
  function DecodeTail(buf: seq<Byte>, k: nat, val: nat): (r: Result<Read<nat>>)
    ensures r.Ok? ==> 0 < r.value.length <= |buf|
    decreases |buf|
  {
    if buf == [] || 7 * k >= 63 then Err(CompressionError)
    else
      var next := val + buf[0] % 128 * Pow2(7 * k);
      if next >= U64_LIMIT then Err(CompressionError)
      else if buf[0] < 128 then Ok(Read(next, 1))
      else
        var r :- DecodeTail(buf[1..], k + 1, next);
        Ok(Read(r.value, r.length + 1))
  }

  function DecodeInt(buf: seq<Byte>, prefixBits: nat): (r: Result<Read<nat>>)
    ensures r.Ok? ==> 0 < r.value.length <= |buf|
  {
    if buf == [] then Err(CompressionError)
    else
      var mask := Pow2(prefixBits) - 1;
      var val := buf[0] % (mask + 1);
      if val < mask then Ok(Read(val, 1))
      else
        var r :- DecodeTail(buf[1..], 0, val);
        Ok(Read(r.value, r.length + 1))
  }

  function EncodeTail(rem: nat): (b: seq<Byte>)
    ensures |b| > 0
  {
    if rem < 128 then [rem] else [rem % 128 + 128] + EncodeTail(rem / 128)
  }

  /** The representation bits `pattern` occupy the byte above the prefix. */
  predicate Pattern(pattern: Byte, prefixBits: nat) {
    1 <= prefixBits <= 7 && pattern % Pow2(prefixBits) == 0 && pattern + Pow2(prefixBits) <= 256
  }

  function EncodeInt(pattern: Byte, prefixBits: nat, value: nat): (b: seq<Byte>)
    requires Pattern(pattern, prefixBits)
    ensures |b| > 0
    ensures pattern <= b[0] < pattern + Pow2(prefixBits)
  {
    var maxPrefix := Pow2(prefixBits) - 1;
    if value < maxPrefix then [pattern + value]
    else [pattern + maxPrefix] + EncodeTail(value - maxPrefix)
  }

  /** One continuation byte, at position `pos`. */
  lemma TailOnce(buf: seq<Byte>, pos: nat, k: nat, val: nat)
    requires pos < |buf|
    ensures var next := val + buf[pos] % 128 * Pow2(7 * k);
            DecodeTail(buf[pos..], k, val) ==
            if 7 * k >= 63 || next >= U64_LIMIT then Err(CompressionError)
            else if buf[pos] < 128 then Ok(Read(next, 1))
            else match DecodeTail(buf[pos + 1..], k + 1, next)
                 case Ok(r) => Ok(Read(r.value, r.length + 1))
                 case Err(c) => Err(c)
  {
    hide Pow2;
    assert buf[pos..][1..] == buf[pos + 1..];
  }

  lemma TailEnd(buf: seq<Byte>, k: nat, val: nat)
    ensures DecodeTail(buf[|buf|..], k, val) == Err(CompressionError)
  {
  }

  /** `decode_int` as the source runs it: position, shift and accumulator move together. */
  method DecodeIntLoop(buf: seq<Byte>, prefixBits: nat) returns (r: Result<Read<nat>>)
    ensures r == DecodeInt(buf, prefixBits)
  {
    hide DecodeTail, Pow2;
    if buf == [] {
      return Err(CompressionError);
    }
    var mask := Pow2(prefixBits) - 1;
    var val: nat := buf[0] % (mask + 1);
    if val < mask {
      return Ok(Read(val, 1));
    }
    ghost var whole := DecodeTail(buf[1..], 0, val);
    var k, pos := 0, 1;
    while pos < |buf|
      invariant 1 <= pos <= |buf| && k == pos - 1
      invariant whole == match DecodeTail(buf[pos..], k, val)
                         case Ok(r) => Ok(Read(r.value, r.length + k))
                         case Err(c) => Err(c)
    {
      TailOnce(buf, pos, k, val);
      var b := buf[pos];
      if 7 * k >= 63 {
        return Err(CompressionError);
      }
      var next := val + b % 128 * Pow2(7 * k);
      if next >= U64_LIMIT {
        return Err(CompressionError);
      }
      val, k, pos := next, k + 1, pos + 1;
      if b < 128 {
        return Ok(Read(val, pos));
      }
    }
    TailEnd(buf, k, val);
    return Err(CompressionError);
  }

  lemma EncodeTailStep(rem: nat)
    requires rem >= 128
    ensures EncodeTail(rem) == [rem % 128 + 128] + EncodeTail(rem / 128)
  {
  }

  lemma EncodeTailLast(rem: nat)
    requires rem < 128
    ensures EncodeTail(rem) == [rem]
  {
  }

  /** `encode_int`, pushing to `out`. */
  method EncodeIntLoop(out: seq<Byte>, pattern: Byte, prefixBits: nat, value: nat) returns (out': seq<Byte>)
    requires Pattern(pattern, prefixBits)
    ensures out' == out + EncodeInt(pattern, prefixBits, value)
  {
    hide EncodeTail, Pow2;
    var maxPrefix := Pow2(prefixBits) - 1;
    if value < maxPrefix {
      return out + [pattern + value];
    }
    out' := out + [pattern + maxPrefix];
    var rem := value - maxPrefix;
    while rem >= 128
      invariant rem >= 0
      invariant out' + EncodeTail(rem) == out + [pattern + maxPrefix] + EncodeTail(value - maxPrefix)
    {
      EncodeTailStep(rem);
      out' := out' + [rem % 128 + 128];
      rem := rem / 128;
    }
    EncodeTailLast(rem);
    out' := out' + [rem];
  }

  // ---------------------------------------------------------------- integer round trip

  lemma Pow2Step(k: nat)
    ensures Pow2(7 * (k + 1)) == 128 * Pow2(7 * k)
  {
    assert Pow2(7) == 128;
    CanonicalCode.Pow2Add(7, 7 * k);
  }

  lemma Pow2Of63()
    ensures Pow2(63) == 0x8000_0000_0000_0000
  {
    assert Pow2(7) == 128;
    Pow2Step(1); Pow2Step(2); Pow2Step(3); Pow2Step(4); Pow2Step(5); Pow2Step(6); Pow2Step(7); Pow2Step(8);
  }

  /** Splitting the low seven bits off and weighing the rest 128 times as much changes nothing. */
  lemma Digits(rem: nat, w: nat)
    ensures rem % 128 * w + rem / 128 * (128 * w) == rem * w
  {
  }

  /** One continuation byte of the encoder, read by the decoder. */
  lemma TailStep(rem: nat, k: nat, val: nat, rest: seq<Byte>)
    requires k <= 8 && val + rem % 128 * Pow2(7 * k) < U64_LIMIT
    ensures var next := val + rem % 128 * Pow2(7 * k);
            DecodeTail(EncodeTail(rem) + rest, k, val) ==
            if rem < 128 then Ok(Read(next, 1))
            else match DecodeTail(EncodeTail(rem / 128) + rest, k + 1, next)
                 case Ok(r) => Ok(Read(r.value, r.length + 1))
                 case Err(c) => Err(c)
  {
    hide DecodeTail, EncodeTail, Pow2;
    var buf := EncodeTail(rem) + rest;
    assert buf[0..] == buf;
    TailOnce(buf, 0, k, val);
    if rem >= 128 {
      EncodeTailStep(rem);
      assert buf[0] == rem % 128 + 128;
      assert buf[1..] == EncodeTail(rem / 128) + rest;
    } else {
      EncodeTailLast(rem);
      assert buf[0] == rem;
    }
  }

  lemma TooManyBytes(buf: seq<Byte>, val: nat)
    ensures DecodeTail(buf, 9, val) == Err(CompressionError)
  {
  }

  predicate TailFits(rem: nat, k: nat)
    requires k <= 8
  {
    rem < Pow2(7 * (9 - k))
  }

  /** A shorter rest fits from the next byte on exactly if the whole fits from this one. */
  lemma TailFitsStep(rem: nat, k: nat)
    requires k < 8
    ensures TailFits(rem / 128, k + 1) <==> TailFits(rem, k)
  {
    hide Pow2;
    Pow2Step(8 - k);
  }

  /** Seven bits at position 8 are the last that fit. */
  lemma TailFitsLast(rem: nat)
    ensures TailFits(rem, 8) <==> rem < 128
  {
    assert Pow2(7) == 128;
  }

  lemma {:induction false} TailFitsSmall(rem: nat, k: nat)
    requires k <= 8 && rem < 128
    ensures TailFits(rem, k)
    decreases 8 - k
  {
    TailFitsLast(rem);
    hide Pow2;
    if k < 8 {
      TailFitsSmall(rem / 128, k + 1);
      TailFitsStep(rem, k);
    }
  }

  /** What the low seven bits add now and what the rest adds later. */
  lemma TailValue(rem: nat, k: nat, val: nat)
    ensures val + rem % 128 * Pow2(7 * k) + rem / 128 * Pow2(7 * (k + 1)) == val + rem * Pow2(7 * k)
    ensures rem % 128 * Pow2(7 * k) <= rem * Pow2(7 * k)
  {
    hide Pow2;
    Pow2Step(k);
    Digits(rem, Pow2(7 * k));
    CanonicalCode.MulMonotone(rem % 128, rem, Pow2(7 * k));
  }

  /** Continuation bytes come back exactly when the number has at most nine of them. */
  lemma {:induction false} TailRoundTrip(rem: nat, k: nat, val: nat, rest: seq<Byte>)
    requires k <= 8 && val + rem * Pow2(7 * k) < U64_LIMIT
    ensures DecodeTail(EncodeTail(rem) + rest, k, val)
         == if TailFits(rem, k) then Ok(Read(val + rem * Pow2(7 * k), |EncodeTail(rem)|)) else Err(CompressionError)
    decreases rem
  {
    hide DecodeTail, Pow2, TailFits;
    TailValue(rem, k, val);
    var next := val + rem % 128 * Pow2(7 * k);
    TailStep(rem, k, val, rest);
    if rem < 128 {
      TailFitsSmall(rem, k);
    } else if k == 8 {
      TailFitsLast(rem);
      TooManyBytes(EncodeTail(rem / 128) + rest, next);
    } else {
      TailRoundTrip(rem / 128, k + 1, next, rest);
      TailFitsStep(rem, k);
    }
  }

  /** From the first byte on, nine of them hold 63 bits. */
  lemma TailFitsFirst(rem: nat)
    ensures TailFits(rem, 0) <==> rem < 0x8000_0000_0000_0000
  {
    Pow2Of63();
    hide Pow2;
  }

  lemma TailFromStart(rem: nat, val: nat, rest: seq<Byte>)
    requires val + rem < U64_LIMIT
    ensures DecodeTail(EncodeTail(rem) + rest, 0, val)
         == if rem < 0x8000_0000_0000_0000 then Ok(Read(val + rem, |EncodeTail(rem)|)) else Err(CompressionError)
  {
    assert Pow2(0) == 1;
    hide Pow2, DecodeTail, EncodeTail, TailFits;
    assert rem * Pow2(7 * 0) == rem;
    TailRoundTrip(rem, 0, val, rest);
    TailFitsFirst(rem);
  }

  /** A first byte is read as its low bits; all ones announce more bytes. */
  lemma FirstByteReads(pattern: Byte, prefixBits: nat, low: nat, rest: seq<Byte>)
    requires Pattern(pattern, prefixBits) && low < Pow2(prefixBits)
    ensures DecodeInt([pattern + low] + rest, prefixBits) ==
            if low < Pow2(prefixBits) - 1 then Ok(Read(low, 1))
            else match DecodeTail(rest, 0, low)
                 case Ok(r) => Ok(Read(r.value, r.length + 1))
                 case Err(c) => Err(c)
  {
    hide Pow2, DecodeTail;
    PatternByte(pattern, Pow2(prefixBits), low);
    assert ([pattern + low] + rest)[1..] == rest;
  }

  /** An integer with any bytes after it decodes to itself exactly when it exceeds the prefix by less than 2^63. */
  lemma IntRoundTrip(pattern: Byte, prefixBits: nat, value: nat, rest: seq<Byte>)
    requires Pattern(pattern, prefixBits) && value < U64_LIMIT
    ensures DecodeInt(EncodeInt(pattern, prefixBits, value) + rest, prefixBits)
         == if value - (Pow2(prefixBits) - 1) < 0x8000_0000_0000_0000
            then Ok(Read(value, |EncodeInt(pattern, prefixBits, value)|)) else Err(CompressionError)
  {
    hide DecodeTail, EncodeTail, Pow2, DecodeInt;
    var max := Pow2(prefixBits) - 1;
    if value < max {
      FirstByteReads(pattern, prefixBits, value, rest);
    } else {
      var tail := EncodeTail(value - max);
      assert [pattern + max] + tail + rest == [pattern + max] + (tail + rest);
      FirstByteReads(pattern, prefixBits, max, tail + rest);
      TailFromStart(value - max, max, rest);
    }
  }

  lemma PatternByte(pattern: int, p: int, low: int)
    requires p > 0 && pattern % p == 0 && 0 <= low < p
    ensures (pattern + low) % p == low
  {
    var q := pattern / p;
    assert pattern == p * q;
    assert pattern + low == p * q + low;
    var x := pattern + low;
    assert x == p * (x / p) + x % p;
    CanonicalCode.MulBounds(p, x / p - q);
    assert p * (x / p - q) == low - x % p;
  }

  /** Bytes after a decoded integer play no part. */
  lemma {:induction false} TailPrefix(buf: seq<Byte>, k: nat, val: nat, rest: seq<Byte>)
    requires DecodeTail(buf, k, val).Ok?
    ensures DecodeTail(buf + rest, k, val) == DecodeTail(buf, k, val)
    decreases |buf|
  {
    assert (buf + rest)[1..] == buf[1..] + rest;
    if buf[0] >= 128 {
      TailPrefix(buf[1..], k + 1, val + buf[0] % 128 * Pow2(7 * k), rest);
    }
  }

  lemma IntPrefix(buf: seq<Byte>, prefixBits: nat, rest: seq<Byte>)
    requires DecodeInt(buf, prefixBits).Ok?
    ensures DecodeInt(buf + rest, prefixBits) == DecodeInt(buf, prefixBits)
  {
    var mask := Pow2(prefixBits) - 1;
    assert (buf + rest)[1..] == buf[1..] + rest;
    if buf[0] % (mask + 1) == mask {
      TailPrefix(buf[1..], 0, mask, rest);
    }
  }

  // ---------------------------------------------------------------- strings

  /** A string literal as an encoder may write it. */
  datatype Literal = Literal(text: seq<Byte>, huffman: bool)

  function Payload(s: Literal): seq<Byte> {
    if s.huffman then Huffman.Encode(Huffman.SpecCodes(), s.text) else s.text
  }

  function EncodeString(s: Literal): (b: seq<Byte>)
    ensures |b| > 0
  {
    EncodeInt(StringPattern(s), 7, |Payload(s)|) + Payload(s)
  }

  function DecodeString(buf: seq<Byte>): (r: Result<Read<seq<Byte>>>)
    ensures r.Ok? ==> 0 < r.value.length <= |buf|
  {
    if buf == [] then Err(CompressionError)
    else
      var len :- DecodeInt(buf, 7);
      var total := len.length + len.value;
      if |buf| < total then Err(CompressionError)
      else
        var text :- DecodePayload(buf[len.length..total], buf[0] >= 0x80);
        Ok(Read(text, total))
  }

  function DecodePayload(bytes: seq<Byte>, huffman: bool): Result<seq<Byte>> {
    if huffman then Huffman.Decode(Huffman.SpecCodes(), bytes)
    else if Utf8.Valid(bytes) then Ok(bytes) else Err(CompressionError)
  }

  /** `decode_string`, its integer and Huffman parts run as loops. */
  method DecodeStringLoop(buf: seq<Byte>) returns (r: Result<Read<seq<Byte>>>)
    ensures r == DecodeString(buf)
  {
    if buf == [] {
      return Err(CompressionError);
    }
    var len :- DecodeIntLoop(buf, 7);
    var total := len.length + len.value;
    if |buf| < total {
      return Err(CompressionError);
    }
    var bytes := buf[len.length..total];
    if buf[0] >= 0x80 {
      var text :- Huffman.DecodeHuffman(bytes);
      return Ok(Read(text, total));
    }
    if !Utf8.Valid(bytes) {
      return Err(CompressionError);
    }
    return Ok(Read(bytes, total));
  }

  /** A payload no Rust vector could exceed. */
  predicate Sized(s: Literal) {
    |Payload(s)| < 0x8000_0000_0000_0000
  }

  lemma PayloadRoundTrip(s: Literal)
    requires Utf8.Valid(s.text)
    ensures DecodePayload(Payload(s), s.huffman) == Ok(s.text)
  {
    Huffman.DecodeIsInverse(Huffman.SpecCodes(), Payload(s), s.text);
  }

  /** A length prefix followed by that many bytes. */
  lemma DecodePrefixed(prefix: seq<Byte>, payload: seq<Byte>, rest: seq<Byte>)
    requires |prefix| > 0 && DecodeInt(prefix + (payload + rest), 7) == Ok(Read(|payload|, |prefix|))
    ensures DecodeString(prefix + payload + rest)
         == match DecodePayload(payload, prefix[0] >= 0x80)
            case Ok(text) => Ok(Read(text, |prefix| + |payload|))
            case Err(c) => Err(c)
  {
    hide DecodePayload, DecodeInt;
    var buf := prefix + payload + rest;
    assert buf == prefix + (payload + rest);
    assert buf[|prefix|..|prefix| + |payload|] == payload;
  }

  /** The two patterns of a string's length. */
  function StringPattern(s: Literal): (pattern: Byte)
    ensures Pattern(pattern, 7) && (pattern == 0x80 <==> s.huffman)
  {
    assert Pow2(7) == 128;
    if s.huffman then 0x80 else 0x00
  }

  /** The length of a string is read back, and its first byte says whether it is Huffman-coded. */
  lemma LengthRoundTrip(s: Literal, rest: seq<Byte>)
    requires Sized(s)
    ensures var prefix := EncodeInt(StringPattern(s), 7, |Payload(s)|);
            && DecodeInt(prefix + rest, 7) == Ok(Read(|Payload(s)|, |prefix|))
            && (prefix[0] >= 0x80 <==> s.huffman)
  {
    assert Pow2(7) == 128;
    hide DecodeInt, Payload;
    IntRoundTrip(StringPattern(s), 7, |Payload(s)|, rest);
  }

  /** Raw or Huffman-coded, a string comes back, whatever follows it. */
  lemma StringRoundTrip(s: Literal, rest: seq<Byte>)
    requires Utf8.Valid(s.text) && Sized(s)
    ensures DecodeString(EncodeString(s) + rest) == Ok(Read(s.text, |EncodeString(s)|))
  {
    hide DecodeString, DecodePayload, Payload, DecodeInt, EncodeInt, Sized, Utf8.Valid;
    LengthRoundTrip(s, Payload(s) + rest);
    DecodePrefixed(EncodeInt(StringPattern(s), 7, |Payload(s)|), Payload(s), rest);
    PayloadRoundTrip(s);
  }

  lemma StringPrefix(buf: seq<Byte>, rest: seq<Byte>)
    requires DecodeString(buf).Ok?
    ensures DecodeString(buf + rest) == DecodeString(buf)
  {
    hide Huffman.SpecCodes, Huffman.Decode, Utf8.Valid, DecodeInt, DecodePayload;
    IntPrefix(buf, 7, rest);
    var len := DecodeInt(buf, 7).value;
    var total := len.length + len.value;
    assert (buf + rest)[len.length..total] == buf[len.length..total];
  }
}
