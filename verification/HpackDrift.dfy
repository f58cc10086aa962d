/**
 Compression tables out of step: exactly when a decoder whose table is not the encoder's can still be relied on.
 A connection gets there by refusing a stream, whose header block it does not decode.
 */
module HpackDrift {
  import opened Base
  import opened HpackTable
  import opened HpackCodec
  import opened Hpack
  import Utf8

  /** A table keeps within its size. */
  predicate Fits(u: Table) {
    Total(u.entries) <= u.maxSize
  }

  /** Whatever the encoder may refer to, now or later, the decoder has: its newest entries are the encoder's. */
  predicate InStep(decoder: Table, encoder: Table) {
    encoder.entries <= decoder.entries && (encoder.maxSize <= decoder.maxSize || encoder.maxSize < ENTRY_OVERHEAD)
  }

  /** Blocks that are each within the size limit. */
  ghost predicate Within(blocks: seq<seq<Field>>, maxBlock: nat) {
    forall i :: 0 <= i < |blocks| ==> |WireAll(blocks[i])| <= maxBlock
  }

  /** The decoder reads legal blocks of the encoder, one after the other, as the encoder meant them. */
  ghost predicate ReadsAsMeant(decoder: Table, encoder: Table, limit: nat, maxBlock: nat, blocks: seq<seq<Field>>)
    requires MeaningOfBlocks(encoder, limit, blocks).Some?
  {
    var r := DecodeBlocks(decoder, limit, maxBlock, WireBlocks(blocks));
    r.Ok? && r.value.0 == MeaningOfBlocks(encoder, limit, blocks).value.0
  }

  /** It does so for all that the encoder may send in blocks of the size allowed. */
  ghost predicate AlwaysReads(decoder: Table, encoder: Table, limit: nat, maxBlock: nat) {
    forall blocks :: Within(blocks, maxBlock) && MeaningOfBlocks(encoder, limit, blocks).Some? ==>
      ReadsAsMeant(decoder, encoder, limit, maxBlock, blocks)
  }

  /** Blocks that the decoder does not read as meant. */
  ghost predicate Tells(t: Table, u: Table, limit: nat, maxBlock: nat, blocks: seq<seq<Field>>) {
    && Within(blocks, maxBlock) && MeaningOfBlocks(u, limit, blocks).Some?
    && !ReadsAsMeant(t, u, limit, maxBlock, blocks)
  }

  // ---------------------------------------------------------------- in step stays in step

  /** A longer list with more room keeps at least as much. */
  lemma EvictGrows(a: seq<Header>, b: seq<Header>, m: nat, n: nat)
    requires a <= b && m <= n
    ensures Evict(a, m) <= Evict(b, n)
  {
    var kept := Evict(a, m);
    assert a[..|kept|] == kept && b[..|kept|] == kept;
    EvictKeepsLongest(b, n, |kept|);
  }

  lemma InsertInStep(t: Table, u: Table, h: Header)
    requires InStep(t, u)
    ensures RfcInsert(u.entries, h, u.maxSize) <= RfcInsert(t.entries, h, t.maxSize)
  {
    if EntrySize(h) <= u.maxSize {
      EvictGrows(u.entries, t.entries, u.maxSize - EntrySize(h), t.maxSize - EntrySize(h));
    }
  }

  lemma LookupInStep(t: Table, u: Table, index: nat)
    requires InStep(t, u) && Lookup(u, index).Ok?
    ensures Lookup(t, index) == Lookup(u, index)
  {
    hide StaticEntry;
  }

  lemma MeaningInStep(t: Table, u: Table, limit: nat, f: Field)
    requires InStep(t, u) && Meaning(u, limit, f).Some?
    ensures Meaning(t, limit, f).Some? && Meaning(t, limit, f).value.headers == Meaning(u, limit, f).value.headers
    ensures InStep(Meaning(t, limit, f).value.table, Meaning(u, limit, f).value.table)
  {
    hide Lookup, Legal, Evict;
    match f
    case Indexed(index) => LookupInStep(t, u, index);
    case Indexing(name, value) =>
      NameInStep(t, u, name);
      InsertInStep(t, u, Meaning(u, limit, f).value.headers[0]);
    case Plain(name, value, _) => NameInStep(t, u, name);
    case Resize(size) => EvictGrows(u.entries, t.entries, size, size);
  }

  lemma NameInStep(t: Table, u: Table, name: Name)
    requires InStep(t, u) && MeaningOfName(u, name).Some?
    ensures MeaningOfName(t, name) == MeaningOfName(u, name)
  {
    hide Lookup, Legal;
    if name.Reference? {
      LookupInStep(t, u, name.index);
    }
  }

  /** A decoder in step reads every legal block as it was meant, and is in step afterwards. */
  lemma {:induction false} InStepReads(t: Table, u: Table, limit: nat, fields: seq<Field>)
    requires InStep(t, u) && MeaningAll(u, limit, fields).Some?
    ensures MeaningAll(t, limit, fields).Some?
    ensures var m, n := MeaningAll(t, limit, fields).value, MeaningAll(u, limit, fields).value;
            m.headers == n.headers && InStep(m.table, n.table)
    decreases |fields|
  {
    hide Meaning, InStep;
    if fields != [] {
      MeaningInStep(t, u, limit, fields[0]);
      InStepReads(Meaning(t, limit, fields[0]).value.table, Meaning(u, limit, fields[0]).value.table, limit,
          fields[1..]);
    }
  }

  /** The same for any number of blocks. */
  lemma {:induction false} BlocksInStep(t: Table, u: Table, limit: nat, maxBlock: nat, blocks: seq<seq<Field>>)
    requires InStep(t, u) && Within(blocks, maxBlock) && MeaningOfBlocks(u, limit, blocks).Some?
    ensures ReadsAsMeant(t, u, limit, maxBlock, blocks)
    decreases |blocks|
  {
    hide MeaningAll, WireAll, DecodeFields, InStep;
    if blocks != [] {
      var b, later := blocks[0], blocks[1..];
      InStepReads(t, u, limit, b);
      BlockRoundTrip(t, limit, b);
      assert Within(later, maxBlock);
      BlocksInStep(MeaningAll(t, limit, b).value.table, MeaningAll(u, limit, b).value.table, limit, maxBlock, later);
      assert WireBlocks(blocks)[1..] == WireBlocks(later);
    }
  }

  // ---------------------------------------------------------------- out of step shows

  /** Blocks that tell after a block still tell with that block before them. */
  lemma TellsLater(t: Table, u: Table, limit: nat, maxBlock: nat, b: seq<Field>, later: seq<seq<Field>>)
    requires MeaningAll(t, limit, b).Some? && MeaningAll(u, limit, b).Some? && |WireAll(b)| <= maxBlock
    requires Tells(MeaningAll(t, limit, b).value.table, MeaningAll(u, limit, b).value.table, limit, maxBlock, later)
    ensures Tells(t, u, limit, maxBlock, [b] + later)
  {
    hide MeaningAll, WireAll, DecodeFields;
    var blocks := [b] + later;
    var m, n := MeaningAll(t, limit, b).value, MeaningAll(u, limit, b).value;
    BlockRoundTrip(t, limit, b);
    assert blocks[0] == b && blocks[1..] == later;
    assert WireBlocks(blocks)[0] == WireAll(b) && WireBlocks(blocks)[1..] == WireBlocks(later);
    var r := DecodeBlocks(m.table, limit, maxBlock, WireBlocks(later));
    var meant := MeaningOfBlocks(n.table, limit, later).value.0;
    if r.Ok? {
      assert ([m.headers] + r.value.0)[1..] == r.value.0 && ([n.headers] + meant)[1..] == meant;
    }
  }

  /** A single block that is not read as meant. */
  lemma BlockTells(t: Table, u: Table, limit: nat, maxBlock: nat, b: seq<Field>)
    requires MeaningAll(u, limit, b).Some? && |WireAll(b)| <= maxBlock
    requires var r := DecodeFields(t, limit, WireAll(b));
             r.Ok? ==> r.value.headers != MeaningAll(u, limit, b).value.headers
    ensures Tells(t, u, limit, maxBlock, [b])
  {
    hide MeaningAll, WireAll, DecodeFields;
    var wire := WireBlocks([b]);
    assert [b][1..] == [] && wire[0] == WireAll(b) && wire[1..] == [];
    var m, r := MeaningAll(u, limit, b).value, DecodeFields(t, limit, WireAll(b));
    assert MeaningOfBlocks(m.table, limit, [b][1..]) == Some(([], m.table));
    assert MeaningOfBlocks(u, limit, [b]).value.0 == [m.headers];
    if r.Ok? {
      assert DecodeBlocks(r.value.table, limit, maxBlock, wire[1..]) == Ok(([], r.value.table));
      assert DecodeBlocks(t, limit, maxBlock, wire).value.0 == [r.value.headers];
    }
  }

  /** A reference that the decoder cannot resolve, or resolves to something else. */
  lemma ReferenceTells(t: Table, u: Table, limit: nat, index: nat)
    requires index < 0x8000_0000_0000_0000 && Lookup(u, index).Ok? && Lookup(t, index) != Lookup(u, index)
    ensures MeaningAll(u, limit, [Indexed(index)]).Some?
    ensures var r := DecodeFields(t, limit, WireAll([Indexed(index)]));
            && (r.Ok? ==> r.value.headers != MeaningAll(u, limit, [Indexed(index)]).value.headers)
            && (Lookup(t, index).Err? ==> r == Err(Lookup(t, index).code))
  {
    var f := Indexed(index);
    var wire := Wire(f);
    OneField(u, limit, f);
    assert WireAll([f]) == wire + [] == wire by { assert [f][1..] == []; }
    Patterns();
    IntRoundTrip(0x80, 7, index, []);
    assert wire + [] == wire && wire[0] >= 0x80 by { FirstByte(index); }
    hide DecodeInt, EncodeInt, Lookup, WireAll, MeaningAll;
    var r := DecodeField(t, limit, wire);
    assert r == if Lookup(t, index).Ok? then Ok(Step([Lookup(t, index).value], t, |wire|))
           else Err(Lookup(t, index).code);
    if r.Ok? {
      assert wire[|wire|..] == [] && r.value.headers + [] == r.value.headers;
    }
  }

  lemma FirstByte(index: nat)
    requires index < 0x8000_0000_0000_0000
    ensures EncodeInt(0x80, 7, index) != [] && EncodeInt(0x80, 7, index)[0] >= 0x80
  {
    Patterns();
  }

  lemma OneField(u: Table, limit: nat, f: Field)
    requires Meaning(u, limit, f).Some?
    ensures MeaningAll(u, limit, [f]) == Some(Meaning(u, limit, f).value)
  {
    var m := Meaning(u, limit, f).value;
    assert [f][1..] == [] && m.headers + [] == m.headers;
  }

  lemma {:induction false} EntriesCount(entries: seq<Header>)
    ensures |entries| <= Total(entries)
  {
    if entries != [] {
      EntriesCount(entries[1..]);
    }
  }

  /** An integer below 128^k is written in at most k bytes. */
  lemma {:induction false} TailLength(rem: nat, k: nat)
    requires k > 0 && rem < Pow2(7 * k)
    ensures |EncodeTail(rem)| <= k
    decreases rem
  {
    if rem >= 128 {
      assert Pow2(7) == 128;
      hide Pow2;
      assert k > 1;
      Pow2Step(k - 1);
      TailLength(rem / 128, k - 1);
    }
  }

  lemma ReferenceLength(index: nat)
    requires index < 0x8000_0000_0000_0000
    ensures |WireAll([Indexed(index)])| <= 10
  {
    Patterns();
    Pow2Of63();
    hide Pow2;
    assert [Indexed(index)][1..] == [];
    if index >= 127 {
      TailLength(index - 127, 9);
    }
  }

  /** An entry the decoder lacks, or has differently, is told by a reference to it. */
  lemma MissingEntryTells(t: Table, u: Table, limit: nat, maxBlock: nat) returns (blocks: seq<seq<Field>>)
    requires !(u.entries <= t.entries) && Fits(u) && u.maxSize < 0x4000_0000_0000_0000 && maxBlock >= 10
    ensures Tells(t, u, limit, maxBlock, blocks)
  {
    EntriesCount(u.entries);
    var i :| 0 <= i < |u.entries| && (i >= |t.entries| || t.entries[i] != u.entries[i]);
    var index := STATIC_SIZE + 1 + i;
    assert Lookup(u, index) == Ok(u.entries[i]) && Lookup(t, index) != Lookup(u, index);
    hide Tells, MeaningAll, Lookup, WireAll, DecodeFields;
    ReferenceTells(t, u, limit, index);
    ReferenceLength(index);
    blocks := [[Indexed(index)]];
    BlockTells(t, u, limit, maxBlock, [Indexed(index)]);
  }

  /** The letter a, n times. */
  function Letters(n: nat): (text: seq<Byte>)
    ensures |text| == n && forall i :: 0 <= i < n ==> text[i] == 97
  {
    seq(n, i => 97)
  }

  lemma {:induction false} LettersValid(n: nat)
    ensures Utf8.Valid(Letters(n))
  {
    if n > 0 {
      LettersValid(n - 1);
      assert Letters(n)[1..] == Letters(n - 1);
    }
  }

  /** A new entry with no name and the given number of letters as its value. */
  function Filler(n: nat): Field {
    Indexing(Spelled(Literal([], false)), Literal(Letters(n), false))
  }

  lemma FillerMeans(t: Table, limit: nat, n: nat)
    requires n < 0x4000_0000_0000_0000
    ensures var h := Header([], Letters(n));
            Meaning(t, limit, Filler(n)) == Some(Block([h], t.(entries := RfcInsert(t.entries, h, t.maxSize))))
  {
    LettersValid(n);
    hide RfcInsert, Letters;
    assert Legal(Literal([], false));
    assert Legal(Literal(Letters(n), false));
  }

  lemma FillerLength(n: nat)
    requires n < 32
    ensures |WireAll([Filler(n)])| == 3 + n
  {
    Patterns();
    var empty, text := Literal([], false), Literal(Letters(n), false);
    assert |EncodeString(empty)| == 1 && |EncodeString(text)| == 1 + n;
    assert [Filler(n)][1..] == [];
  }

  /** The newest `k` entries of a table filled with them, the oldest holding `r` letters and the others none. */
  function Fillers(r: nat, k: nat): (entries: seq<Header>)
    ensures |entries| == k
  {
    if k == 0 then [] else [Header([], Letters(if k == 1 then r else 0))] + Fillers(r, k - 1)
  }

  lemma {:induction false} FillersTotal(r: nat, k: nat)
    requires k > 0
    ensures Total(Fillers(r, k)) == ENTRY_OVERHEAD * k + r
  {
    assert Fillers(r, k)[1..] == Fillers(r, k - 1);
    if k == 1 {
      assert Total(Fillers(r, 0)) == 0;
    } else {
      FillersTotal(r, k - 1);
    }
  }

  /** One more filler goes in front of the others. */
  lemma FillersStep(r: nat, k: nat)
    ensures Fillers(r, k + 1) == [Header([], Letters(if k == 0 then r else 0))] + Fillers(r, k)
  {
  }

  /** The decoder holds at most the fillers and what it had before. */
  lemma DecoderFills(t: Table, r: nat, k: nat, before: seq<Header>)
    requires t.entries <= Fillers(r, k) + before
    ensures RfcInsert(t.entries, Header([], Letters(if k == 0 then r else 0)), t.maxSize) <= Fillers(r, k + 1) + before
  {
    hide Fillers, Letters, Evict;
    var h := Header([], Letters(if k == 0 then r else 0));
    FillersStep(r, k);
    assert Fillers(r, k + 1) + before == [h] + (Fillers(r, k) + before);
  }

  /** The encoder holds all fillers while they fit. */
  lemma EncoderFills(u: Table, r: nat, k: nat)
    requires Fillers(r, k) <= u.entries && ENTRY_OVERHEAD * (k + 1) + r <= u.maxSize
    ensures Fillers(r, k + 1) <= RfcInsert(u.entries, Header([], Letters(if k == 0 then r else 0)), u.maxSize)
  {
    hide Fillers, Letters, Evict;
    var h := Header([], Letters(if k == 0 then r else 0));
    FillersTotal(r, k + 1);
    FillersStep(r, k);
    assert Fillers(r, k + 1)[0] == h && Fillers(r, k + 1)[1..] == Fillers(r, k);
    assert u.entries[..k] == Fillers(r, k);
    EvictKeepsLongest(u.entries, u.maxSize - EntrySize(h), k);
    var kept := Evict(u.entries, u.maxSize - EntrySize(h));
    assert kept[..k] == Fillers(r, k);
    assert Fillers(r, k + 1) == ([h] + kept)[..k + 1];
  }

  /** Fillers until the decoder cannot hold them all, and then a reference to the oldest. */
  lemma {:induction false} FillTells(t: Table, u: Table, limit: nat, maxBlock: nat, r: nat, k: nat, q: nat,
      before: seq<Header>)
    returns (blocks: seq<seq<Field>>)
    requires r < 32 && 0 < q && k <= q && maxBlock >= SMALL_BLOCK
    requires t.entries <= Fillers(r, k) + before && Fillers(r, k) <= u.entries && (k > 0 ==> Fits(t))
    requires t.maxSize < ENTRY_OVERHEAD * q + r <= u.maxSize < 0x4000_0000_0000_0000
    ensures Tells(t, u, limit, maxBlock, blocks)
    decreases q - k
  {
    hide Tells, WireAll, DecodeFields, Meaning, Lookup, RfcInsert, Letters, Filler, Evict;
    if k == q {
      Overfull(t, u, r, q, before);
      ReferenceTells(t, u, limit, STATIC_SIZE + q);
      ReferenceLength(STATIC_SIZE + q);
      blocks := [[Indexed(STATIC_SIZE + q)]];
      BlockTells(t, u, limit, maxBlock, [Indexed(STATIC_SIZE + q)]);
    } else {
      var n := if k == 0 then r else 0;
      var h := Header([], Letters(n));
      DecoderFills(t, r, k, before);
      EncoderFills(u, r, k);
      FillerMeans(t, limit, n);
      FillerMeans(u, limit, n);
      OneField(t, limit, Filler(n));
      OneField(u, limit, Filler(n));
      InsertFits(t, h);
      var t' := t.(entries := RfcInsert(t.entries, h, t.maxSize));
      var u' := u.(entries := RfcInsert(u.entries, h, u.maxSize));
      blocks := FillTells(t', u', limit, maxBlock, r, k + 1, q, before);
      FillerLength(n);
      TellsLater(t, u, limit, maxBlock, [Filler(n)], blocks);
      blocks := [[Filler(n)]] + blocks;
    }
  }

  lemma InsertFits(t: Table, h: Header)
    ensures Fits(t.(entries := RfcInsert(t.entries, h, t.maxSize)))
  {
    if EntrySize(h) <= t.maxSize {
      var kept := Evict(t.entries, t.maxSize - EntrySize(h));
      assert ([h] + kept)[1..] == kept;
    }
  }

  /** All fillers are in the encoder's table, and the oldest of them is not in the decoder's. */
  lemma Overfull(t: Table, u: Table, r: nat, q: nat, before: seq<Header>)
    requires 0 < q && t.entries <= Fillers(r, q) + before && Fillers(r, q) <= u.entries && Fits(t)
    requires t.maxSize < ENTRY_OVERHEAD * q + r <= u.maxSize < 0x4000_0000_0000_0000
    ensures Lookup(u, STATIC_SIZE + q).Ok? && Lookup(t, STATIC_SIZE + q) != Lookup(u, STATIC_SIZE + q)
    ensures STATIC_SIZE + q < 0x8000_0000_0000_0000
  {
    FillersTotal(r, q);
    if |t.entries| >= q {
      assert t.entries[..q] == (Fillers(r, q) + before)[..q] == Fillers(r, q);
      TotalPrefix(t.entries, q);
    }
  }

  /** Blocks of this size can hold any filler needed, and any reference. */
  const SMALL_BLOCK := 34

  /** Room that only the encoder has is told by filling it. */
  lemma MissingRoomTells(t: Table, u: Table, limit: nat, maxBlock: nat) returns (blocks: seq<seq<Field>>)
    requires u.maxSize > t.maxSize && u.maxSize >= ENTRY_OVERHEAD && u.maxSize < 0x4000_0000_0000_0000
    requires maxBlock >= SMALL_BLOCK
    ensures Tells(t, u, limit, maxBlock, blocks)
  {
    hide Tells;
    var total := Max(t.maxSize + 1, ENTRY_OVERHEAD);
    var q, r := total / ENTRY_OVERHEAD, total % ENTRY_OVERHEAD;
    assert total == ENTRY_OVERHEAD * q + r && q > 0;
    assert Fillers(r, 0) + t.entries == t.entries;
    blocks := FillTells(t, u, limit, maxBlock, r, 0, q, t.entries);
  }

  /** A decoder in step reads everything as it is meant, whatever the size limit. */
  lemma InStepAlwaysReads(decoder: Table, encoder: Table, limit: nat, maxBlock: nat)
    requires InStep(decoder, encoder)
    ensures AlwaysReads(decoder, encoder, limit, maxBlock)
  {
    hide ReadsAsMeant, MeaningOfBlocks, Within, InStep;
    forall blocks | Within(blocks, maxBlock) && MeaningOfBlocks(encoder, limit, blocks).Some?
      ensures ReadsAsMeant(decoder, encoder, limit, maxBlock, blocks)
    {
      BlocksInStep(decoder, encoder, limit, maxBlock, blocks);
    }
  }

  /**
   A decoder reads all legal blocks of an encoder as they were meant exactly if its newest entries are the encoder's
   and its table is no smaller than the encoder's, should the encoder's hold anything at all.
   */
  lemma ReadsExactlyInStep(decoder: Table, encoder: Table, limit: nat, maxBlock: nat)
    requires Fits(encoder) && encoder.maxSize < 0x4000_0000_0000_0000 && maxBlock >= SMALL_BLOCK
    ensures AlwaysReads(decoder, encoder, limit, maxBlock) <==> InStep(decoder, encoder)
  {
    hide ReadsAsMeant, MeaningOfBlocks, Fits, Within;
    if InStep(decoder, encoder) {
      InStepAlwaysReads(decoder, encoder, limit, maxBlock);
    } else if !(encoder.entries <= decoder.entries) {
      var blocks := MissingEntryTells(decoder, encoder, limit, maxBlock);
    } else {
      var blocks := MissingRoomTells(decoder, encoder, limit, maxBlock);
    }
  }
}
