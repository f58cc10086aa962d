/**
 FastCGI records (src/server/fastcgi.rs): how they are written, and how they come back out of a byte stream.
 */
module FastCgi {
  import opened Base
  import opened Segments

  const FCGI_VERSION: Byte := 1
  const END_REQUEST: Byte := 3
  const STDOUT: Byte := 6
  const MAX_RECORD := 65_535

  datatype Record = Record(kind: Byte, data: seq<Byte>)

  // ---------------------------------------------------------------- records on the wire

  datatype BadRecord = Malformed

  /** `read_record` as a decision about the front of the buffer. */
  function TakeRecord(buf: seq<Byte>): Verdict<Record, BadRecord> {
    if |buf| < 8 then Wait
    else if buf[0] != FCGI_VERSION || buf[2] != 0 || buf[3] != 1 then Fail(Malformed)
    else
      var length := 256 * (buf[4] as int) + buf[5];
      var total := 8 + length + buf[6];
      if |buf| < total then Wait else Item(Record(buf[1], buf[8..8 + length]), buf[total..])
  }

  function Padding(n: nat): nat {
    (8 - n % 8) % 8
  }

  /** `send_record`, for content that fits in a record. */
  function EncodeRecord(kind: Byte, content: seq<Byte>): (wire: seq<Byte>)
    requires |content| <= MAX_RECORD
    ensures |wire| == 8 + |content| + Padding(|content|)
  {
    var pad := Padding(|content|);
    [FCGI_VERSION, kind, 0, 1, |content| / 256, |content| % 256, pad, 0] + content + seq(pad, i => 0)
  }

  /** `send_records`: the data in records of at most 65535 bytes. */
  function SendRecords(kind: Byte, data: seq<Byte>): seq<Byte>
    decreases |data|
  {
    if data == [] then []
    else
      var n := Min(|data|, MAX_RECORD);
      EncodeRecord(kind, data[..n]) + SendRecords(kind, data[n..])
  }

  function RecordsOf(kind: Byte, data: seq<Byte>): seq<Record>
    decreases |data|
  {
    if data == [] then []
    else
      var n := Min(|data|, MAX_RECORD);
      [Record(kind, data[..n])] + RecordsOf(kind, data[n..])
  }

  function Contents(records: seq<Record>): seq<Byte> {
    if records == [] then [] else records[0].data + Contents(records[1..])
  }

  lemma RecordRoundTrip(kind: Byte, content: seq<Byte>, more: seq<Byte>)
    requires |content| <= MAX_RECORD
    ensures TakeRecord(EncodeRecord(kind, content) + more) == Item(Record(kind, content), more)
    ensures |EncodeRecord(kind, content)| % 8 == 0
  {
    var buf := EncodeRecord(kind, content) + more;
    var n := |content|;
    assert n == 256 * (n / 256) + n % 256;
    assert buf[8..8 + n] == content && buf[8 + n + Padding(n)..] == more;
  }

  lemma TakeStable(buf: seq<Byte>, more: seq<Byte>)
    ensures match TakeRecord(buf)
            case Wait => true
            case Item(r, rest) => TakeRecord(buf + more) == Item(r, rest + more) && |rest| < |buf|
            case Fail(e) => TakeRecord(buf + more) == Fail(e)
  {
    if |buf| >= 8 {
      var length := 256 * (buf[4] as int) + buf[5];
      var total := 8 + length + buf[6];
      if total <= |buf| {
        assert (buf + more)[8..8 + length] == buf[8..8 + length] && (buf + more)[total..] == buf[total..] + more;
      }
    }
  }

  const RecordReader: seq<Byte> -> Verdict<Record, BadRecord> := buf => TakeRecord(buf)

  lemma RecordReaderStable()
    ensures Consuming(RecordReader) && Stable(RecordReader)
  {
    hide TakeRecord;
    forall buf ensures RecordReader(buf).Item? ==> |RecordReader(buf).rest| < |buf| {
      TakeStable(buf, []);
    }
    forall buf, more ensures StableAt(RecordReader, buf, more) {
      TakeStable(buf, more);
    }
  }

  /** All records of a byte stream. */
  function Records(buf: seq<Byte>): Delivery<Record, BadRecord> {
    RecordReaderStable();
    Deliver(RecordReader, buf)
  }

  lemma NoRecordYet()
    ensures TakeRecord([]) == Wait
  {
  }

  /** What is sent comes back, in records that carry exactly the data. */
  lemma {:induction false} RecordsRoundTrip(kind: Byte, data: seq<Byte>)
    ensures Records(SendRecords(kind, data)) == Delivery(RecordsOf(kind, data), [], None)
    ensures Contents(RecordsOf(kind, data)) == data
    ensures |SendRecords(kind, data)| % 8 == 0
    decreases |data|
  {
    hide TakeRecord, EncodeRecord, Padding;
    RecordReaderStable();
    if data == [] {
      NoRecordYet();
    } else {
      var n := Min(|data|, MAX_RECORD);
      RecordsRoundTrip(kind, data[n..]);
      RecordRoundTrip(kind, data[..n], SendRecords(kind, data[n..]));
      assert data[..n] + data[n..] == data;
      assert RecordsOf(kind, data)[1..] == RecordsOf(kind, data[n..]);
    }
  }

  /** However the upstream's bytes are cut into reads, the records are the same. */
  lemma RecordSegmentation(pieces: seq<seq<Byte>>)
    ensures Consuming(RecordReader)
    ensures Receive(RecordReader, pieces) == Records(Concat(pieces))
  {
    RecordReaderStable();
    Segmentation(RecordReader, pieces);
  }

  // ---------------------------------------------------------------- what a response amounts to

  /** The bytes of the STDOUT records. */
  function Output(records: seq<Record>): seq<Byte> {
    if records == [] then []
    else
      var last := records[|records| - 1];
      Output(records[..|records| - 1]) + if last.kind == STDOUT then last.data else []
  }

  /** Taking `records` off the front of `got`, one by one, leaves `wire`. */
  predicate Leaves(got: seq<Byte>, records: seq<Record>, wire: seq<Byte>) {
    if records == [] then got == wire
    else
      var v := TakeRecord(got);
      v.Item? && v.value == records[0] && Leaves(v.rest, records[1..], wire)
  }

  lemma {:induction false} LeavesMore(got: seq<Byte>, records: seq<Record>, wire: seq<Byte>, more: seq<Byte>)
    requires Leaves(got, records, wire)
    ensures Leaves(got + more, records, wire + more)
    decreases |records|
  {
    hide TakeRecord;
    if records != [] {
      TakeStable(got, more);
      LeavesMore(TakeRecord(got).rest, records[1..], wire, more);
    }
  }

  lemma {:induction false} LeavesNext(got: seq<Byte>, records: seq<Record>, wire: seq<Byte>)
    requires Leaves(got, records, wire) && TakeRecord(wire).Item?
    ensures Leaves(got, records + [TakeRecord(wire).value], TakeRecord(wire).rest)
    decreases |records|
  {
    hide TakeRecord;
    var next := records + [TakeRecord(wire).value];
    if records == [] {
      assert next[1..] == [];
    } else {
      LeavesNext(TakeRecord(got).rest, records[1..], wire);
      assert next[1..] == records[1..] + [TakeRecord(wire).value];
    }
  }

  /** The records taken so far are the first records of the stream, however it arrived. */
  lemma {:induction false} LeavesPrefix(got: seq<Byte>, records: seq<Record>, wire: seq<Byte>)
    requires Leaves(got, records, wire)
    ensures Records(got).items == records + Records(wire).items && Records(got).left == Records(wire).left
    decreases |records|
  {
    RecordReaderStable();
    hide TakeRecord;
    if records == [] {
      assert [] + Records(wire).items == Records(wire).items;
    } else {
      LeavesPrefix(TakeRecord(got).rest, records[1..], wire);
      assert [records[0]] + (records[1..] + Records(wire).items) == records + Records(wire).items;
    }
  }

  lemma OutputSnoc(records: seq<Record>, r: Record)
    ensures Output(records + [r]) == Output(records) + if r.kind == STDOUT then r.data else []
  {
  }

  lemma {:induction false} OutputPrefix(a: seq<Record>, b: seq<Record>)
    requires a <= b
    ensures Output(a) <= Output(b)
    decreases |b|
  {
    if |a| < |b| {
      OutputPrefix(a, b[..|b| - 1]);
    } else {
      assert a == b;
    }
  }

  /**
   The records taken, and so the body handed out, depend only on the bytes of the stream: they are the first records
   of the whole stream, whatever part of it has arrived and however it was cut.
   */
  lemma DeterminedByStream(got: seq<Byte>, records: seq<Record>, wire: seq<Byte>, more: seq<Byte>)
    requires Leaves(got, records, wire)
    ensures records <= Records(got + more).items
    ensures Output(records) <= Output(Records(got + more).items)
  {
    hide Leaves, Output;
    LeavesMore(got, records, wire, more);
    LeavesPrefix(got + more, records, wire + more);
    OutputPrefix(records, Records(got + more).items);
  }
}
