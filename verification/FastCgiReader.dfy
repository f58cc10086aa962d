/**
 The resumable FastCGI reader that turns an upstream's records into a response (src/server/fastcgi.rs), with the
 header collector in front of it. Each method is proved equal to its function in FastCgiBody, and keeps a ledger of
 everything received, taken and handed out.
 */
module FastCgiReader {
  import opened Base
  import opened Sources
  import opened Segments
  import opened FastCgi
  import opened FastCgiBody
  import Http1

  /**
   `FastCgiH2Reader` with the header collector in front of it. The ghost fields are the ledger: every byte received
   from the upstream, every record taken, where the response headers ended, and every body byte handed out.
   */
  class UpstreamReader {
    var upstream: seq<ReadEvent>
    var wire: seq<Byte>
    var ready: seq<Byte>
    var offset: nat
    var done: bool
    var contentLength: Option<nat>
    var bodyBytes: nat
    var headerBytes: seq<Byte>
    ghost var received: seq<Byte>
    ghost var records: seq<Record>
    ghost var headEnd: Option<nat>
    ghost var returned: seq<Byte>

    ghost function Value(): State
      reads this
    {
      State(upstream, wire, ready, offset, done, contentLength, bodyBytes, headerBytes)
    }

    /** The records taken are the first of the stream. */
    ghost predicate Synced()
      reads this
    {
      Leaves(received, records, wire)
    }

    /** Everything the upstream has sent and will send. */
    ghost function Stream(): seq<Byte>
      reads this
    {
      received + Supplied(upstream)
    }

    /** Before the headers are complete: all output so far is header bytes. */
    ghost predicate Collecting()
      reads this
    {
      && Synced() && headEnd.None? && !done
      && headerBytes == Output(records) && Http1.FindEnd(headerBytes).None?
      && ready == [] && offset == 0 && returned == [] && bodyBytes == 0
    }

    /** The headers of `output` end where its first blank line ends. */
    ghost predicate HeadFound(output: seq<Byte>)
      reads this
    {
      headEnd.Some? && 4 <= headEnd.value <= |output| && Http1.FindEnd(output) == Some(headEnd.value - 4)
    }

    /** What was handed out and what is ready make up the output after the headers, within the declared length. */
    ghost predicate Accounted(output: seq<Byte>)
      reads this
    {
      && HeadFound(output)
      && offset <= |ready| && (offset == |ready| ==> ready == [])
      && returned + ready[offset..] == output[headEnd.value..]
      && bodyBytes == |output| - headEnd.value
      && (contentLength.Some? ==> bodyBytes <= contentLength.value)
    }

    /** The body is complete only after END_REQUEST, and then its length is the declared one. */
    ghost predicate Ended()
      reads this
    {
      done ==>
        && records != [] && records[|records| - 1].kind == END_REQUEST
        && (contentLength.Some? ==> bodyBytes == contentLength.value)
    }

    ghost predicate Streaming()
      reads this
    {
      Synced() && Accounted(Output(records)) && Ended()
    }

    constructor (upstream: seq<ReadEvent>)
      ensures Collecting() && Value() == Fresh(upstream)
    {
      this.upstream := upstream;
      wire, ready, offset, done, contentLength, bodyBytes, headerBytes := [], [], 0, false, None, 0, [];
      received, records, headEnd, returned := [], [], None, [];
    }

    /** The next record, reading as much as that takes; a would-block leaves everything to be resumed. */
    method ReadRecord() returns (r: RecordResult)
      requires Synced()
      modifies this`upstream, this`wire, this`received, this`records
      ensures Pulled(r, upstream, wire) == NextRecord(old(upstream), old(wire))
      ensures Synced() && Stream() == old(Stream())
      ensures records == old(records) + if r.Next? then [r.record] else []
      ensures Weight(upstream) + |wire| <= old(Weight(upstream) + |wire|) - if r.Next? then 1 else 0
    {
      hide Leaves, Weight, Supplied, ReadSource, TakeRecord;
      while true
        invariant NextRecord(upstream, wire) == NextRecord(old(upstream), old(wire))
        invariant Synced() && records == old(records) && Stream() == old(Stream())
        invariant Weight(upstream) + |wire| <= old(Weight(upstream) + |wire|)
        decreases Weight(upstream)
      {
        var v := TakeRecord(wire);
        TakeStable(wire, []);
        ReadConserves(upstream, CHUNK);
        WeightDrops(upstream, CHUNK);
        match v
        case Fail(_) => return Bad;
        case Item(record, rest) =>
          LeavesNext(received, records, wire);
          wire, records := rest, records + [record];
          return Next(record);
        case Wait =>
          match ReadSource(upstream, CHUNK)
          case WouldBlock(rest) =>
            upstream := rest;
            return NoRecord;
          case Failed => return Bad;
          case Got(bytes, rest) =>
            assert received + (bytes + Supplied(rest)) == received + bytes + Supplied(rest);
            upstream := rest;
            if bytes == [] {
              assert received + bytes == received;
              return Closed;
            }
            LeavesMore(received, records, wire, bytes);
            wire, received := wire + bytes, received + bytes;
      }
    }

    /** More output moves neither the end of the headers nor what was handed out. */
    ghost method NoteOutput(output: seq<Byte>, data: seq<Byte>)
      requires HeadFound(output)
      ensures HeadFound(output + data) && (output + data)[headEnd.value..] == output[headEnd.value..] + data
    {
      Http1.FindEndStable(output, data);
    }

    /** `consume_record`, the record just taken being the last in the ledger. */
    method ConsumeRecord(record: Record) returns (ok: bool)
      requires Synced() && !done && records != [] && record == records[|records| - 1]
      requires Accounted(Output(records[..|records| - 1]))
      modifies this`ready, this`bodyBytes, this`done
      ensures ok == Admissible(old(bodyBytes), contentLength, record)
      ensures ok ==> Streaming() && Value() == Consume(old(Value()), record)
      ensures record.kind != END_REQUEST ==> !done
    {
      hide Leaves, Output, Http1.FindEnd;
      ghost var before := records[..|records| - 1];
      assert records == before + [record];
      OutputSnoc(before, record);
      if record.kind == STDOUT {
        var next := bodyBytes + |record.data|;
        if contentLength.Some? && next > contentLength.value {
          return false;
        }
        NoteOutput(Output(before), record.data);
        assert (ready + record.data)[offset..] == ready[offset..] + record.data;
        assert returned + (ready[offset..] + record.data) == returned + ready[offset..] + record.data;
        bodyBytes := next;
        ready := ready + record.data;
      } else {
        assert Output(before) + [] == Output(before);
        if record.kind == END_REQUEST {
          if |record.data| != 8 {
            return false;
          }
          if contentLength.Some? && bodyBytes != contentLength.value {
            return false;
          }
          done := true;
        }
      }
      return true;
    }

    /** Hand out what is ready. */
    method TakeReady(want: nat) returns (data: seq<Byte>)
      requires Streaming() && offset < |ready|
      modifies this`ready, this`offset, this`returned
      ensures (Bytes(data), Value()) == HandOut(old(Value()), want)
      ensures Streaming() && returned == old(returned) + data && |data| <= want && (want > 0 ==> data != [])
    {
      hide Leaves, Output, Http1.FindEnd;
      var amount := Min(want, |ready| - offset);
      data := ready[offset..offset + amount];
      assert ready[offset..] == data + ready[offset + amount..];
      assert returned + (data + ready[offset + amount..]) == returned + data + ready[offset + amount..];
      offset, returned := offset + amount, returned + data;
      if offset == |ready| {
        ready, offset := [], 0;
      }
    }

    /** With nothing ready, everything after the headers has been handed out. */
    ghost method AllHandedOut()
      requires Streaming() && offset == |ready|
      ensures HeadFound(Output(records)) && returned == Output(records)[headEnd.value..] && Tidy(Value())
    {
      hide Output, Http1.FindEnd;
      assert returned + [] == returned;
    }

    /** Wait for one more record and take it in. */
    method TakeIn() returns (progress: Progress)
      requires Streaming() && !done && ready == [] && offset == 0
      modifies this`upstream, this`wire, this`received, this`records, this`ready, this`bodyBytes, this`done
      ensures var (progress', s) := Advance(old(Value())); progress == progress' && (!progress.Broke? ==> Value() == s)
      ensures !progress.Broke? ==> Streaming() && Stream() == old(Stream())
      ensures progress.TookIn? ==> Weight(upstream) + |wire| < old(Weight(upstream) + |wire|)
    {
      hide Leaves, Output, Weight, Supplied, Http1.FindEnd, NextRecord, Admissible, Consume;
      ghost var before := records;
      var next := ReadRecord();
      match next
      case Closed => return Broke;
      case Bad => return Broke;
      case NoRecord =>
        assert records == before;
        return Waiting;
      case Next(record) =>
        assert records[..|records| - 1] == before;
        var ok := ConsumeRecord(record);
        return if ok then TookIn else Broke;
    }

    /**
     `read`: the bytes handed out are the next of the body. A read of nothing into a non-empty buffer comes only
     after END_REQUEST, when the whole body has been handed out.
     */
    method Read(want: nat) returns (r: ReadResult)
      requires Streaming()
      modifies this
      ensures Tidy(old(Value()))
      ensures var (r', s) := ReadBody(old(Value()), want); r == r' && (!r.Error? ==> Value() == s)
      ensures !r.Error? ==> Streaming() && Stream() == old(Stream())
      ensures r.Bytes? ==> returned == old(returned) + r.data && |r.data| <= want
      ensures r.Bytes? && want > 0 && r.data == [] ==> done && returned == Output(records)[headEnd.value..]
      ensures r.NotReady? ==> returned == old(returned)
      ensures headEnd == old(headEnd) && contentLength == old(contentLength)
    {
      hide Leaves, Output, Weight, Supplied, Http1.FindEnd, Advance, HandOut;
      if offset < |ready| {
        var data := TakeReady(want);
        return Bytes(data);
      }
      AllHandedOut();
      while !done
        invariant Streaming() && ready == [] && offset == 0 && returned == old(returned) && Stream() == old(Stream())
        invariant headEnd == old(headEnd) && contentLength == old(contentLength)
        invariant ReadBody(Value(), want) == ReadBody(old(Value()), want)
        decreases Weight(upstream) + |wire|
      {
        var progress := TakeIn();
        match progress
        case Broke => return Error;
        case Waiting => return NotReady;
        case TookIn =>
          if ready != [] {
            var data := TakeReady(want);
            return Bytes(data);
          }
      }
      AllHandedOut();
      return Bytes([]);
    }

    /** The headers end here: what was collected after them is the start of the body. */
    method StartBody(end: nat, length: Option<nat>)
      requires Synced() && !done && headerBytes == Output(records) && ready == [] && offset == 0 && returned == []
      requires 4 <= end <= |headerBytes| && Http1.FindEnd(headerBytes) == Some(end - 4)
      requires length.Some? ==> |headerBytes| - end <= length.value
      modifies this`headEnd, this`ready, this`contentLength, this`bodyBytes
      ensures Streaming() && headEnd == Some(end) && contentLength == length
      ensures Value() == old(Value()).(ready := headerBytes[end..], contentLength := length,
              bodyBytes := |headerBytes| - end)
    {
      hide Leaves, Output, Http1.FindEnd;
      headEnd := Some(end);
      ready, contentLength, bodyBytes := headerBytes[end..], length, |headerBytes| - end;
      assert returned + ready[offset..] == headerBytes[end..];
    }

    /** More header bytes, and whether they are complete now. */
    method Gather(data: seq<Byte>, q: Request) returns (c: Collected)
      modifies this`headerBytes
      ensures headerBytes == old(headerBytes) + data && c == Collect(q, headerBytes)
    {
      headerBytes := headerBytes + data;
      if |headerBytes| > q.maxHeaders {
        return Unacceptable;
      }
      var pos := Http1.FindEnd(headerBytes);
      if pos.None? {
        return Partial;
      }
      Http1.EndInside(headerBytes);
      var end := pos.value + 4;
      var info := q.parse(headerBytes[..end]);
      if info.None? {
        return Unacceptable;
      }
      if info.value.contentLength.Some? && |headerBytes| - end > info.value.contentLength.value {
        return Unacceptable;
      }
      return Whole(end, info.value);
    }

    /**
     `H2FastCgiPending::poll`: header bytes are collected over any number of calls; the answer comes with the first
     blank line, and what follows it is the start of the body.
     */
    method Poll(q: Request, expired: nat -> bool) returns (r: PollResult)
      requires Collecting()
      modifies this
      ensures var (r', s) := PollHead(old(Value()), q, expired, 0); r == r' && (!r.Failure? ==> Value() == s)
      ensures r.Pending? ==> Collecting() && Stream() == old(Stream())
      ensures r.Answer? ==>
                && Streaming() && Stream() == old(Stream()) && !done && returned == []
                && contentLength == r.info.contentLength
                && q.parse(Output(records)[..headEnd.value]) == Some(r.info)
    {
      hide Leaves, Output, Weight, Supplied, Http1.FindEnd, NextRecord, HasBody, Collect;
      var turns: nat := 0;
      while true
        invariant PollHead(Value(), q, expired, turns) == PollHead(old(Value()), q, expired, 0)
        invariant Collecting() && Stream() == old(Stream())
        decreases Weight(upstream) + |wire|
      {
        if expired(turns) {
          return Failure;
        }
        ghost var before := records;
        var next := ReadRecord();
        match next
        case Closed => return Failure;
        case Bad => return Failure;
        case NoRecord =>
          assert records == before;
          return Pending;
        case Next(record) =>
          OutputSnoc(before, record);
          if record.kind == STDOUT {
            var c := Gather(record.data, q);
            match c
            case Unacceptable => return Failure;
            case Whole(end, info) =>
              assert ready + headerBytes[end..] == headerBytes[end..];
              StartBody(end, info.contentLength);
              return Answer(info, HasBody(q, info));
            case Partial =>
          } else if record.kind == END_REQUEST {
            return Failure;
          } else {
            assert Output(before) + [] == Output(before);
          }
          turns := turns + 1;
      }
    }
  }
}
