/**
 A FastCGI response as functions of what the upstream yields: how the next record is waited for, how records become
 body bytes, and what reading the body to its end amounts to.
 */
module FastCgiBody {
  import opened Base
  import opened Segments
  import opened Sources
  import opened FastCgi
  import Http1

  const CHUNK := 16_384

  // ---------------------------------------------------------------- the next record

  /** How much an upstream can still yield before it blocks for good. */
  function Weight(script: seq<ReadEvent>): nat {
    if script == [] then 0
    else 1 + (if script[0].Piece? then |script[0].bytes| else 0) + Weight(script[1..])
  }

  lemma WeightDrops(script: seq<ReadEvent>, want: nat)
    ensures var r := ReadSource(script, want);
            && (r.Got? ==> Weight(r.rest) + |r.bytes| <= Weight(script))
            && (r.WouldBlock? ==> Weight(r.rest) + (if script == [] then 0 else 1) <= Weight(script))
  {
  }

  datatype RecordResult = Next(record: Record) | Closed | NoRecord | Bad

  /** A record or the lack of one, and what is left of the upstream and of the bytes received. */
  datatype Pulled = Pulled(result: RecordResult, script: seq<ReadEvent>, wire: seq<Byte>)

  /** `read_record`: read until the buffer holds a record, or reading halts. */
  function NextRecord(script: seq<ReadEvent>, wire: seq<Byte>): (p: Pulled)
    ensures p.result.Next? ==> Weight(p.script) + |p.wire| + |p.result.record.data| < Weight(script) + |wire|
    ensures p.result.NoRecord? ==>
              Weight(p.script) + |p.wire| + (if p.script == [] then 0 else 1) <= Weight(script) + |wire|
    decreases Weight(script)
  {
    WeightDrops(script, CHUNK);
    match TakeRecord(wire)
    case Fail(_) => Pulled(Bad, script, wire)
    case Item(record, rest) => Pulled(Next(record), script, rest)
    case Wait =>
      match ReadSource(script, CHUNK)
      case WouldBlock(rest) => Pulled(NoRecord, rest, wire)
      case Failed => Pulled(Bad, script, wire)
      case Got(bytes, rest) => if bytes == [] then Pulled(Closed, rest, wire) else NextRecord(rest, wire + bytes)
  }

  /**
   There is a record exactly if the bytes received, and those that come without waiting, complete one, and it is that
   one; otherwise the front of them is malformed, or reading blocks, yields nothing or fails.
   */
  lemma {:induction false} NextRecordExact(script: seq<ReadEvent>, wire: seq<Byte>)
    ensures var p := NextRecord(script, wire);
            match TakeRecord(wire + Burst(script))
            case Item(record, rest) => p.result == Next(record) && p.wire + Burst(p.script) == rest
            case Fail(_) => p.result == Bad
            case Wait =>
              match HaltOf(script)
              case Blocks => p.result == NoRecord && p.wire == wire + Burst(script)
              case ReadsNothing => p.result == Closed
              case Fails => p.result == Bad
    decreases Weight(script)
  {
    hide TakeRecord, ReadSource, Weight, Burst, HaltOf;
    WeightDrops(script, CHUNK);
    ReadBurst(script, CHUNK);
    TakeStable(wire, Burst(script));
    if TakeRecord(wire) == Wait {
      var r := ReadSource(script, CHUNK);
      if r.Got? && r.bytes != [] {
        NextRecordExact(r.rest, wire + r.bytes);
        assert wire + r.bytes + Burst(r.rest) == wire + Burst(script);
      } else {
        assert wire + Burst(script) == wire;
      }
    }
  }

  /** All records that the bytes received, and those still to come, amount to. */
  function Coming(script: seq<ReadEvent>, wire: seq<Byte>): Delivery<Record, BadRecord> {
    Records(wire + Yields(script))
  }

  lemma RecordsStep(buf: seq<Byte>)
    ensures Records(buf) ==
            match TakeRecord(buf)
            case Wait => Delivery([], buf, None)
            case Fail(e) => Delivery([], buf, Some(e))
            case Item(r, rest) => var d := Records(rest); Delivery([r] + d.items, d.left, d.error)
  {
    hide TakeRecord;
    RecordReaderStable();
  }

  /** The records to come are the next one and the others; if there is none, waiting changes nothing. */
  lemma {:induction false} NextComing(script: seq<ReadEvent>, wire: seq<Byte>)
    ensures var p := NextRecord(script, wire); var all, later := Coming(script, wire), Coming(p.script, p.wire);
            && (p.result.Next? || p.result.NoRecord? ==>
               Ends(p.script) == Ends(script) && Breaks(p.script) == Breaks(script))
            && match p.result
               case Next(record) => all == Delivery([record] + later.items, later.left, later.error)
               case NoRecord => all == later
               case Closed => all.items == [] && all.error.None? && Ends(script) && !Breaks(script)
               case Bad => all.items == [] && (all.error.Some? || Breaks(script))
    decreases Weight(script)
  {
    hide TakeRecord, ReadSource, Weight, Yields, Ends, Breaks, Records;
    WeightDrops(script, CHUNK);
    ReadYields(script, CHUNK);
    ReadBreaks(script, CHUNK);
    RecordsStep(wire + Yields(script));
    TakeStable(wire, Yields(script));
    if TakeRecord(wire) == Wait {
      var r := ReadSource(script, CHUNK);
      if r.Got? && r.bytes != [] {
        NextComing(r.rest, wire + r.bytes);
        assert wire + r.bytes + Yields(r.rest) == wire + Yields(script);
      } else if !r.WouldBlock? {
        assert wire + Yields(script) == wire;
      }
    }
  }

  /** Nothing more comes from an upstream whose script is used up. */
  lemma {:induction false} ComingToNothing(script: seq<ReadEvent>, wire: seq<Byte>)
    requires NextRecord(script, wire).result.NoRecord? && NextRecord(script, wire).script == []
    ensures Coming(script, wire).items == [] && Coming(script, wire).error.None? && !Ends(script) && !Breaks(script)
    decreases Weight(script)
  {
    hide TakeRecord, Weight, Records, ReadSource, Yields, Ends, Breaks;
    WeightDrops(script, CHUNK);
    ReadYields(script, CHUNK);
    ReadBreaks(script, CHUNK);
    RecordsStep(wire + Yields(script));
    Silence();
    var r := ReadSource(script, CHUNK);
    if r.Got? {
      ComingToNothing(r.rest, wire + r.bytes);
      assert wire + r.bytes + Yields(r.rest) == wire + Yields(script);
    } else {
      assert wire + Yields(script) == wire;
    }
  }

  lemma Silence()
    ensures Yields([]) == [] && !Ends([]) && !Breaks([])
  {
  }

  // ---------------------------------------------------------------- reading the body

  /** What one call of the reader yields: bytes (none at the end of the body), a would-block, or an error. */
  datatype ReadResult = Bytes(data: seq<Byte>) | NotReady | Error

  /** The fields of `FastCgiH2Reader`, and the header bytes collected before it is handed over. */
  datatype State = State(
    script: seq<ReadEvent>, wire: seq<Byte>, ready: seq<Byte>, offset: nat, done: bool,
    contentLength: Option<nat>, bodyBytes: nat, headerBytes: seq<Byte>)

  /** Output is kept only while some of it has not been handed out. */
  predicate Tidy(s: State) {
    s.offset <= |s.ready| && (s.offset == |s.ready| ==> s.ready == [])
  }

  /** Output stays within the declared length, and the end of the request comes at exactly that length. */
  predicate Admissible(count: nat, declared: Option<nat>, record: Record) {
    && (record.kind == STDOUT && declared.Some? ==> count + |record.data| <= declared.value)
    && (record.kind == END_REQUEST ==> |record.data| == 8 && (declared.Some? ==> count == declared.value))
  }

  /** `consume_record` */
  function Consume(s: State, record: Record): State {
    if record.kind == STDOUT then s.(bodyBytes := s.bodyBytes + |record.data|, ready := s.ready + record.data)
    else if record.kind == END_REQUEST then s.(done := true)
    else s
  }

  /** Hand out what is ready. */
  function HandOut(s: State, want: nat): (ReadResult, State)
    requires s.offset < |s.ready|
  {
    var end := s.offset + Min(want, |s.ready| - s.offset);
    (Bytes(s.ready[s.offset..end]), if end == |s.ready| then s.(ready := [], offset := 0) else s.(offset := end))
  }

  /** What a reader can still do. */
  function Todo(s: State): nat
    requires Tidy(s)
  {
    Weight(s.script) + |s.wire| + |s.ready| - s.offset
  }

  /** A record was taken in, there is none to be had now, or there never will be. */
  datatype Progress = TookIn | Waiting | Broke

  /** One more record, with nothing ready. */
  function Advance(s: State): (r: (Progress, State))
    requires Tidy(s) && s.ready == []
    ensures r.0.TookIn? ==> Tidy(r.1) && Todo(r.1) < Todo(s)
  {
    var p := NextRecord(s.script, s.wire);
    var s1 := s.(script := p.script, wire := p.wire);
    match p.result
    case Closed => (Broke, s)
    case Bad => (Broke, s)
    case NoRecord => (Waiting, s1)
    case Next(record) =>
      if Admissible(s.bodyBytes, s.contentLength, record) then (TookIn, Consume(s1, record)) else (Broke, s)
  }

  /** `read` */
  function ReadBody(s: State, want: nat): (ReadResult, State)
    requires Tidy(s)
    decreases Todo(s)
  {
    if s.offset < |s.ready| then HandOut(s, want)
    else if s.done then (Bytes([]), s)
    else
      var (progress, s') := Advance(s);
      match progress
      case Broke => (Error, s)
      case Waiting => (NotReady, s')
      case TookIn => ReadBody(s', want)
  }

  // ---------------------------------------------------------------- reading to the end

  datatype Ending = Complete | Refused | Unfinished

  /** The bytes of a body and how it ends. */
  datatype Body = Body(data: seq<Byte>, ending: Ending)

  /** What records say: their output up to END_REQUEST, unless one of them is not admissible. */
  function Said(records: seq<Record>, declared: Option<nat>, count: nat): Body
    decreases |records|
  {
    if records == [] then Body([], Unfinished)
    else
      var r := records[0];
      if !Admissible(count, declared, r) then Body([], Refused)
      else if r.kind == END_REQUEST then Body([], Complete)
      else if r.kind == STDOUT then
        var b := Said(records[1..], declared, count + |r.data|);
        b.(data := r.data + b.data)
      else Said(records[1..], declared, count)
  }

  /** What a reader has to hand out: what is ready, and what the records to come say. */
  function Promised(s: State): Body
    requires Tidy(s)
  {
    var held := s.ready[s.offset..];
    if s.done then Body(held, Complete)
    else
      var all := Coming(s.script, s.wire);
      var b := Said(all.items, s.contentLength, s.bodyBytes);
      var over := all.error.Some? || Ends(s.script) || Breaks(s.script);
      Body(held + b.data, if b.ending == Unfinished && over then Refused else b.ending)
  }

  /** Taking in a record or waiting changes nothing about the promise; where there is no hope, the body is refused. */
  lemma AdvanceKeepsPromise(s: State)
    requires Tidy(s) && s.ready == [] && !s.done
    ensures var (progress, s') := Advance(s);
            match progress
            case TookIn => Promised(s') == Promised(s)
            case Broke => Promised(s) == Body([], Refused)
            case Waiting =>
              && Tidy(s') && Promised(s') == Promised(s) && Todo(s') + (if s'.script == [] then 0 else 1) <= Todo(s)
              && (s'.script == [] ==> Promised(s) == Body([], Unfinished))
  {
    hide NextRecord, Weight, Ends, Breaks, Coming, Admissible;
    NextComing(s.script, s.wire);
    var p := NextRecord(s.script, s.wire);
    assert s.ready[s.offset..] == [];
    if p.result.Next? {
      var record, later := p.result.record, Coming(p.script, p.wire).items;
      var all := [record] + later;
      assert all[0] == record && all[1..] == later;
      var s' := Consume(s.(script := p.script, wire := p.wire), record);
      assert s'.ready[s'.offset..] == if record.kind == STDOUT then record.data else [];
    } else if p.result.NoRecord? && p.script == [] {
      ComingToNothing(s.script, s.wire);
    }
  }

  /** One read hands out the first part of what is promised, and keeps the promise about the rest. */
  lemma {:induction false} ReadKeepsPromise(s: State, want: nat)
    requires Tidy(s) && want > 0
    ensures var (r, s') := ReadBody(s, want); var b := Promised(s);
            match r
            case Error => b == Body([], Refused)
            case NotReady => Tidy(s') && Promised(s') == b && Todo(s') + (if s'.script == [] then 0 else 1) <= Todo(s)
                             && (s'.script == [] ==> b == Body([], Unfinished))
            case Bytes(data) =>
              if data == [] then b == Body([], Complete)
              else Tidy(s') && b == Promised(s').(data := data + Promised(s').data) && Todo(s') < Todo(s)
    decreases Todo(s)
  {
    hide Advance, Todo, Promised, HandOut;
    if s.offset < |s.ready| {
      HandOutKeepsPromise(s, want);
    } else if s.done {
      NothingHeld(s);
    } else {
      AdvanceKeepsPromise(s);
      if Advance(s).0.TookIn? {
        ReadKeepsPromise(Advance(s).1, want);
      }
    }
  }

  lemma NothingHeld(s: State)
    requires Tidy(s) && s.done && s.offset == |s.ready|
    ensures Promised(s) == Body([], Complete)
  {
    assert s.ready[s.offset..] == [];
  }

  lemma HandOutKeepsPromise(s: State, want: nat)
    requires Tidy(s) && want > 0 && s.offset < |s.ready|
    ensures var (r, s') := HandOut(s, want);
            && r.Bytes? && r.data != [] && Tidy(s')
            && Promised(s) == Promised(s').(data := r.data + Promised(s').data) && Todo(s') < Todo(s)
  {
    hide Weight, Ends, Breaks, Coming, Said;
    var (r, s') := HandOut(s, want);
    assert s.ready[s.offset..] == r.data + s'.ready[s'.offset..];
    if !s.done {
      var b := Said(Coming(s.script, s.wire).items, s.contentLength, s.bodyBytes);
      assert r.data + s'.ready[s'.offset..] + b.data == r.data + (s'.ready[s'.offset..] + b.data);
    }
  }

  /** Buffers that have room. */
  type Size = n: int | n > 0 witness 1

  /**
   Reading on, with buffers of any sizes and after every would-block, for as long as the upstream has anything left.
   */
  function Drain(s: State, wants: nat -> Size, k: nat): Body
    requires Tidy(s)
    decreases Todo(s)
  {
    ReadKeepsPromise(s, wants(k));
    var (r, s') := ReadBody(s, wants(k));
    match r
    case Error => Body([], Refused)
    case NotReady => if s'.script == [] then Body([], Unfinished) else Drain(s', wants, k + 1)
    case Bytes(data) =>
      if data == [] then Body([], Complete)
      else
        var b := Drain(s', wants, k + 1);
        b.(data := data + b.data)
  }

  /** However the upstream's bytes are cut and delayed, and whatever the buffers, the body is the one promised. */
  lemma {:induction false} DrainPromised(s: State, wants: nat -> Size, k: nat)
    requires Tidy(s)
    ensures Drain(s, wants, k) == Promised(s)
    decreases Todo(s)
  {
    hide ReadBody, Promised, Todo, Tidy;
    ReadKeepsPromise(s, wants(k));
    var (r, s') := ReadBody(s, wants(k));
    if (r.NotReady? && s'.script != []) || (r.Bytes? && r.data != []) {
      DrainPromised(s', wants, k + 1);
    }
  }

  // ---------------------------------------------------------------- when a body is complete

  /** The records before the end of the request. */
  function Before(records: seq<Record>): (r: seq<Record>)
    ensures r <= records
    ensures |r| < |records| ==> records[|r|].kind == END_REQUEST
    ensures forall i :: 0 <= i < |r| ==> r[i].kind != END_REQUEST
  {
    if records == [] || records[0].kind == END_REQUEST then [] else [records[0]] + Before(records[1..])
  }

  lemma {:induction false} OutputCons(r: Record, records: seq<Record>)
    ensures Output([r] + records) == (if r.kind == STDOUT then r.data else []) + Output(records)
    decreases |records|
  {
    var all := [r] + records;
    if records == [] {
      assert all[..0] == [] && Output([]) == [];
    } else {
      var n := |records| - 1;
      OutputCons(r, records[..n]);
      assert all[..|all| - 1] == [r] + records[..n];
    }
  }

  /** The length declared, if any, is that of everything before the end of the request. */
  predicate LengthMatches(records: seq<Record>, declared: Option<nat>, count: nat) {
    declared.Some? ==> count + |Output(Before(records))| == declared.value
  }

  /**
   A body is complete exactly if the request is ended, properly, and the output before that has the declared length;
   it is then exactly that output. Otherwise it is a beginning of it.
   */
  lemma {:induction false} SaidExact(records: seq<Record>, declared: Option<nat>, count: nat)
    requires declared.Some? ==> count <= declared.value
    ensures var b := Said(records, declared, count); var n := |Before(records)|;
            && (b.ending.Complete? <==>
               n < |records| && |records[n].data| == 8 && LengthMatches(records, declared, count))
            && (b.ending.Unfinished? <==>
               n == |records| && (declared.Some? ==> count + |Output(records)| <= declared.value))
            && (if b.ending.Refused? then b.data <= Output(Before(records)) else b.data == Output(Before(records)))
    decreases |records|
  {
    hide Output;
    if records == [] {
      assert Output([]) == [] by { Nothing(); }
    } else {
      var r, later := records[0], records[1..];
      assert records == [r] + later;
      OutputCons(r, later);
      OutputCons(r, Before(later));
      assert Output([]) == [] by { Nothing(); }
      if Admissible(count, declared, r) && r.kind != END_REQUEST {
        SaidExact(later, declared, if r.kind == STDOUT then count + |r.data| else count);
      }
    }
  }

  lemma Nothing()
    ensures Output([]) == []
  {
  }

  /**
   Draining a reader over any upstream, with buffers of any sizes, yields what it holds and exactly the output to
   come; it ends as complete if and only if END_REQUEST comes with the declared length, it goes on waiting only if the
   upstream falls silent before that, and it is refused in all other cases.
   */
  lemma DrainExact(s: State, wants: nat -> Size)
    requires Tidy(s) && !s.done && (s.contentLength.Some? ==> s.bodyBytes <= s.contentLength.value)
    ensures var b := Drain(s, wants, 0); var all := Coming(s.script, s.wire); var n := |Before(all.items)|;
            var whole := s.ready[s.offset..] + Output(Before(all.items));
            && (b.ending.Complete? <==>
                  n < |all.items| && |all.items[n].data| == 8 && LengthMatches(all.items, s.contentLength, s.bodyBytes))
            && (b.ending.Unfinished? <==>
                  && n == |all.items| && all.error.None? && !Ends(s.script) && !Breaks(s.script)
                  && (s.contentLength.Some? ==> s.bodyBytes + |Output(all.items)| <= s.contentLength.value))
            && (if b.ending.Refused? then b.data <= whole else b.data == whole)
  {
    hide Drain, Said, Output, Before, Coming, Ends, Breaks;
    DrainPromised(s, wants, 0);
    SaidExact(Coming(s.script, s.wire).items, s.contentLength, s.bodyBytes);
  }

  // ---------------------------------------------------------------- the response headers

  /** What the response headers of an upstream say about its body. */
  datatype HeaderInfo = HeaderInfo(status: nat, contentLength: Option<nat>)

  datatype PollResult = Pending | Failure | Answer(info: HeaderInfo, hasBody: bool)

  /** The limits and circumstances of one request. */
  datatype Request = Request(maxHeaders: nat, parse: seq<Byte> -> Option<HeaderInfo>, isHead: bool)

  predicate HasBody(q: Request, info: HeaderInfo) {
    !(q.isHead || 100 <= info.status <= 199 || info.status in {204, 304} || info.contentLength == Some(0))
  }

  /** Collected header bytes: not complete yet, complete up to `end`, or not acceptable. */
  datatype Collected = Partial | Whole(end: nat, info: HeaderInfo) | Unacceptable

  function Collect(q: Request, bytes: seq<Byte>): (r: Collected)
    ensures r.Partial? ==> Http1.FindEnd(bytes).None?
    ensures r.Whole? ==>
              && 4 <= r.end <= |bytes| && Http1.FindEnd(bytes) == Some(r.end - 4)
              && q.parse(bytes[..r.end]) == Some(r.info)
              && (r.info.contentLength.Some? ==> |bytes| - r.end <= r.info.contentLength.value)
  {
    Http1.EndInside(bytes);
    if |bytes| > q.maxHeaders then Unacceptable
    else
      match Http1.FindEnd(bytes)
      case None => Partial
      case Some(pos) =>
        var end := pos + 4;
        match q.parse(bytes[..end])
        case None => Unacceptable
        case Some(info) =>
          if info.contentLength.Some? && |bytes| - end > info.contentLength.value then Unacceptable
          else Whole(end, info)
  }

  /** What follows the headers is the start of the body. */
  function StartBody(s: State, end: nat, info: HeaderInfo): State
    requires end <= |s.headerBytes|
  {
    s.(ready := s.ready + s.headerBytes[end..], contentLength := info.contentLength, bodyBytes := |s.headerBytes| - end)
  }

  /** `poll` */
  function PollHead(s: State, q: Request, expired: nat -> bool, turns: nat): (PollResult, State)
    decreases Weight(s.script) + |s.wire|
  {
    if expired(turns) then (Failure, s)
    else
      var p := NextRecord(s.script, s.wire);
      var s1 := s.(script := p.script, wire := p.wire);
      match p.result
      case Closed => (Failure, s)
      case Bad => (Failure, s)
      case NoRecord => (Pending, s1)
      case Next(record) =>
        if record.kind == END_REQUEST then (Failure, s)
        else if record.kind != STDOUT then PollHead(s1, q, expired, turns + 1)
        else
          var s2 := s1.(headerBytes := s.headerBytes + record.data);
          match Collect(q, s2.headerBytes)
          case Unacceptable => (Failure, s)
          case Partial => PollHead(s2, q, expired, turns + 1)
          case Whole(end, info) => (Answer(info, HasBody(q, info)), StartBody(s2, end, info))
  }

  /** What records say about the headers: where they are complete, the first body bytes and the records that follow. */
  datatype Head = Found(info: HeaderInfo, start: seq<Byte>, rest: seq<Record>) | HeadRefused | HeadUnfinished

  function HeadSaid(records: seq<Record>, q: Request, bytes: seq<Byte>): Head
    decreases |records|
  {
    if records == [] then HeadUnfinished
    else
      var r := records[0];
      if r.kind == END_REQUEST then HeadRefused
      else if r.kind != STDOUT then HeadSaid(records[1..], q, bytes)
      else
        match Collect(q, bytes + r.data)
        case Unacceptable => HeadRefused
        case Partial => HeadSaid(records[1..], q, bytes + r.data)
        case Whole(end, info) => Found(info, (bytes + r.data)[end..], records[1..])
  }

  /** What polling leads to, in the end. */
  function HeadPromised(s: State, q: Request): Head {
    var all := Coming(s.script, s.wire);
    var h := HeadSaid(all.items, q, s.headerBytes);
    if h.HeadUnfinished? && (all.error.Some? || Ends(s.script) || Breaks(s.script)) then HeadRefused else h
  }

  /** A reader that has only collected header bytes. */
  predicate Unstarted(s: State) {
    s.ready == [] && s.offset == 0 && !s.done
  }

  /** The reader handed over holds the first body bytes, and the records to come are those that follow. */
  predicate HandedOver(s: State, h: Head) {
    && h.Found? && Tidy(s) && !s.done && s.ready[s.offset..] == h.start && Coming(s.script, s.wire).items == h.rest
    && s.contentLength == h.info.contentLength && s.bodyBytes == |h.start|
    && (s.contentLength.Some? ==> s.bodyBytes <= s.contentLength.value)
  }

  /**
   One poll, at any point: it answers only as promised, a would-block changes nothing, and unless time runs out it
   fails only where the headers are refused.
   */
  lemma {:induction false} PollKeepsPromise(s: State, q: Request, expired: nat -> bool, turns: nat)
    requires Unstarted(s)
    ensures var (r, s') := PollHead(s, q, expired, turns); var h := HeadPromised(s, q);
            match r
            case Failure => h.HeadRefused? || exists k :: turns <= k && expired(k)
            case Pending =>
              && Unstarted(s') && HeadPromised(s', q) == h
              && Weight(s'.script) + |s'.wire| + (if s'.script == [] then 0 else 1) <= Weight(s.script) + |s.wire|
              && (s'.script == [] ==> h.HeadUnfinished?)
            case Answer(info, hasBody) => HandedOver(s', h) && info == h.info && hasBody == HasBody(q, info)
    decreases Weight(s.script) + |s.wire|
  {
    hide NextRecord, Weight, Ends, Breaks, Coming, Collect;
    if !expired(turns) {
      NextComing(s.script, s.wire);
      var p := NextRecord(s.script, s.wire);
      var s1 := s.(script := p.script, wire := p.wire);
      if p.result.Next? {
        var record, later := p.result.record, Coming(p.script, p.wire).items;
        var all := [record] + later;
        assert all[0] == record && all[1..] == later;
        if record.kind == STDOUT {
          var s2 := s1.(headerBytes := s.headerBytes + record.data);
          var c := Collect(q, s2.headerBytes);
          if c.Partial? {
            PollKeepsPromise(s2, q, expired, turns + 1);
          } else if c.Whole? {
            assert [] + s2.headerBytes[c.end..] == s2.headerBytes[c.end..];
          }
        } else if record.kind != END_REQUEST {
          PollKeepsPromise(s1, q, expired, turns + 1);
        }
      } else if p.result.NoRecord? && p.script == [] {
        ComingToNothing(s.script, s.wire);
      }
    }
  }

  // ---------------------------------------------------------------- a whole response

  /** A reader as it is made. */
  function Fresh(script: seq<ReadEvent>): State {
    State(script, [], [], 0, false, None, 0, [])
  }

  /** Polling after every would-block, with time enough, for as long as the upstream has anything left. */
  function Await(s: State, q: Request): (PollResult, State)
    requires Unstarted(s)
    decreases Weight(s.script) + |s.wire|
  {
    PollKeepsPromise(s, q, _ => false, 0);
    var (r, s') := PollHead(s, q, _ => false, 0);
    if r.Pending? && s'.script != [] then Await(s', q) else (r, s')
  }

  lemma {:induction false} AwaitPromised(s: State, q: Request)
    requires Unstarted(s)
    ensures var (r, s') := Await(s, q); var h := HeadPromised(s, q);
            match r
            case Failure => h.HeadRefused?
            case Pending => h.HeadUnfinished?
            case Answer(info, hasBody) => HandedOver(s', h) && info == h.info && hasBody == HasBody(q, info)
    decreases Weight(s.script) + |s.wire|
  {
    hide PollHead, HeadPromised, HandedOver, Weight, Unstarted;
    PollKeepsPromise(s, q, _ => false, 0);
    var (r, s') := PollHead(s, q, _ => false, 0);
    if r.Pending? && s'.script != [] {
      AwaitPromised(s', q);
    }
  }

  /** What goes into the headers and into the body is all of the output, cut after its first blank line. */
  predicate CutAt(q: Request, out: seq<Byte>, h: Head, body: seq<Byte>) {
    && h.Found? && Http1.FindEnd(out).Some? && var end := Http1.FindEnd(out).value + 4;
    end <= |out| && q.parse(out[..end]) == Some(h.info) && h.start + body == out[end..]
  }

  lemma WholeCut(q: Request, bytes: seq<Byte>, more: seq<Byte>, rest: seq<Record>)
    requires Collect(q, bytes).Whole?
    ensures var c := Collect(q, bytes); CutAt(q, bytes + more, Found(c.info, bytes[c.end..], rest), more)
  {
    var c := Collect(q, bytes);
    Http1.FindEndStable(bytes, more);
    assert (bytes + more)[..c.end] == bytes[..c.end] && (bytes + more)[c.end..] == bytes[c.end..] + more;
  }

  lemma {:induction false} HeadSaidExact(records: seq<Record>, q: Request, bytes: seq<Byte>)
    requires HeadSaid(records, q, bytes).Found?
    ensures var h := HeadSaid(records, q, bytes); var n, m := |Before(records)|, |Before(h.rest)|;
            && CutAt(q, bytes + Output(Before(records)), h, Output(Before(h.rest)))
            && records[n..] == h.rest[m..]
    decreases |records|
  {
    hide Collect, Output, CutAt;
    var r, later := records[0], records[1..];
    OutputCons(r, Before(later));
    assert records[|Before(records)|..] == later[|Before(later)|..];
    if r.kind == STDOUT {
      var now := bytes + r.data;
      assert now + Output(Before(later)) == bytes + (r.data + Output(Before(later)));
      if Collect(q, now).Partial? {
        HeadSaidExact(later, q, now);
      } else {
        WholeCut(q, now, Output(Before(later)), later);
      }
    } else {
      HeadSaidExact(later, q, bytes);
      assert [] + Output(Before(later)) == Output(Before(later));
    }
  }

  /** What ends one list ends the other. */
  lemma SameEnd(a: seq<Record>, n: nat, b: seq<Record>, m: nat)
    requires n <= |a| && m <= |b| && a[n..] == b[m..]
    ensures n < |a| <==> m < |b|
    ensures n < |a| ==> a[n] == b[m]
  {
    assert |a[n..]| == |a| - n && |b[m..]| == |b| - m;
    assert n < |a| ==> a[n..][0] == a[n] && b[m..][0] == b[m];
  }

  lemma ComingFresh(script: seq<ReadEvent>)
    ensures Coming(script, []) == Records(Yields(script))
  {
    assert [] + Yields(script) == Yields(script);
  }

  /** The request is properly ended, with `length` bytes of body, as declared if they were. */
  predicate EndedWith(records: seq<Record>, declared: Option<nat>, length: nat) {
    var n := |Before(records)|;
    n < |records| && |records[n].data| == 8 && (declared.Some? ==> length == declared.value)
  }

  /**
   What a response amounts to: its headers are the output up to the first blank line, and its body is what follows,
   in full if and only if the request is properly ended with the declared length, and a beginning of it otherwise.
   */
  predicate Exactly(records: seq<Record>, q: Request, info: HeaderInfo, body: Body) {
    var out := Output(Before(records));
    && Http1.FindEnd(out).Some? && var end := Http1.FindEnd(out).value + 4;
    && end <= |out| && q.parse(out[..end]) == Some(info) && body.data <= out[end..]
    && (body.ending.Complete? <==> EndedWith(records, info.contentLength, |out| - end))
    && (body.ending.Complete? ==> body.data == out[end..])
  }

  /** Draining the reader handed over completes the response. */
  lemma DrainCut(s: State, q: Request, records: seq<Record>, h: Head, wants: nat -> Size)
    requires HandedOver(s, h) && CutAt(q, Output(Before(records)), h, Output(Before(h.rest)))
    requires records[|Before(records)|..] == h.rest[|Before(h.rest)|..]
    ensures Exactly(records, q, h.info, Drain(s, wants, 0))
  {
    hide Drain, Output, Before, Ends, Breaks, Coming, Http1.FindEnd;
    DrainExact(s, wants);
    SameEnd(records, |Before(records)|, h.rest, |Before(h.rest)|);
    var out := Output(Before(records));
    var end := Http1.FindEnd(out).value + 4;
    assert |out[end..]| == |out| - end;
  }

  /** A response from its first byte to its last, however the upstream's bytes are cut and delayed, for any buffers. */
  lemma ResponseExact(script: seq<ReadEvent>, q: Request, wants: nat -> Size)
    requires Await(Fresh(script), q).0.Answer?
    ensures var (r, s) := Await(Fresh(script), q);
            Tidy(s) && Exactly(Records(Yields(script)).items, q, r.info, Drain(s, wants, 0))
  {
    hide Await, HeadSaid, Drain, Output, Before, Records, Yields, Ends, Breaks, Coming, CutAt, Exactly;
    var s0 := Fresh(script);
    AwaitPromised(s0, q);
    var (r, s) := Await(s0, q);
    var items := Coming(s0.script, s0.wire).items;
    ComingFresh(script);
    var h := HeadPromised(s0, q);
    HeadSaidExact(items, q, []);
    assert [] + Output(Before(items)) == Output(Before(items));
    DrainCut(s, q, items, h, wants);
  }
}
