/**
 A run in which refusing a stream puts the compression tables out of step, and what comes of it.
 */
module ConnectionDrift {
  import opened Base
  import opened Frame
  import opened HpackTable
  import opened Connection
  import opened ConnectionTrace
  import opened ConnectionRuns
  import opened ConnectionBlocks
  import Flow
  import HpackCodec
  import Hpack
  import HpackDrift

  /** Three blocks of an encoder: a static field, a new entry with the value "a", and a reference to that entry. */
  const STATIC_FIELD := [Hpack.Indexed(2)]
  const NEW_ENTRY := [HpackDrift.Filler(1)]
  const REFERENCE := [Hpack.Indexed(62)]

  lemma Spelled()
    ensures Hpack.WireAll(STATIC_FIELD) == [0x82]
    ensures Hpack.WireAll(NEW_ENTRY) == [0x40, 0x00, 0x01, 97]
    ensures Hpack.WireAll(REFERENCE) == [0xBE]
  {
    Hpack.Patterns();
    assert STATIC_FIELD[1..] == [] && NEW_ENTRY[1..] == [] && REFERENCE[1..] == [];
    assert HpackDrift.Letters(1) == [97];
    assert Hpack.Wire(Hpack.Indexed(2)) == [0x82];
    assert Hpack.Wire(Hpack.Indexed(62)) == [0xBE];
    var empty, one := HpackCodec.Literal([], false), HpackCodec.Literal([97], false);
    assert HpackCodec.EncodeString(empty) == [0x00] && HpackCodec.EncodeString(one) == [0x01, 97];
  }

  /** The three blocks as their encoder means them: all legal, and the second leaves an entry behind. */
  lemma Meant()
    ensures var start := Hpack.Table([], TABLE_LIMIT); var h := Header([], [97]);
            var grown := Hpack.Table([h], TABLE_LIMIT);
            && (exists g :: Hpack.MeaningAll(start, TABLE_LIMIT, STATIC_FIELD) == Some(Hpack.Block([g], start)))
            && Hpack.MeaningAll(start, TABLE_LIMIT, NEW_ENTRY) == Some(Hpack.Block([h], grown))
            && Hpack.MeaningAll(grown, TABLE_LIMIT, REFERENCE) == Some(Hpack.Block([h], grown))
  {
    var start, h := Hpack.Table([], TABLE_LIMIT), Header([], [97]);
    var grown := Hpack.Table([h], TABLE_LIMIT);
    HpackDrift.FillerMeans(start, TABLE_LIMIT, 1);
    assert HpackDrift.Letters(1) == [97];
    assert RfcInsert([], h, TABLE_LIMIT) == [h];
    assert Hpack.Lookup(grown, 62) == Ok(h) && Hpack.Lookup(start, 2).Ok?;
    hide RfcInsert, HpackDrift.Filler, HpackDrift.Letters, Hpack.Lookup;
    HpackDrift.OneField(start, TABLE_LIMIT, NEW_ENTRY[0]);
    HpackDrift.OneField(start, TABLE_LIMIT, STATIC_FIELD[0]);
    HpackDrift.OneField(grown, TABLE_LIMIT, REFERENCE[0]);
  }

  /** A client that opens stream 1, has stream 3 refused, gives stream 1 up, and refers back on stream 5. */
  function Opens(routing: Routing): (i: Input)
    ensures i.Incoming? && i.routing == routing && Possible(i)
  {
    Incoming(HeadersFrame(1, [0x82], false, true), routing)
  }

  function IsRefused(routing: Routing): (i: Input)
    ensures i.Incoming? && i.routing == routing && Possible(i)
  {
    Incoming(HeadersFrame(3, [0x40, 0x00, 0x01, 97], true, true), routing)
  }

  function GivesUp(routing: Routing): (i: Input)
    ensures i.Incoming? && i.routing == routing && Possible(i)
  {
    Incoming(RstFrame(1, Cancel), routing)
  }

  function RefersBack(routing: Routing): (i: Input)
    ensures i.Incoming? && i.routing == routing && Possible(i)
  {
    Incoming(HeadersFrame(5, [0xBE], true, true), routing)
  }

  /** Stream 1 is open, and at a limit of one stream that is all. */
  lemma AfterOpening(config: Config, routing: Routing)
    requires config.maxConcurrentStreams == 1 && config.maxHeaderBlock >= 4
    ensures var s := ProcessFrame(Initial(config), Opens(routing).frame, routing);
            s.Next? && s.out == [] && s.conn.table == Hpack.Table([], TABLE_LIMIT) && s.conn.windows.Keys == {1}
            && s.conn.lastSid == 1 && s.conn.contSid == None && s.conn.config == config
  {
    var c, start := Initial(config), Hpack.Table([], TABLE_LIMIT);
    Spelled();
    Meant();
    Hpack.BlockRoundTrip(start, TABLE_LIMIT, STATIC_FIELD);
    hide Hpack.DecodeFields, Hpack.WireAll, Hpack.MeaningAll, Flow.AsI32, Opened, OnHeaders, OnData, OnContinuation;
    hide OnWindowUpdate, OnReset, ApplySettings;
    var meant := Hpack.MeaningAll(start, TABLE_LIMIT, STATIC_FIELD).value;
    assert |c.windows| == 0 && c.windows[1 := Flow.AsI32(c.peerInitial)].Keys == {1};
    WholeBlock(c, 1, [0x82], false, meant, Upstream([]));
    StaysOpen(c, 1, [0x82], meant, routing);
  }

  /** Without END_STREAM, what routing would answer does not matter. */
  lemma StaysOpen(c: Conn, sid: U32, block: seq<Byte>, meant: Hpack.Block, routing: Routing)
    requires Openable(c, sid) && Hpack.DecodeBlock(c.table, TABLE_LIMIT, c.config.maxHeaderBlock, block) == Ok(meant)
    ensures OnHeaders(c, sid, block, false, true, routing) == OnHeaders(c, sid, block, false, true, Upstream([]))
  {
    hide Hpack.DecodeBlock;
  }

  /** Stream 3 is refused and its block passed over. */
  lemma AfterRefusal(c: Conn, routing: Routing)
    requires c.config.maxConcurrentStreams == 1 && c.windows.Keys == {1} && c.lastSid == 1 && c.contSid == None
    ensures var s := ProcessFrame(c, IsRefused(routing).frame, routing);
            s.Next? && s.out == [Sent(RstFrame(3, RefusedStream))]
                && s.conn == c.(lastSid := 3, closed := s.conn.closed)
  {
    hide MarkClosed, FinishHeaders;
    assert |c.windows| == |c.windows.Keys| == 1;
  }

  /** With stream 1 given up there is room for another. */
  lemma AfterGivingUp(c: Conn, routing: Routing)
    requires c.windows.Keys == {1} && c.contSid == None
    ensures var s := ProcessFrame(c, GivesUp(routing).frame, routing);
            && s.Next? && s.out == [] && s.conn.windows == map[] && s.conn.table == c.table
            && s.conn.lastSid == c.lastSid
            && s.conn.contSid == None && s.conn.config == c.config
  {
    hide MarkClosed, WithoutHeader, WithoutBody;
    assert c.windows - {1} == map[];
  }

  /** The reference is to an entry the server does not have. */
  lemma AfterReference(c: Conn, routing: Routing)
    requires c.table.entries == [] && |c.windows| < c.config.maxConcurrentStreams && c.lastSid == 3 && c.contSid == None
    requires c.config.maxHeaderBlock >= 4
    ensures ProcessFrame(c, RefersBack(routing).frame, routing) == Stop(CompressionError, 5, [])
  {
    var grown := Hpack.Table([Header([], [97])], TABLE_LIMIT);
    Spelled();
    assert Hpack.Lookup(grown, 62).Ok? && Hpack.Lookup(c.table, 62) == Err(CompressionError);
    HpackDrift.ReferenceTells(c.table, grown, TABLE_LIMIT, 62);
    hide Hpack.DecodeFields, Hpack.WireAll, Hpack.MeaningAll, FinishDecoded;
  }

  /** Without the entry the server cannot follow the encoder. */
  lemma EntryMissing(maxBlock: nat)
    requires maxBlock >= 1
    ensures var start, grown := Hpack.Table([], TABLE_LIMIT), Hpack.Table([Header([], [97])], TABLE_LIMIT);
            !HpackDrift.AlwaysReads(start, grown, TABLE_LIMIT, maxBlock)
  {
    var start, grown := Hpack.Table([], TABLE_LIMIT), Hpack.Table([Header([], [97])], TABLE_LIMIT);
    Spelled();
    assert Hpack.Lookup(grown, 62).Ok? && Hpack.Lookup(start, 62).Err?;
    hide Hpack.DecodeFields, Hpack.WireAll, Hpack.MeaningAll, Hpack.Lookup, HpackDrift.Within, HpackDrift.ReadsAsMeant;
    hide Hpack.MeaningOfBlocks;
    HpackDrift.ReferenceTells(start, grown, TABLE_LIMIT, 62);
    HpackDrift.BlockTells(start, grown, TABLE_LIMIT, maxBlock, REFERENCE);
  }

  lemma TwoBlocks(t: Hpack.Table, limit: nat, a: seq<Hpack.Field>, b: seq<Hpack.Field>)
    requires Hpack.MeaningAll(t, limit, a).Some?
             && Hpack.MeaningAll(Hpack.MeaningAll(t, limit, a).value.table, limit, b).Some?
    ensures var first := Hpack.MeaningAll(t, limit, a).value;
            var second := Hpack.MeaningAll(first.table, limit, b).value;
            var all := Hpack.MeaningOfBlocks(t, limit, [a, b]); all.Some? && all.value.1 == second.table
  {
    hide Hpack.MeaningAll;
    var blocks := [a, b];
    var first := Hpack.MeaningAll(t, limit, a).value.table;
    var second := Hpack.MeaningAll(first, limit, b).value.table;
    assert blocks[1..] == [b] && [b][1..] == [];
    assert Hpack.MeaningOfBlocks(second, limit, [b][1..]).value.1 == second;
    assert Hpack.MeaningOfBlocks(first, limit, [b]).value.1 == second;
  }

  /** The run up to the refusal. */
  lemma UpToRefusal(config: Config, routing: Routing)
    requires config.maxConcurrentStreams == 1 && config.maxHeaderBlock >= 4
    ensures var s := Execute(config, [Opens(routing), IsRefused(routing)]);
            && s.Running? && s.conn.table == Hpack.Table([], TABLE_LIMIT) && s.conn.windows.Keys == {1}
            && s.conn.lastSid == 3 && s.conn.contSid == None && s.conn.config == config
  {
    hide ProcessFrame, Extend, Initial, Opening, Opens, IsRefused, Possible, Execute, HeadersFrame;
    var i0, i1 := Opens(routing), IsRefused(routing);
    assert Execute(config, []) == Running(Initial(config), Opening(config)) by { Nothing(config); }
    AfterOpening(config, routing);
    OneMore(config, [], i0, Initial(config), Opening(config));
    assert [] + [i0] == [i0] && [i0] + [i1] == [i0, i1];
    var s := Execute(config, [i0]);
    AfterRefusal(s.conn, routing);
    OneMore(config, [i0], i1, s.conn, s.history);
  }

  lemma Nothing(config: Config)
    ensures Execute(config, []) == Running(Initial(config), Opening(config))
  {
  }

  /**
   A run that goes out of step. At a limit of one stream, with that stream open, a block that adds an entry is refused:
   the server's table is not the encoder's, and what the encoder may send next is not always read as meant. Once there
   is room, the encoder's next legal block, a reference to the entry, ends the connection with a compression error.
   */
  lemma RefusalEndsConnection(config: Config, routing: Routing)
    requires config.maxConcurrentStreams == 1 && config.maxHeaderBlock >= 4
    ensures var start := Hpack.Table([], TABLE_LIMIT);
            var meant := Hpack.MeaningOfBlocks(start, TABLE_LIMIT, [STATIC_FIELD, NEW_ENTRY]);
            var s := Execute(config, [Opens(routing), IsRefused(routing)]);
            && meant.Some? && s.Running?
            && !HpackDrift.AlwaysReads(s.conn.table, meant.value.1, TABLE_LIMIT, config.maxHeaderBlock)
            && Hpack.MeaningAll(meant.value.1, TABLE_LIMIT, REFERENCE).Some?
    ensures var s := Execute(config, [Opens(routing), IsRefused(routing), GivesUp(routing), RefersBack(routing)]);
            s.Stopped? && s.history.After? && s.history.event == Sent(GoAwayFrame(5, CompressionError))
  {
    hide ProcessFrame, Extend, Initial, Opening, Opens, IsRefused, GivesUp, RefersBack, HpackDrift.AlwaysReads;
    hide Possible, Execute, Hpack.MeaningAll, Hpack.MeaningOfBlocks;
    var i0, i1, i2, i3 := Opens(routing), IsRefused(routing), GivesUp(routing), RefersBack(routing);
    Meant();
    TwoBlocks(Hpack.Table([], TABLE_LIMIT), TABLE_LIMIT, STATIC_FIELD, NEW_ENTRY);
    EntryMissing(config.maxHeaderBlock);
    UpToRefusal(config, routing);
    var s := Execute(config, [i0, i1]);
    AfterGivingUp(s.conn, routing);
    OneMore(config, [i0, i1], i2, s.conn, s.history);
    assert [i0, i1] + [i2] == [i0, i1, i2] && [i0, i1, i2] + [i3] == [i0, i1, i2, i3];
    var s' := Execute(config, [i0, i1, i2]);
    AfterReference(s'.conn, routing);
    OneMore(config, [i0, i1, i2], i3, s'.conn, s'.history);
  }
}
