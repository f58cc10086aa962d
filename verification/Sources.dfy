/**
 Files, sockets and upstream servers as what successive reads of them yield. A script is any such sequence, so a
 statement about all scripts is a statement about all behaviours.
 */
module Sources {
  import opened Base

  /** What a read may yield; an empty piece is a read of zero bytes. */
  datatype ReadEvent = Piece(bytes: seq<Byte>) | Blocked | Broken

  datatype SourceRead = Got(bytes: seq<Byte>, rest: seq<ReadEvent>) | WouldBlock(rest: seq<ReadEvent>) | Failed

  /** One `read` into a buffer of `want` bytes; once the script is used up, reads block. */
  function ReadSource(script: seq<ReadEvent>, want: nat): (r: SourceRead)
    ensures r.Got? ==> |r.bytes| <= want
  {
    if script == [] then WouldBlock([])
    else
      match script[0]
      case Blocked => WouldBlock(script[1..])
      case Broken => Failed
      case Piece(b) =>
        if |b| <= want then Got(b, script[1..]) else Got(b[..want], [Piece(b[want..])] + script[1..])
  }

  /** All bytes a source will still yield. */
  function Supplied(script: seq<ReadEvent>): seq<Byte> {
    if script == [] then []
    else (if script[0].Piece? then script[0].bytes else []) + Supplied(script[1..])
  }

  /** What was taken from a source and what it will still yield make up what it would have yielded. */
  lemma ReadConserves(script: seq<ReadEvent>, want: nat)
    ensures var r := ReadSource(script, want);
            && (r.Got? ==> r.bytes + Supplied(r.rest) == Supplied(script))
            && (r.WouldBlock? ==> Supplied(r.rest) == Supplied(script))
  {
  }

  /** The bytes that reads yield before they come to an end: a read of zero bytes, or a failure. */
  function Yields(script: seq<ReadEvent>): seq<Byte> {
    if script == [] || script[0].Broken? || script[0] == Piece([]) then []
    else (if script[0].Piece? then script[0].bytes else []) + Yields(script[1..])
  }

  /** Reads come to an end with a read of zero bytes. */
  predicate Ends(script: seq<ReadEvent>) {
    script != [] && !script[0].Broken? && (script[0] == Piece([]) || Ends(script[1..]))
  }

  /** A piece larger than the buffer is read in parts. */
  lemma SplitPiece(script: seq<ReadEvent>, want: nat)
    requires script != [] && script[0].Piece? && 0 < want < |script[0].bytes|
    ensures var b := script[0].bytes; var rest := [Piece(b[want..])] + script[1..];
            b[..want] + Yields(rest) == Yields(script) && Ends(rest) == Ends(script)
  {
    var b := script[0].bytes;
    var rest := [Piece(b[want..])] + script[1..];
    assert rest[1..] == script[1..] && |rest[0].bytes| > 0;
    assert Yields(rest) == b[want..] + Yields(script[1..]);
    assert b[..want] + (b[want..] + Yields(script[1..])) == b + Yields(script[1..]);
  }

  /** A read takes the next bytes before the end, or is the end itself. */
  lemma ReadYields(script: seq<ReadEvent>, want: nat)
    requires want > 0
    ensures match ReadSource(script, want)
            case Got(bytes, rest) =>
              if bytes == [] then Yields(script) == [] && Ends(script)
              else bytes + Yields(rest) == Yields(script) && Ends(rest) == Ends(script)
            case WouldBlock(rest) => Yields(rest) == Yields(script) && Ends(rest) == Ends(script)
            case Failed => true
  {
    if script != [] {
      match script[0]
      case Blocked => assert [] + Yields(script[1..]) == Yields(script[1..]);
      case Broken =>
      case Piece(b) =>
        if |b| > want {
          SplitPiece(script, want);
          hide Yields, Ends;
        }
    }
  }

  /** Reads come to an end with a failure. */
  predicate Breaks(script: seq<ReadEvent>) {
    script != [] && script[0] != Piece([]) && (script[0].Broken? || Breaks(script[1..]))
  }

  lemma ReadBreaks(script: seq<ReadEvent>, want: nat)
    requires want > 0
    ensures match ReadSource(script, want)
            case Got(bytes, rest) => if bytes == [] then !Breaks(script) else Breaks(rest) == Breaks(script)
            case WouldBlock(rest) => Breaks(rest) == Breaks(script)
            case Failed => Breaks(script) && Yields(script) == []
  {
    if script != [] && script[0].Piece? && |script[0].bytes| > want {
      var rest := [Piece(script[0].bytes[want..])] + script[1..];
      assert rest[1..] == script[1..] && rest[0] != Piece([]);
    }
  }

  // ---------------------------------------------------------------- without waiting

  /** The bytes that reads yield before one of them blocks, yields nothing or fails. */
  function Burst(script: seq<ReadEvent>): seq<Byte> {
    if script == [] || !script[0].Piece? || script[0] == Piece([]) then [] else script[0].bytes + Burst(script[1..])
  }

  datatype Halt = Blocks | ReadsNothing | Fails

  /** How reads halt after that. */
  function HaltOf(script: seq<ReadEvent>): Halt {
    if script == [] || script[0].Blocked? then Blocks
    else if script[0].Broken? then Fails
    else if script[0] == Piece([]) then ReadsNothing
    else HaltOf(script[1..])
  }

  lemma ReadBurst(script: seq<ReadEvent>, want: nat)
    requires want > 0
    ensures match ReadSource(script, want)
            case Got(bytes, rest) =>
              if bytes == [] then Burst(script) == [] && HaltOf(script) == ReadsNothing
              else bytes + Burst(rest) == Burst(script) && HaltOf(rest) == HaltOf(script)
            case WouldBlock(rest) => Burst(script) == [] && HaltOf(script) == Blocks
            case Failed => Burst(script) == [] && HaltOf(script) == Fails
  {
    if script != [] && script[0].Piece? && |script[0].bytes| > want {
      var b := script[0].bytes;
      var rest := [Piece(b[want..])] + script[1..];
      assert rest[1..] == script[1..] && rest[0] != Piece([]);
      assert b[..want] + (b[want..] + Burst(script[1..])) == b + Burst(script[1..]);
    }
  }
}
