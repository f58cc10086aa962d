/**
 When reading a response body fails, what it yields otherwise, and what that says about the body as a whole.
 */
module ConnectionBodies {
  import opened Base
  import opened Sources
  import opened Connection
  import opened ConnectionTrace

  /** A read with room fails: a file has nothing at hand, or an upstream fails, or it ends too early. */
  predicate ReadFails(b: Body) {
    match b
    case BytesBody(_, _) => false
    case FileBody(script, remaining) => remaining == 0 || Burst(script) == []
    case ReaderBody(script, left) =>
      left != Some(0) && Burst(script) == []
          && (HaltOf(script) == Fails || (HaltOf(script) == ReadsNothing && left.Some?))
  }

  /** A part of at most `max` bytes, not empty, that `all` begins with. */
  predicate Beginning(data: seq<Byte>, all: seq<Byte>, max: nat) {
    data != [] && data <= all && |data| <= max
  }

  /** What a read with room yields if it does not fail. */
  predicate ReadYieldsNext(b: Body, max: nat, read: BodyRead) {
    match b
    case BytesBody(data, offset) =>
      var n := Min(max, |data| - offset);
      read == Chunk(data[offset..offset + n], n == |data| - offset)
    case FileBody(script, remaining) =>
      read.Chunk? && Beginning(read.data, Burst(script), Min(max, remaining)) && read.done == (|read.data| == remaining)
    case ReaderBody(script, left) =>
      if left == Some(0) then read == Done
      else if Burst(script) != [] then
        && read.Chunk? && Beginning(read.data, Burst(script), if left.Some? then Min(max, left.value) else max)
        && read.done == (left == Some(|read.data|))
      else if HaltOf(script) == Blocks then read == NotReady
      else read == Done
  }

  /** A read fails exactly as said, and otherwise yields the next bytes that are there, a would-block or the end. */
  lemma ReadExactly(b: Body, max: nat)
    requires max > 0
    ensures var r := ReadChunk(b, max);
            && (r.Err? <==> ReadFails(b))
            && (r.Ok? ==> ReadYieldsNext(b, max, r.value.read))
  {
    match b
    case BytesBody(_, _) =>
    case FileBody(script, remaining) =>
      if remaining > 0 {
        hide Burst, HaltOf;
        ReadBurst(script, Min(remaining, max));
      } else {
        NoRoom(script);
      }
    case ReaderBody(script, left) =>
      var want := if left.Some? then Min(left.value, max) else max;
      if want > 0 {
        hide Burst, HaltOf;
        ReadBurst(script, want);
      }
  }

  lemma NoRoom(script: seq<ReadEvent>)
    ensures var r := ReadSource(script, 0); r.Got? ==> r.bytes == []
  {
  }

  // ---------------------------------------------------------------- bodies that may fail

  /**
   A body that does not come to its end by itself: a file that halts before its size, an upstream that fails, or one
   that ends before its declared length.
   */
  predicate MayFail(b: Body) {
    match b
    case BytesBody(_, _) => false
    case FileBody(script, size) => |Burst(script)| < size
    case ReaderBody(script, left) => Breaks(script) || (left.Some? && Ends(script) && |Yields(script)| < left.value)
  }

  /** Beyond the bytes themselves: a file has not halted yet, and an upstream fails in the end if it did before. */
  ghost predicate Kept(whole: Body, sent: seq<Byte>, rest: Body) {
    match rest
    case BytesBody(_, _) => whole.BytesBody?
    case FileBody(script, _) => whole.FileBody? && sent + Burst(script) == Burst(whole.script)
    case ReaderBody(script, _) => whole.ReaderBody? && Breaks(script) == Breaks(whole.script)
  }

  lemma KeptWhole(b: Body)
    ensures Kept(b, [], b)
  {
    assert b.FileBody? ==> [] + Burst(b.script) == Burst(b.script);
  }

  lemma ReadKept(whole: Body, sent: seq<Byte>, b: Body, max: nat)
    requires Kept(whole, sent, b) && max > 0
    ensures var r := ReadChunk(b, max);
            r.Ok? ==>
              match r.value.read
              case NotReady => Kept(whole, sent, r.value.body)
              case Done => true
              case Chunk(data, _) => Kept(whole, sent + data, r.value.body)
  {
    match b
    case BytesBody(_, _) =>
    case FileBody(script, remaining) =>
      if remaining > 0 {
        hide Burst, HaltOf;
        ReadBurst(script, Min(remaining, max));
        var r := ReadSource(script, Min(remaining, max));
        if r.Got? {
          assert sent + r.bytes + Burst(r.rest) == sent + (r.bytes + Burst(r.rest));
        }
      } else {
        NoRoom(script);
      }
    case ReaderBody(script, left) =>
      var want := if left.Some? then Min(left.value, max) else max;
      if want > 0 {
        hide Breaks, Yields;
        ReadBreaks(script, want);
      }
  }

  lemma HaltsAtOnce(script: seq<ReadEvent>)
    requires Burst(script) == []
    ensures HaltOf(script) == Fails ==> Breaks(script)
    ensures HaltOf(script) == ReadsNothing ==> Ends(script) && Yields(script) == []
  {
  }

  /** Where a read fails, the body as a whole was one that may. */
  lemma FailMeans(whole: Body, sent: seq<Byte>, b: Body)
    requires Progress(whole, sent, b) && Kept(whole, sent, b) && ReadFails(b)
    ensures MayFail(whole)
  {
    hide Burst, HaltOf, Yields, Ends, Breaks;
    match b
    case FileBody(script, remaining) =>
      assert sent + [] == sent;
    case ReaderBody(script, left) =>
      HaltsAtOnce(script);
      assert sent + [] == sent;
  }
}
