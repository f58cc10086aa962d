/**
 Taking items off the front of a byte stream that arrives in pieces. Whatever decides about the front of the buffer,
 if its decisions do not change when more bytes arrive, then how the stream is cut into pieces does not matter.
 */
module Segments {
  import opened Base

  /** Wait for more bytes, take an item and leave the rest, or give up. */
  datatype Verdict<+T, +E> = Wait | Item(value: T, rest: seq<Byte>) | Fail(error: E)

  /** What a stream amounts to: its items, the bytes not yet used, and the error that stopped it if any. */
  datatype Delivery<+T, +E> = Delivery(items: seq<T>, left: seq<Byte>, error: Option<E>)

  /** Taking an item uses up bytes. */
  ghost predicate Consuming<T(!new), E(!new)>(take: seq<Byte> -> Verdict<T, E>) {
    forall buf :: take(buf).Item? ==> |take(buf).rest| < |buf|
  }

  /** A decision stands when more bytes arrive. */
  ghost predicate StableAt<T, E>(take: seq<Byte> -> Verdict<T, E>, buf: seq<Byte>, more: seq<Byte>) {
    match take(buf)
    case Wait => true
    case Item(v, rest) => take(buf + more) == Item(v, rest + more)
    case Fail(e) => take(buf + more) == Fail(e)
  }

  ghost predicate Stable<T(!new), E(!new)>(take: seq<Byte> -> Verdict<T, E>) {
    forall buf, more :: StableAt(take, buf, more)
  }

  function Deliver<T(!new), E(!new)>(take: seq<Byte> -> Verdict<T, E>, buf: seq<Byte>): Delivery<T, E>
    requires Consuming(take)
    decreases |buf|
  {
    match take(buf)
    case Wait => Delivery([], buf, None)
    case Fail(e) => Delivery([], buf, Some(e))
    case Item(v, rest) =>
      var d := Deliver(take, rest);
      Delivery([v] + d.items, d.left, d.error)
  }

  /** Go on from a delivery with more bytes. */
  function More<T(!new), E(!new)>(take: seq<Byte> -> Verdict<T, E>, d: Delivery<T, E>, bytes: seq<Byte>): Delivery<T, E>
    requires Consuming(take)
  {
    if d.error.Some? then d.(left := d.left + bytes)
    else
      var e := Deliver(take, d.left + bytes);
      Delivery(d.items + e.items, e.left, e.error)
  }

  lemma {:induction false} DeliverAppend<T(!new), E(!new)>(take: seq<Byte> -> Verdict<T, E>, a: seq<Byte>, b: seq<Byte>)
    requires Consuming(take) && Stable(take)
    ensures Deliver(take, a + b) == More(take, Deliver(take, a), b)
    decreases |a|
  {
    assert StableAt(take, a, b);
    match take(a)
    case Wait =>
      var e := Deliver(take, a + b);
      assert [] + e.items == e.items;
    case Fail(e) =>
    case Item(v, rest) =>
      DeliverAppend(take, rest, b);
      var d := Deliver(take, rest);
      if d.error.None? {
        var e := Deliver(take, d.left + b);
        assert [v] + (d.items + e.items) == [v] + d.items + e.items;
      }
  }

  function Concat(pieces: seq<seq<Byte>>): seq<Byte> {
    if pieces == [] then [] else Concat(pieces[..|pieces| - 1]) + pieces[|pieces| - 1]
  }

  /** The reader's view: bytes come in pieces, and items are taken as soon as they are complete. */
  function Receive<T(!new), E(!new)>(take: seq<Byte> -> Verdict<T, E>, pieces: seq<seq<Byte>>): Delivery<T, E>
    requires Consuming(take)
  {
    if pieces == [] then Deliver(take, [])
    else More(take, Receive(take, pieces[..|pieces| - 1]), pieces[|pieces| - 1])
  }

  /** However the bytes are cut into pieces, the items, the bytes left over and the first error are the same. */
  lemma {:induction false} Segmentation<T(!new), E(!new)>(take: seq<Byte> -> Verdict<T, E>, pieces: seq<seq<Byte>>)
    requires Consuming(take) && Stable(take)
    ensures Receive(take, pieces) == Deliver(take, Concat(pieces))
  {
    if pieces != [] {
      var n := |pieces| - 1;
      Segmentation(take, pieces[..n]);
      DeliverAppend(take, Concat(pieces[..n]), pieces[n]);
    }
  }
}
