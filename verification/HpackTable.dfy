/**
 The HPACK dynamic table (src/server/http2/hpack.rs:70-118, section 4 of RFC 7541).
 The code inserts first and evicts afterwards; RFC 7541 section 4.4 evicts first. The two agree.
 */
module HpackTable {
  import opened Base

  datatype Header = Header(name: seq<Byte>, value: seq<Byte>)

  const ENTRY_OVERHEAD := 32

  function EntrySize(h: Header): nat {
    |h.name| + |h.value| + ENTRY_OVERHEAD
  }

  function Total(entries: seq<Header>): nat {
    if entries == [] then 0 else EntrySize(entries[0]) + Total(entries[1..])
  }

  /** Every octet of every name and value in the table. */
  function Octets(entries: seq<Header>): seq<Byte> {
    if entries == [] then [] else entries[0].name + entries[0].value + Octets(entries[1..])
  }

  /** Section 4.1 of RFC 7541: the size of a table is the octets it holds and 32 for each entry. */
  lemma {:induction false} TotalCounts(entries: seq<Header>)
    ensures Total(entries) == |Octets(entries)| + 32 * |entries|
  {
    if entries != [] {
      TotalCounts(entries[1..]);
    }
  }

  /** Drop the oldest entries, which are last, until the rest fits. */
  function Evict(entries: seq<Header>, target: nat): (kept: seq<Header>)
    ensures kept <= entries && Total(kept) <= target
  {
    if Total(entries) > target then Evict(entries[..|entries| - 1], target) else entries
  }

  /** RFC 7541 section 4.4: make room, then add; an entry larger than the table empties it. */
  function RfcInsert(entries: seq<Header>, h: Header, maxSize: nat): seq<Header> {
    if EntrySize(h) > maxSize then [] else [h] + Evict(entries, maxSize - EntrySize(h))
  }

  lemma {:induction false} TotalSnoc(entries: seq<Header>)
    requires entries != []
    ensures Total(entries) == Total(entries[..|entries| - 1]) + EntrySize(entries[|entries| - 1])
  {
    if |entries| > 1 {
      TotalSnoc(entries[1..]);
      assert entries[1..][..|entries| - 2] == entries[..|entries| - 1][1..];
    }
  }

  lemma {:induction false} TotalPrefix(entries: seq<Header>, k: nat)
    requires k <= |entries|
    ensures Total(entries[..k]) <= Total(entries)
    decreases |entries| - k
  {
    if k == |entries| {
      assert entries[..k] == entries;
    } else {
      TotalPrefix(entries, k + 1);
      TotalSnoc(entries[..k + 1]);
      assert entries[..k + 1][..k] == entries[..k];
    }
  }

  /** The survivors are the longest newest-first run that fits. */
  lemma {:induction false} EvictKeepsLongest(entries: seq<Header>, target: nat, k: nat)
    requires k <= |entries|
    ensures Total(entries[..k]) <= target <==> k <= |Evict(entries, target)|
    decreases |entries|
  {
    var kept := Evict(entries, target);
    if Total(entries) <= target {
      TotalPrefix(entries, k);
    } else if k == |entries| {
      assert entries[..k] == entries;
    } else {
      var rest := entries[..|entries| - 1];
      EvictKeepsLongest(rest, target, k);
      assert rest[..k] == entries[..k];
    }
  }

  /** Insert-then-evict, as the code does it, is RFC 7541's evict-then-insert. */
  lemma {:induction false} InsertRefinesRfc(entries: seq<Header>, h: Header, maxSize: nat)
    ensures Evict([h] + entries, maxSize) == RfcInsert(entries, h, maxSize)
    decreases |entries|
  {
    var all := [h] + entries;
    assert all[1..] == entries;
    if Total(all) > maxSize {
      if entries == [] {
        assert all[..0] == [];
      } else {
        var rest := entries[..|entries| - 1];
        InsertRefinesRfc(rest, h, maxSize);
        assert all[..|all| - 1] == [h] + rest;
      }
    }
  }

  /** `DynamicTable`: newest entry first, with the running size the code maintains. */
  class DynamicTable {
    var entries: seq<Header>
    var size: nat
    var maxSize: nat

    ghost predicate Valid()
      reads this
    {
      size == Total(entries) && size <= maxSize
    }

    constructor (max: nat)
      ensures Valid() && entries == [] && maxSize == max
    {
      entries, size, maxSize := [], 0, max;
    }

    method SetMaxSize(newMax: nat)
      requires Valid()
      modifies this
      ensures Valid() && maxSize == newMax
      ensures entries == Evict(old(entries), newMax)
    {
      maxSize := newMax;
      EvictToSize(maxSize);
    }

    method Insert(h: Header)
      requires Valid()
      modifies this
      ensures Valid() && maxSize == old(maxSize)
      ensures entries == RfcInsert(old(entries), h, maxSize)
    {
      entries := [h] + entries;
      assert entries[1..] == old(entries);
      size := size + EntrySize(h);
      EvictToSize(maxSize);
      InsertRefinesRfc(old(entries), h, maxSize);
    }

    method EvictToSize(target: nat)
      requires size == Total(entries)
      modifies this`entries, this`size
      ensures size == Total(entries) && size <= target
      ensures entries == Evict(old(entries), target)
    {
      while size > target && entries != []
        invariant size == Total(entries)
        invariant Evict(entries, target) == Evict(old(entries), target)
        decreases |entries|
      {
        TotalSnoc(entries);
        var last := entries[|entries| - 1];
        entries := entries[..|entries| - 1];
        assert EntrySize(last) <= size;   // the saturating subtraction never saturates
        size := SaturatingSub(size, EntrySize(last));
      }
    }

    method Get(index: nat) returns (h: Option<Header>)
      ensures h == if 1 <= index <= |entries| then Some(entries[index - 1]) else None
    {
      h := if 1 <= index <= |entries| then Some(entries[index - 1]) else None;
    }
  }
}
