/**
 The Huffman string decoder (src/server/http2/hpack.rs:387-460): an arena trie built from the code table and
 walked bit by bit. It accepts exactly the canonical encodings of RFC 7541 section 5.2.
 */
module Huffman {
  import opened Base
  import opened CanonicalCode
  import opened HuffmanTable
  import Utf8

  // ---------------------------------------------------------------- decoding against the set of codes

  /** The symbol among the first `n` whose code is `p`, if there is one. */
  function Find(codes: seq<Bits>, n: nat, p: Bits): (s: Option<nat>)
    requires n <= |codes|
    ensures s.Some? ==> s.value < n && codes[s.value] == p
    ensures s.None? ==> forall i :: 0 <= i < n ==> codes[i] != p
  {
    if n == 0 then None
    else if codes[n - 1] == p then Some(n - 1)
    else Find(codes, n - 1, p)
  }

  /** Some code starts with `p`. */
  predicate Inner(codes: seq<Bits>, p: Bits) {
    exists i :: 0 <= i < |codes| && p <= codes[i]
  }

  /** At most seven one-bits may follow the last symbol. */
  predicate Padding(p: Bits) {
    |p| <= 7 && p == Ones(|p|)
  }

  /** Decode `bits`, having read `cur` since the last symbol and produced `acc` before that. */
  function Walk(codes: seq<Bits>, bits: Bits, acc: seq<Byte>, cur: Bits): Result<seq<Byte>>
    requires |codes| == 257
  {
    if bits == [] then (if Padding(cur) then Ok(acc) else Err(CompressionError))
    else
      var p := cur + [bits[0]];
      if !Inner(codes, p) then Err(CompressionError)
      else
        match Find(codes, 257, p)
        case None => Walk(codes, bits[1..], acc, p)
        case Some(s) => if s == EOS then Err(CompressionError) else Walk(codes, bits[1..], acc + [s], [])
  }

  function BitsOf(bytes: seq<Byte>): (b: Bits)
    ensures |b| == 8 * |bytes|
  {
    if bytes == [] then [] else CodeBits(bytes[0], 8) + BitsOf(bytes[1..])
  }

  function Decode(codes: seq<Bits>, bytes: seq<Byte>): Result<seq<Byte>>
    requires |codes| == 257
  {
    var s :- Walk(codes, BitsOf(bytes), [], []);
    if Utf8.Valid(s) then Ok(s) else Err(CompressionError)
  }

  /** The codes of RFC 7541 Appendix B. */
  function SpecCodes(): (codes: seq<Bits>)
    ensures PrefixCode(codes)
  {
    SpecIsPrefixCode();
    Codes(HUFFMAN_SPEC)
  }

  // ---------------------------------------------------------------- encoding

  function EncodeSymbols(codes: seq<Bits>, s: seq<Byte>): Bits
    requires |codes| == 257
  {
    if s == [] then [] else codes[s[0]] + EncodeSymbols(codes, s[1..])
  }

  function PadLength(n: nat): (p: nat)
    ensures p <= 7 && (n + p) % 8 == 0
  {
    (8 - n % 8) % 8
  }

  function Value(b: Bits): (v: nat)
    ensures v < Pow2(|b|)
  {
    if b == [] then 0
    else 2 * Value(b[..|b| - 1]) + if b[|b| - 1] then 1 else 0
  }

  function Pack(b: Bits): (bytes: seq<Byte>)
    requires |b| % 8 == 0
  {
    if b == [] then []
    else
      assert Pow2(8) == 256;
      [Value(b[..8])] + Pack(b[8..])
  }

  /** RFC 7541 section 5.2: the codes of the bytes, padded with ones to a whole number of bytes. */
  function Encode(codes: seq<Bits>, s: seq<Byte>): seq<Byte>
    requires |codes| == 257
  {
    var b := EncodeSymbols(codes, s);
    Pack(b + Ones(PadLength(|b|)))
  }

  lemma {:induction false} ValueBits(b: Bits)
    ensures CodeBits(Value(b), |b|) == b
  {
    if b != [] {
      var init, last := b[..|b| - 1], b[|b| - 1];
      ValueBits(init);
      assert Value(b) / 2 == Value(init) && (Value(b) % 2 == 1) == last;
      assert b == init + [last];
    }
  }

  lemma {:induction false} PackBits(b: Bits)
    requires |b| % 8 == 0
    ensures BitsOf(Pack(b)) == b
  {
    if b != [] {
      PackBits(b[8..]);
      ValueBits(b[..8]);
      assert Pack(b)[1..] == Pack(b[8..]);
      assert b == b[..8] + b[8..];
    }
  }

  lemma {:induction false} BitsInjective(x: seq<Byte>, y: seq<Byte>)
    requires BitsOf(x) == BitsOf(y)
    ensures x == y
  {
    if x != [] {
      assert y != [];
      var u, v := BitsOf(x), BitsOf(y);
      assert u[..8] == CodeBits(x[0], 8) && v[..8] == CodeBits(y[0], 8);
      assert u[8..] == BitsOf(x[1..]) && v[8..] == BitsOf(y[1..]);
      assert Pow2(8) == 256;
      CodeInjective(x[0], y[0], 8);
      BitsInjective(x[1..], y[1..]);
      assert x == [x[0]] + x[1..] && y == [y[0]] + y[1..];
    }
  }

  // ---------------------------------------------------------------- completeness

  /** A proper prefix of a code is not itself a code. */
  lemma InsideCode(codes: seq<Bits>, s: nat, p: Bits)
    requires PrefixCode(codes) && s < 257 && p < codes[s]
    ensures Inner(codes, p) && Find(codes, 257, p).None?
  {
  }

  /** Walking the rest of a code from inside it yields its symbol. */
  lemma {:induction false} WalkCode(codes: seq<Bits>, s: Byte, k: nat, rest: Bits, acc: seq<Byte>)
    requires PrefixCode(codes) && k < |codes[s]|
    ensures Walk(codes, codes[s][k..] + rest, acc, codes[s][..k]) == Walk(codes, rest, acc + [s], [])
    decreases |codes[s]| - k
  {
    var code := codes[s];
    var bits := code[k..] + rest;
    var p := code[..k] + [bits[0]];
    assert p == code[..k + 1];
    assert p <= code;
    assert bits[1..] == code[k + 1..] + rest;
    if k + 1 == |code| {
      assert p == code;
      assert codes[Find(codes, 257, p).value] <= codes[s];
      assert code[k + 1..] + rest == rest;
    } else {
      InsideCode(codes, s, p);
      WalkCode(codes, s, k + 1, rest, acc);
    }
  }

  /** Up to seven ones are inside the end-of-string code. */
  lemma OnesInside(codes: seq<Bits>, k: nat)
    requires PrefixCode(codes) && k <= 7
    ensures Inner(codes, Ones(k)) && Find(codes, 257, Ones(k)).None?
  {
    assert Ones(k) < codes[EOS];
    InsideCode(codes, EOS, Ones(k));
  }

  /** Padding of up to seven ones is read without ever completing a symbol. */
  lemma {:induction false} WalkPadding(codes: seq<Bits>, n: nat, k: nat, acc: seq<Byte>)
    requires PrefixCode(codes) && n + k <= 7
    ensures Walk(codes, Ones(n), acc, Ones(k)) == Ok(acc)
    decreases n
  {
    hide Inner, Find;
    if n > 0 {
      assert Ones(k) + [Ones(n)[0]] == Ones(k + 1);
      OnesInside(codes, k + 1);
      assert Ones(n)[1..] == Ones(n - 1);
      WalkPadding(codes, n - 1, k + 1, acc);
    }
  }

  /** Every padded encoding decodes to what was encoded. */
  lemma {:induction false} WalkComplete(codes: seq<Bits>, s: seq<Byte>, n: nat, acc: seq<Byte>)
    requires PrefixCode(codes) && n <= 7
    ensures Walk(codes, EncodeSymbols(codes, s) + Ones(n), acc, []) == Ok(acc + s)
    decreases |s|
  {
    hide Walk;
    if s == [] {
      assert [] + Ones(n) == Ones(n) && Ones(0) == [] && acc + s == acc;
      WalkPadding(codes, n, 0, acc);
    } else {
      var code, rest := codes[s[0]], EncodeSymbols(codes, s[1..]) + Ones(n);
      assert EncodeSymbols(codes, s) + Ones(n) == code[0..] + rest;
      assert code[..0] == [];
      WalkCode(codes, s[0], 0, rest, acc);
      WalkComplete(codes, s[1..], n, acc + [s[0]]);
      assert acc + [s[0]] + s[1..] == acc + s;
    }
  }

  // ---------------------------------------------------------------- soundness

  /** `bits` is `s` encoded, followed by `n` one-bits, n at most seven. */
  predicate Padded(codes: seq<Bits>, bits: Bits, s: seq<Byte>, n: nat)
    requires |codes| == 257
  {
    n <= 7 && bits == EncodeSymbols(codes, s) + Ones(n)
  }

  lemma PaddedCons(codes: seq<Bits>, sym: Byte, bits: Bits, s: seq<Byte>, n: nat)
    requires |codes| == 257 && Padded(codes, bits, s, n)
    ensures Padded(codes, codes[sym] + bits, [sym] + s, n)
  {
  }

  /** Whatever the walk accepts is the encoding of what it returns, followed by at most seven ones. */
  lemma {:induction false} WalkSound(codes: seq<Bits>, bits: Bits, acc: seq<Byte>, cur: Bits)
    returns (s: seq<Byte>, n: nat)
    requires |codes| == 257 && Walk(codes, bits, acc, cur).Ok?
    ensures Walk(codes, bits, acc, cur) == Ok(acc + s)
    ensures Padded(codes, cur + bits, s, n)
    decreases |bits|
  {
    if bits == [] {
      s, n := [], |cur|;
      assert acc + s == acc && cur + bits == cur && [] + Ones(n) == Ones(n);
    } else {
      var p := cur + [bits[0]];
      assert cur + bits == p + bits[1..];
      match Find(codes, 257, p)
      case None =>
        s, n := WalkSound(codes, bits[1..], acc, p);
      case Some(sym) =>
        var rest;
        rest, n := WalkSound(codes, bits[1..], acc + [sym], []);
        s := [sym] + rest;
        assert acc + s == acc + [sym] + rest;
        assert [] + bits[1..] == bits[1..];
        PaddedCons(codes, sym, bits[1..], rest, n);
    }
  }

  lemma EncodeBits(codes: seq<Bits>, s: seq<Byte>)
    requires |codes| == 257
    ensures Padded(codes, BitsOf(Encode(codes, s)), s, PadLength(|EncodeSymbols(codes, s)|))
  {
    var e := EncodeSymbols(codes, s);
    PackBits(e + Ones(PadLength(|e|)));
  }

  /** A whole number of bytes leaves only one possible padding. */
  lemma PaddedUnique(codes: seq<Bits>, x: seq<Byte>, y: seq<Byte>, s: seq<Byte>, m: nat, n: nat)
    requires |codes| == 257 && Padded(codes, BitsOf(x), s, m) && Padded(codes, BitsOf(y), s, n)
    ensures x == y
  {
    assert |BitsOf(x)| - |BitsOf(y)| == m - n;
    BitsInjective(x, y);
  }

  lemma DecodeComplete(codes: seq<Bits>, s: seq<Byte>)
    requires PrefixCode(codes) && Utf8.Valid(s)
    ensures Decode(codes, Encode(codes, s)) == Ok(s)
  {
    EncodeBits(codes, s);
    WalkComplete(codes, s, PadLength(|EncodeSymbols(codes, s)|), []);
    assert [] + s == s;
  }

  lemma DecodeSound(codes: seq<Bits>, bytes: seq<Byte>)
    requires |codes| == 257 && Decode(codes, bytes).Ok?
    ensures bytes == Encode(codes, Decode(codes, bytes).value)
  {
    var s, n := WalkSound(codes, BitsOf(bytes), [], []);
    assert [] + s == s && [] + BitsOf(bytes) == BitsOf(bytes);
    EncodeBits(codes, s);
    PaddedUnique(codes, bytes, Encode(codes, s), s, n, PadLength(|EncodeSymbols(codes, s)|));
  }

  /** The decoder accepts `bytes` with result `s` if and only if `bytes` is the canonical encoding of `s`. */
  lemma DecodeIsInverse(codes: seq<Bits>, bytes: seq<Byte>, s: seq<Byte>)
    requires PrefixCode(codes)
    ensures Decode(codes, bytes) == Ok(s) <==> Utf8.Valid(s) && bytes == Encode(codes, s)
  {
    if Decode(codes, bytes) == Ok(s) {
      DecodeSound(codes, bytes);
    } else if Utf8.Valid(s) {
      DecodeComplete(codes, s);
    }
  }

  // ---------------------------------------------------------------- the arena trie

  datatype Node = Node(symbol: Option<nat>, left: Option<nat>, right: Option<nat>) {
    function Child(bit: bool): Option<nat> { if bit then right else left }

    function WithChild(bit: bool, i: nat): Node {
      if bit then this.(right := Some(i)) else this.(left := Some(i))
    }
  }

  const EMPTY_NODE := Node(None, None, None)

  /** `paths[i]` is the bit string that leads from the root to node i. */
  ghost predicate Linked(nodes: seq<Node>, paths: seq<Bits>) {
    && 0 < |nodes| == |paths|
    && paths[0] == []
    && (forall i, j :: 0 <= i < j < |paths| ==> paths[i] != paths[j])
    && (forall i, bit :: 0 <= i < |nodes| && nodes[i].Child(bit).Some? ==>
          nodes[i].Child(bit).value < |nodes| && paths[nodes[i].Child(bit).value] == paths[i] + [bit])
    && (forall i, bit :: 0 <= i < |nodes| && nodes[i].Child(bit).None? ==> paths[i] + [bit] !in paths)
  }

  /** The nodes are the prefixes of the first `n` codes and of `part`. */
  ghost predicate Covers(paths: seq<Bits>, codes: seq<Bits>, n: nat, part: Bits)
    requires n <= |codes|
  {
    forall p :: p in paths <==> (exists i :: 0 <= i < n && p <= codes[i]) || p <= part
  }

  ghost predicate Marked(nodes: seq<Node>, paths: seq<Bits>, codes: seq<Bits>, n: nat)
    requires n <= |codes| && |nodes| == |paths|
  {
    forall i :: 0 <= i < |nodes| ==> nodes[i].symbol == Find(codes, n, paths[i])
  }

  ghost predicate Trie(nodes: seq<Node>, paths: seq<Bits>, codes: seq<Bits>, n: nat, part: Bits)
    requires n <= |codes|
  {
    Linked(nodes, paths) && Covers(paths, codes, n, part) && Marked(nodes, paths, codes, n)
  }

  lemma PrefixCases(p: Bits, part: Bits, bit: bool)
    ensures p <= part + [bit] <==> p <= part || p == part + [bit]
  {
  }

  /** Following an existing edge adds nothing. */
  lemma FollowEdge(nodes: seq<Node>, paths: seq<Bits>, codes: seq<Bits>, n: nat, part: Bits, curr: nat, bit: bool)
    requires n <= |codes| && Trie(nodes, paths, codes, n, part)
    requires curr < |nodes| && paths[curr] == part && nodes[curr].Child(bit).Some?
    ensures Trie(nodes, paths, codes, n, part + [bit])
    ensures var next := nodes[curr].Child(bit).value; next < |nodes| == |paths| && paths[next] == part + [bit]
  {
    assert part + [bit] in paths;
    forall p ensures p in paths <==> (exists i :: 0 <= i < n && p <= codes[i]) || p <= part + [bit] {
      PrefixCases(p, part, bit);
    }
  }

  /** A missing edge is added together with the node it leads to. */
  lemma AddEdge(nodes: seq<Node>, paths: seq<Bits>, codes: seq<Bits>, n: nat, part: Bits, curr: nat, bit: bool)
    requires n <= |codes| && Trie(nodes, paths, codes, n, part)
    requires curr < |nodes| && paths[curr] == part && nodes[curr].Child(bit).None?
    ensures Trie(WithEdge(nodes, curr, bit), paths + [part + [bit]], codes, n, part + [bit])
  {
    AddEdgeCovers(paths, codes, n, part, bit);
    AddEdgeLinks(nodes, paths, codes, n, part, curr, bit);
    AddEdgeMarks(nodes, paths, codes, n, part, curr, bit);
  }

  lemma AddEdgeCovers(paths: seq<Bits>, codes: seq<Bits>, n: nat, part: Bits, bit: bool)
    requires n <= |codes| && Covers(paths, codes, n, part)
    ensures Covers(paths + [part + [bit]], codes, n, part + [bit])
  {
    forall p ensures p in paths + [part + [bit]] <==> (exists i :: 0 <= i < n && p <= codes[i]) || p <= part + [bit] {
      PrefixCases(p, part, bit);
    }
  }

  /** Paths are closed under prefixes, so nothing lies below a path that is missing. */
  lemma NothingBelow(paths: seq<Bits>, codes: seq<Bits>, n: nat, part: Bits, p: Bits, bit: bool)
    requires n <= |codes| && Covers(paths, codes, n, part) && p !in paths
    ensures p + [bit] !in paths
  {
  }

  lemma SnocInjective(p: Bits, b: bool, q: Bits, c: bool)
    ensures p + [b] == q + [c] ==> p == q && b == c
  {
    assert (p + [b])[..|p|] == p && (q + [c])[..|q|] == q;
    assert (p + [b])[|p|] == b && (q + [c])[|q|] == c;
  }

  /** The arena with one more edge, from node `curr` to a new node. */
  function WithEdge(nodes: seq<Node>, curr: nat, bit: bool): (nodes': seq<Node>)
    requires curr < |nodes|
    ensures |nodes'| == |nodes| + 1
  {
    nodes[curr := nodes[curr].WithChild(bit, |nodes|)] + [EMPTY_NODE]
  }

  /** The new edge leads to the new node, and every other edge where it led before. */
  lemma EdgesOf(nodes: seq<Node>, curr: nat, bit: bool, i: nat, b: bool)
    requires curr < |nodes| && i <= |nodes|
    ensures WithEdge(nodes, curr, bit)[i].Child(b) ==
            if i == |nodes| then None else if i == curr && b == bit then Some(|nodes|) else nodes[i].Child(b)
  {
  }

  lemma PathMissing(nodes: seq<Node>, paths: seq<Bits>, curr: nat, bit: bool)
    requires Linked(nodes, paths) && curr < |nodes| && nodes[curr].Child(bit).None?
    ensures paths[curr] + [bit] !in paths
  {
  }

  lemma AddEdgeLinks(nodes: seq<Node>, paths: seq<Bits>, codes: seq<Bits>, n: nat, part: Bits, curr: nat, bit: bool)
    requires n <= |codes| && Linked(nodes, paths) && Covers(paths, codes, n, part)
    requires curr < |nodes| && paths[curr] == part && nodes[curr].Child(bit).None?
    ensures Linked(WithEdge(nodes, curr, bit), paths + [part + [bit]])
  {
    hide Covers, WithEdge;
    var added := part + [bit];
    var nodes', paths' := WithEdge(nodes, curr, bit), paths + [added];
    PathMissing(nodes, paths, curr, bit);
    forall i, b | 0 <= i < |nodes'| && nodes'[i].Child(b).Some?
      ensures nodes'[i].Child(b).value < |nodes'| && paths'[nodes'[i].Child(b).value] == paths'[i] + [b]
    {
      EdgesOf(nodes, curr, bit, i, b);
    }
    forall i, b | 0 <= i < |nodes'| && nodes'[i].Child(b).None? ensures paths'[i] + [b] !in paths' {
      EdgesOf(nodes, curr, bit, i, b);
      if i == |nodes| {
        NothingBelow(paths, codes, n, part, added, b);
        assert |added + [b]| != |added|;
      } else {
        PathMissing(nodes, paths, i, b);
        SnocInjective(paths[i], b, part, bit);
        assert paths[i] == paths[curr] ==> i == curr;
      }
    }
  }

  lemma AddEdgeMarks(nodes: seq<Node>, paths: seq<Bits>, codes: seq<Bits>, n: nat, part: Bits, curr: nat, bit: bool)
    requires n <= |codes| && Trie(nodes, paths, codes, n, part)
    requires curr < |nodes| && paths[curr] == part && nodes[curr].Child(bit).None?
    ensures Marked(WithEdge(nodes, curr, bit), paths + [part + [bit]], codes, n)
  {
  }

  /** Marking the end of a code completes it. */
  lemma MarkEnd(nodes: seq<Node>, paths: seq<Bits>, codes: seq<Bits>, n: nat, curr: nat)
    requires n < |codes| && Trie(nodes, paths, codes, n, codes[n])
    requires curr < |nodes| && paths[curr] == codes[n]
    ensures Trie(nodes[curr := nodes[curr].(symbol := Some(n))], paths, codes, n + 1, [])
  {
    forall p ensures p in paths <==> (exists i :: 0 <= i < n + 1 && p <= codes[i]) || p <= [] {
      assert p <= [] ==> p <= codes[n];
      if p <= codes[n] {
        assert 0 <= n < n + 1 && p <= codes[n];
      }
    }
    var nodes' := nodes[curr := nodes[curr].(symbol := Some(n))];
    assert forall i, bit :: 0 <= i < |nodes| ==> nodes'[i].Child(bit) == nodes[i].Child(bit);
  }

  /** Bit `n - 1 - k` of the code number is bit k of its bit string. */
  lemma {:induction false} CodeBitAt(code: nat, n: nat, k: nat)
    requires k < n
    ensures CodeBits(code, n)[k] == (Shr(code, n - 1 - k) % 2 == 1)
  {
    if k < n - 1 {
      CodeBitAt(code / 2, n - 1, k);
    }
  }

  lemma TrieRoot(nodes: seq<Node>, paths: seq<Bits>, codes: seq<Bits>, n: nat)
    requires n <= |codes| && Trie(nodes, paths, codes, n, [])
    ensures 0 < |nodes| == |paths| && paths[0] == []
  {
  }

  /** One bit further down, creating the node there if it is missing. */
  method Descend(nodes: seq<Node>, curr: nat, bit: bool,
      ghost paths: seq<Bits>, ghost codes: seq<Bits>, ghost n: nat, ghost part: Bits)
    returns (nodes': seq<Node>, next: nat, ghost paths': seq<Bits>)
    requires n <= |codes| && Trie(nodes, paths, codes, n, part)
    requires curr < |nodes| == |paths| && paths[curr] == part
    ensures Trie(nodes', paths', codes, n, part + [bit])
    ensures next < |nodes'| == |paths'| && paths'[next] == part + [bit]
  {
    hide Trie, WithEdge;
    if nodes[curr].Child(bit).Some? {
      FollowEdge(nodes, paths, codes, n, part, curr, bit);
      nodes', next, paths' := nodes, nodes[curr].Child(bit).value, paths;
    } else {
      AddEdge(nodes, paths, codes, n, part, curr, bit);
      nodes', next, paths' := WithEdge(nodes, curr, bit), |nodes|, paths + [part + [bit]];
    }
  }

  /** Insert one code, creating the nodes that are missing on its path. */
  method InsertCode(nodes: seq<Node>, e: Entry, ghost paths: seq<Bits>, ghost codes: seq<Bits>)
    returns (nodes': seq<Node>, ghost paths': seq<Bits>)
    requires 0 <= e.symbol < |codes| && e.code >= 0 && e.bits >= 0 && codes[e.symbol] == CodeBits(e.code, e.bits)
    requires Trie(nodes, paths, codes, e.symbol, [])
    ensures Trie(nodes', paths', codes, e.symbol + 1, [])
  {
    hide Trie, Shr, CodeBits;
    TrieRoot(nodes, paths, codes, e.symbol);
    nodes', paths' := nodes, paths;
    ghost var code := codes[e.symbol];
    var curr: nat, i := 0, e.bits;
    while i > 0
      invariant 0 <= i <= e.bits && curr < |nodes'| == |paths'|
      invariant Trie(nodes', paths', codes, e.symbol, code[..e.bits - i])
      invariant paths'[curr] == code[..e.bits - i]
    {
      ghost var part := code[..e.bits - i];
      i := i - 1;
      var bit := Shr(e.code, i) % 2 == 1;
      CodeBitAt(e.code, e.bits, e.bits - 1 - i);
      assert code[..e.bits - i] == part + [bit];
      nodes', curr, paths' := Descend(nodes', curr, bit, paths', codes, e.symbol, part);
    }
    assert code[..e.bits] == code;
    MarkEnd(nodes', paths', codes, e.symbol, curr);
    nodes' := nodes'[curr := nodes'[curr].(symbol := Some(e.symbol))];
  }

  /** The arena trie of a table (src/server/http2/hpack.rs:388-417). */
  method BuildTrie(table: seq<Entry>) returns (nodes: seq<Node>, ghost paths: seq<Bits>)
    requires Proper(table)
    ensures Trie(nodes, paths, Codes(table), 257, [])
  {
    nodes, paths := [EMPTY_NODE], [[]];
    for k := 0 to 257
      invariant Trie(nodes, paths, Codes(table), k, [])
    {
      nodes, paths := InsertCode(nodes, table[k], paths, Codes(table));
    }
  }

  /** One step down the trie is one step of the walk over the code set. */
  lemma StepDown(nodes: seq<Node>, paths: seq<Bits>, codes: seq<Bits>, curr: nat, bit: bool)
    requires |codes| == 257 && PrefixCode(codes) && Trie(nodes, paths, codes, 257, []) && curr < |nodes|
    ensures nodes[curr].Child(bit).Some? <==> Inner(codes, paths[curr] + [bit])
  {
    var p := paths[curr] + [bit];
    assert p in paths <==> Inner(codes, p);
    if nodes[curr].Child(bit).Some? {
      assert paths[nodes[curr].Child(bit).value] == p;
    }
  }

  /** Where the decoder stands: output so far, current node, and the two facts it keeps about padding. */
  datatype Cursor = Cursor(decoded: seq<Byte>, curr: nat, bitsSinceSymbol: nat, trailingOnes: bool)

  ghost predicate Tracks(c: Cursor, paths: seq<Bits>) {
    && c.curr < |paths|
    && c.bitsSinceSymbol == |paths[c.curr]|
    && c.trailingOnes == (paths[c.curr] == Ones(|paths[c.curr]|))
  }

  method TakeBit(nodes: seq<Node>, c: Cursor, bit: bool, ghost paths: seq<Bits>, ghost codes: seq<Bits>,
      ghost rest: Bits)
    returns (r: Result<Cursor>)
    requires |codes| == 257 && PrefixCode(codes) && Trie(nodes, paths, codes, 257, []) && Tracks(c, paths)
             && c.curr < |paths|
    ensures r.Err? ==> Walk(codes, [bit] + rest, c.decoded, paths[c.curr]) == Err(CompressionError) == Err(r.code)
    ensures r.Ok? ==>
              && r.value.curr < |paths| && Tracks(r.value, paths)
              && Walk(codes, [bit] + rest, c.decoded, paths[c.curr])
                 == Walk(codes, rest, r.value.decoded, paths[r.value.curr])
  {
    assert ([bit] + rest)[1..] == rest;
    StepDown(nodes, paths, codes, c.curr, bit);
    var next := nodes[c.curr].Child(bit);
    if next.None? {
      return Err(CompressionError);
    }
    OnesSnoc(paths[c.curr], bit);
    if nodes[next.value].symbol.Some? {
      var sym := nodes[next.value].symbol.value;
      if sym == EOS {
        return Err(CompressionError);
      }
      return Ok(Cursor(c.decoded + [sym], 0, 0, true));
    }
    return Ok(Cursor(c.decoded, next.value, c.bitsSinceSymbol + 1, c.trailingOnes && bit));
  }

  /** The `n` low bits of a number, most significant first. */
  method TakeBits(nodes: seq<Node>, c: Cursor, value: nat, n: nat, ghost paths: seq<Bits>, ghost codes: seq<Bits>,
      ghost rest: Bits)
    returns (r: Result<Cursor>)
    requires |codes| == 257 && PrefixCode(codes) && Trie(nodes, paths, codes, 257, []) && Tracks(c, paths)
             && c.curr < |paths|
    ensures r.Err? ==> Walk(codes, CodeBits(value, n) + rest, c.decoded, paths[c.curr]) == Err(r.code)
    ensures r.Ok? ==>
              && r.value.curr < |paths| && Tracks(r.value, paths)
              && Walk(codes, CodeBits(value, n) + rest, c.decoded, paths[c.curr])
                 == Walk(codes, rest, r.value.decoded, paths[r.value.curr])
  {
    hide *;
    ghost var bits, left := CodeBits(value, n), CodeBits(value, n) + rest;
    var d, i := c, n;
    assert bits[0..] == bits;
    while i > 0
      invariant 0 <= i <= n && d.curr < |paths| && Tracks(d, paths) && left == bits[n - i..] + rest
      invariant Walk(codes, bits + rest, c.decoded, paths[c.curr]) == Walk(codes, left, d.decoded, paths[d.curr])
    {
      Peel(bits, n - i, rest);
      CodeBitAt(value, n, n - i);
      i := i - 1;
      var bit := Shr(value, i) % 2 == 1;
      left := bits[n - i..] + rest;
      var step := TakeBit(nodes, d, bit, paths, codes, left);
      if step.Err? {
        return step;
      }
      d := step.value;
    }
    assert bits[n..] + rest == rest;
    return Ok(d);
  }

  lemma Peel(bits: Bits, k: nat, rest: Bits)
    requires k < |bits|
    ensures bits[k..] + rest == [bits[k]] + (bits[k + 1..] + rest)
  {
  }

  /** `decode_huffman` over any proper table. */
  method DecodeWith(table: seq<Entry>, bytes: seq<Byte>) returns (r: Result<seq<Byte>>)
    requires Proper(table)
    ensures r == Decode(Codes(table), bytes)
  {
    var nodes, paths := BuildTrie(table);
    ghost var target := Walk(Codes(table), BitsOf(bytes), [], []);
    var c := Cursor([], 0, 0, true);
    assert bytes[0..] == bytes;
    for k := 0 to |bytes|
      invariant Tracks(c, paths)
      invariant target == Walk(Codes(table), BitsOf(bytes[k..]), c.decoded, paths[c.curr])
    {
      assert bytes[k..][1..] == bytes[k + 1..];
      c :- TakeBits(nodes, c, bytes[k], 8, paths, Codes(table), BitsOf(bytes[k + 1..]));
    }
    assert bytes[|bytes|..] == [];
    assert c.curr == 0 <==> paths[c.curr] == [];
    if c.curr != 0 && (c.bitsSinceSymbol > 7 || !c.trailingOnes) {
      return Err(CompressionError);
    }
    r := if Utf8.Valid(c.decoded) then Ok(c.decoded) else Err(CompressionError);
  }

  lemma OnesSnoc(p: Bits, bit: bool)
    ensures p + [bit] == Ones(|p| + 1) <==> p == Ones(|p|) && bit
  {
    assert (p + [bit])[..|p|] == p && Ones(|p| + 1)[..|p|] == Ones(|p|);
    assert (p + [bit])[|p|] == bit;
    if p == Ones(|p|) && bit {
      assert p + [bit] == Ones(|p| + 1);
    }
  }

  /** `decode_huffman`, with the table of RFC 7541 Appendix B. */
  method DecodeHuffman(bytes: seq<Byte>) returns (r: Result<seq<Byte>>)
    ensures r == Decode(SpecCodes(), bytes)
    ensures r.Ok? ==> Utf8.Valid(r.value) && bytes == Encode(SpecCodes(), r.value)
    ensures r.Err? ==> forall s :: Utf8.Valid(s) ==> bytes != Encode(SpecCodes(), s)
  {
    SpecIsPrefixCode();
    r := DecodeWith(HUFFMAN_SPEC, bytes);
    forall s ensures Decode(SpecCodes(), bytes) == Ok(s) <==> Utf8.Valid(s) && bytes == Encode(SpecCodes(), s) {
      DecodeIsInverse(SpecCodes(), bytes, s);
    }
  }
}
