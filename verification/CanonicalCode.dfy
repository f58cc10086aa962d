/**
 Canonical Huffman codes in general: codes of one length are consecutive, and each length starts at twice
 the end of the one before. Such a code is prefix free.
 */
module CanonicalCode {
  import opened Base

  type Bits = seq<bool>

  /** The bits of a code, most significant first. */
  function CodeBits(code: nat, n: nat): (b: Bits)
    ensures |b| == n
  {
    if n == 0 then [] else CodeBits(code / 2, n - 1) + [code % 2 == 1]
  }

  /** `a >> k` */
  function Shr(a: nat, k: nat): nat {
    if k == 0 then a else Shr(a / 2, k - 1)
  }

  function Ones(n: nat): (b: Bits)
    ensures |b| == n
    ensures forall i :: 0 <= i < n ==> b[i]
  {
    seq(n, i => true)
  }

  /** `first(b)` and `count(b)` describe the codes of length b, up to length `top`, whose last code is all ones. */
  ghost predicate Canonical(first: int -> int, count: int -> int, top: nat) {
    && (forall b :: 0 <= b <= top ==> first(b) >= 0 && count(b) >= 0)
    && (forall b :: 0 <= b < top ==> first(b + 1) == 2 * (first(b) + count(b)))
    && first(top) + count(top) == Pow2(top)
  }

  predicate InRow(first: int -> int, count: int -> int, bits: int, code: int) {
    first(bits) <= code < first(bits) + count(bits)
  }

  lemma {:induction false} Pow2Add(a: nat, b: nat)
    ensures Pow2(a + b) == Pow2(a) * Pow2(b)
  {
    if a > 0 {
      Pow2Add(a - 1, b);
      assert Pow2(a + b) == 2 * (Pow2(a - 1) * Pow2(b)) == (2 * Pow2(a - 1)) * Pow2(b);
    }
  }

  lemma MulBounds(d: int, k: int)
    requires d > 0
    ensures k >= 1 ==> d * k >= d
    ensures k <= -1 ==> d * k <= -d
  {
  }

  /** The codes of length `a`, left-aligned to length `b`, all lie below the codes of length `b`. */
  lemma {:induction false} RowsOrdered(first: int -> int, count: int -> int, top: nat, a: nat, b: nat)
    requires Canonical(first, count, top) && a < b <= top
    ensures (first(a) + count(a)) * Pow2(b - a) <= first(b)
    decreases b
  {
    assert first(b - 1 + 1) == 2 * (first(b - 1) + count(b - 1));
    if a < b - 1 {
      RowsOrdered(first, count, top, a, b - 1);
      var end, p := first(a) + count(a), Pow2(b - 1 - a);
      assert Pow2(b - a) == 2 * p;
      assert end * (2 * p) == 2 * (end * p);
    }
  }

  lemma CodeInRange(first: int -> int, count: int -> int, top: nat, bits: nat, code: nat)
    requires Canonical(first, count, top) && bits <= top && InRow(first, count, bits, code)
    ensures code < Pow2(bits)
  {
    if bits < top {
      var end, p := first(bits) + count(bits), Pow2(top - bits);
      RowsOrdered(first, count, top, bits, top);
      Pow2Add(bits, top - bits);
      assert end * p <= Pow2(bits) * p;
      MulCancel(end, Pow2(bits), p);
    }
  }

  lemma MulCancel(a: int, b: int, p: int)
    requires p > 0 && a * p <= b * p
    ensures a <= b
  {
  }

  /** The first `m` bits of a code are the code shifted right. */
  lemma {:induction false} CodePrefix(code: nat, n: nat, m: nat)
    requires m <= n
    ensures CodeBits(code, n)[..m] == CodeBits(Shr(code, n - m), m)
  {
    if m < n {
      CodePrefix(code / 2, n - 1, m);
      assert CodeBits(code, n)[..m] == CodeBits(code / 2, n - 1)[..m];
    } else {
      assert CodeBits(code, n)[..m] == CodeBits(code, n);
    }
  }

  lemma {:induction false} CodeInjective(a: nat, b: nat, n: nat)
    requires a < Pow2(n) && b < Pow2(n) && CodeBits(a, n) == CodeBits(b, n)
    ensures a == b
  {
    if n > 0 {
      var x, y := CodeBits(a, n), CodeBits(b, n);
      assert x[..n - 1] == CodeBits(a / 2, n - 1) && y[..n - 1] == CodeBits(b / 2, n - 1);
      assert x[n - 1] == (a % 2 == 1) && y[n - 1] == (b % 2 == 1);
      CodeInjective(a / 2, b / 2, n - 1);
    }
  }

  lemma {:induction false} ShrBelow(d: nat, k: nat, m: nat)
    requires d < Pow2(m + k)
    ensures Shr(d, k) < Pow2(m)
  {
    if k > 0 {
      ShrBelow(d / 2, k - 1, m);
    }
  }

  lemma {:induction false} ShrAtLeast(d: nat, k: nat, low: nat)
    requires low * Pow2(k) <= d
    ensures low <= Shr(d, k)
  {
    if k > 0 {
      assert low * Pow2(k) == 2 * (low * Pow2(k - 1));
      ShrAtLeast(d / 2, k - 1, low);
    }
  }

  /** In a canonical code one code is a prefix of another only if they are equal. */
  lemma CanonicalPrefixFree(first: int -> int, count: int -> int, top: nat, m: nat, c: nat, n: nat, d: nat)
    requires Canonical(first, count, top) && m <= top && n <= top
    requires InRow(first, count, m, c) && InRow(first, count, n, d)
    requires CodeBits(c, m) <= CodeBits(d, n)
    ensures m == n && c == d
  {
    CodeInRange(first, count, top, m, c);
    CodeInRange(first, count, top, n, d);
    CodePrefix(d, n, m);
    ShrBelow(d, n - m, m);
    CodeInjective(c, Shr(d, n - m), m);
    if m < n {
      RowsOrdered(first, count, top, m, n);
      MulMonotone(c + 1, first(m) + count(m), Pow2(n - m));
      ShrAtLeast(d, n - m, c + 1);
      assert false;
    }
  }

  lemma MulMonotone(a: int, b: int, p: int)
    requires p > 0 && a <= b
    ensures a * p <= b * p
  {
  }

  lemma {:induction false} AllOnes(n: nat)
    ensures CodeBits(Pow2(n) - 1, n) == Ones(n)
  {
    if n > 0 {
      AllOnes(n - 1);
      assert (Pow2(n) - 1) / 2 == Pow2(n - 1) - 1;
      assert Ones(n - 1) + [true] == Ones(n);
    }
  }
}
