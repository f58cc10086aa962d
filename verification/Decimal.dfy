/** Decimal numbers as text: how they are written with padding, and how Rust's integer parser reads them. */
module Decimal {
  import opened Base

  predicate IsDigit(c: char) { '0' <= c <= '9' }

  function Digit(n: nat): (c: char)
    requires n < 10
    ensures IsDigit(c) && c as int - '0' as int == n
  {
    ('0' as int + n) as char
  }

  function Digits(n: nat): (s: string)
    ensures s != "" && forall i :: 0 <= i < |s| ==> IsDigit(s[i])
  {
    if n < 10 then [Digit(n)] else Digits(n / 10) + [Digit(n % 10)]
  }

  function Zeros(n: nat): (s: string)
    ensures |s| == n && forall i :: 0 <= i < |s| ==> s[i] == '0'
  {
    seq(n, i => '0')
  }

  /** Decimal, at least `width` digits. */
  function Padded(n: nat, width: nat): (s: string)
    ensures s != "" && forall i :: 0 <= i < |s| ==> IsDigit(s[i])
  {
    Zeros(SaturatingSub(width, |Digits(n)|)) + Digits(n)
  }

  function DecimalValue(s: string): nat
    requires forall i :: 0 <= i < |s| ==> IsDigit(s[i])
  {
    if s == "" then 0
    else
      assert IsDigit(s[|s| - 1]);
      DecimalValue(s[..|s| - 1]) * 10 + (s[|s| - 1] as int - '0' as int)
  }

  /** `str::parse::<u64>`: an optional plus sign, then digits, and no overflow. */
  function ParseNumber(s: string): Option<nat> {
    var t := if |s| > 1 && s[0] == '+' then s[1..] else s;
    if t == "" || exists i :: 0 <= i < |t| && !IsDigit(t[i]) then None
    else if DecimalValue(t) >= U64_LIMIT then None
    else Some(DecimalValue(t))
  }

  lemma {:induction false} DigitsValue(n: nat)
    ensures DecimalValue(Digits(n)) == n
  {
    if n >= 10 {
      DigitsValue(n / 10);
      var s := Digits(n);
      assert s[..|s| - 1] == Digits(n / 10);
    } else {
      assert Digits(n)[..0] == "";
    }
  }

  lemma {:induction false} ZerosValue(k: nat, s: string)
    requires forall i :: 0 <= i < |s| ==> IsDigit(s[i])
    ensures forall i :: 0 <= i < |Zeros(k) + s| ==> IsDigit((Zeros(k) + s)[i])
    ensures DecimalValue(Zeros(k) + s) == DecimalValue(s)
    decreases |s|, k
  {
    var t := Zeros(k) + s;
    if s != "" {
      ZerosValue(k, s[..|s| - 1]);
      assert t[..|t| - 1] == Zeros(k) + s[..|s| - 1];
    } else if k > 0 {
      ZerosValue(k - 1, s);
      assert t[..|t| - 1] == Zeros(k - 1) + s;
    }
  }

  lemma PaddedReads(n: nat, width: nat)
    requires n < U64_LIMIT
    ensures ParseNumber(Padded(n, width)) == Some(n)
  {
    var s := Padded(n, width);
    DigitsValue(n);
    ZerosValue(SaturatingSub(width, |Digits(n)|), Digits(n));
    assert IsDigit(s[0]);
  }
}
