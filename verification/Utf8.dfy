/** Well-formed UTF-8 (Table 3-7 of the Unicode Standard), what `from_utf8` accepts. */
module Utf8 {
  import opened Base

  predicate Tail(b: Byte) { 0x80 <= b <= 0xBF }

  /** Length of the well-formed sequence at the start of `s`, or 0. */
  function LeadLength(s: seq<Byte>): (n: nat)
    ensures n <= |s| && n <= 4
  {
    if s == [] then 0
    else if s[0] <= 0x7F then 1
    else if 0xC2 <= s[0] <= 0xDF then (if |s| >= 2 && Tail(s[1]) then 2 else 0)
    else if 0xE0 <= s[0] <= 0xEF then
      if && |s| >= 3 && Tail(s[1]) && Tail(s[2])
         && (s[0] == 0xE0 ==> s[1] >= 0xA0) && (s[0] == 0xED ==> s[1] <= 0x9F)
      then 3 else 0
    else if 0xF0 <= s[0] <= 0xF4 then
      if && |s| >= 4 && Tail(s[1]) && Tail(s[2]) && Tail(s[3])
         && (s[0] == 0xF0 ==> s[1] >= 0x90) && (s[0] == 0xF4 ==> s[1] <= 0x8F)
      then 4 else 0
    else 0
  }

  predicate Valid(s: seq<Byte>) {
    s == [] || (LeadLength(s) > 0 && Valid(s[LeadLength(s)..]))
  }
}
