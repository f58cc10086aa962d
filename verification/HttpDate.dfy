/**
 HTTP dates as text (src/router/handler.rs; IMF-fixdate, section 5.6.7 of RFC 9110): what is written for a second
 since the epoch, and what is read from any string.
 */
module HttpDate {
  import opened Base
  import opened Calendar
  import opened Decimal

  const WEEKDAYS: seq<string> := ["Sun", "Mon", "Tue", "Wed", "Thu", "Fri", "Sat"]
  const MONTHS: seq<string> :=
    ["Jan", "Feb", "Mar", "Apr", "May", "Jun", "Jul", "Aug", "Sep", "Oct", "Nov", "Dec"]

  // ---------------------------------------------------------------- words

  /** The characters with the White_Space property of Unicode. */
  predicate White(c: char) {
    var n := c as int;
    || 0x9 <= n <= 0xD || n == 0x20 || n == 0x85 || n == 0xA0 || n == 0x1680 || 0x2000 <= n <= 0x200A
    || n == 0x2028 || n == 0x2029 || n == 0x202F || n == 0x205F || n == 0x3000
  }

  predicate Solid(s: string) {
    s != "" && forall i :: 0 <= i < |s| ==> !White(s[i])
  }

  function WordLength(s: string): (n: nat)
    ensures n <= |s| && (s != "" && !White(s[0]) ==> n > 0)
  {
    if s == "" || White(s[0]) then 0 else 1 + WordLength(s[1..])
  }

  /** `split_whitespace` */
  function Words(s: string): seq<string>
    decreases |s|
  {
    if s == "" then []
    else if White(s[0]) then Words(s[1..])
    else var n := WordLength(s); [s[..n]] + Words(s[n..])
  }

  /** `split(':')`: the pieces between separators, empty ones included. */
  function SplitAt(s: string, sep: char): (pieces: seq<string>)
    ensures pieces != []
  {
    if s == "" then [""]
    else
      var rest := SplitAt(s[1..], sep);
      if s[0] == sep then [""] + rest else [[s[0]] + rest[0]] + rest[1..]
  }

  function TrimStart(s: string, c: char): string {
    if s != "" && s[0] == c then TrimStart(s[1..], c) else s
  }

  function TrimEnd(s: string, c: char): string {
    if s != "" && s[|s| - 1] == c then TrimEnd(s[..|s| - 1], c) else s
  }

  function AsciiLower(c: char): char {
    if 'A' <= c <= 'Z' then (c as int + 32) as char else c
  }

  predicate SameIgnoringCase(a: string, b: string) {
    |a| == |b| && forall i :: 0 <= i < |a| ==> AsciiLower(a[i]) == AsciiLower(b[i])
  }

  function MonthFrom(s: string, i: nat): Option<nat>
    requires i <= 12
    decreases 12 - i
  {
    if i == 12 then None
    else if SameIgnoringCase(MONTHS[i], s) then Some(i + 1)
    else MonthFrom(s, i + 1)
  }

  // ---------------------------------------------------------------- the two directions

  function FormatTime(secs: nat): string
    requires secs < 86_400
  {
    Padded(secs / 3600, 2) + ":" + Padded(secs % 3600 / 60, 2) + ":" + Padded(secs % 60, 2)
  }

  function MonthName(month: nat): string
    requires 1 <= month <= 12
  {
    MONTHS[month - 1]
  }

  function Assemble(weekday: string, day: string, month: string, year: string, time: string): string {
    weekday + "," + " " + day + " " + month + " " + year + " " + time + " " + "GMT"
  }

  /** `format_http_date` of a time at or after the epoch. */
  function Format(secs: nat): string {
    var days := secs / 86_400;
    var date := CivilDate(days);
    DayNumberInverts(days);
    Assemble(WEEKDAYS[(days + 4) % 7], Padded(date.day, 2), MonthName(date.month), Padded(date.year, 4),
             FormatTime(secs % 86_400))
  }

  function ParseTime(s: string): Option<nat> {
    var parts := SplitAt(s, ':');
    if |parts| != 3 then None
    else
      match (ParseNumber(parts[0]), ParseNumber(parts[1]), ParseNumber(parts[2]))
      case (Some(h), Some(m), Some(sec)) => Some(h * 3600 + m * 60 + sec)
      case _ => None
  }

  /** The seconds since the epoch that day, month, year and time stand for. */
  function Combine(day: string, month: string, year: string, time: string): Option<nat> {
    match (ParseNumber(TrimEnd(TrimStart(day, ','), ',')), ParseNumber(year), MonthFrom(month, 0), ParseTime(time))
    case (Some(d), Some(y), Some(m), Some(t)) =>
      MonthRange(month, 0);
      var jdn := DayNumber(Date(y, m, d));
      if jdn < EPOCH_DAY then None else Some((jdn - EPOCH_DAY) * 86_400 + t)
    case _ => None
  }

  /** `parse_http_date` */
  function Parse(s: string): Option<nat> {
    var parts := Words(s);
    if |parts| < 5 then None
    else if |parts| == 6 then Combine(parts[1], parts[2], parts[3], parts[4])
    else Combine(parts[0], parts[1], parts[2], parts[3])
  }

  lemma {:induction false} MonthRange(s: string, i: nat)
    requires i <= 12
    ensures MonthFrom(s, i).Some? ==> 1 <= MonthFrom(s, i).value <= 12
    decreases 12 - i
  {
    if i < 12 {
      MonthRange(s, i + 1);
    }
  }

  // ---------------------------------------------------------------- reading what was written

  lemma {:induction false} WordEnds(a: string, rest: string)
    requires Solid(a)
    ensures WordLength(a + " " + rest) == |a| && WordLength(a) == |a|
    decreases |a|
  {
    var s := a + " " + rest;
    if |a| > 1 {
      WordEnds(a[1..], rest);
      assert s[1..] == a[1..] + " " + rest;
    } else {
      assert s[1..] == " " + rest && s[1] == ' ';
      assert a[1..] == "";
    }
  }

  lemma FirstWord(a: string, rest: string)
    requires Solid(a)
    ensures Words(a + " " + rest) == [a] + Words(rest) && Words(a) == [a]
  {
    var s := a + " " + rest;
    WordEnds(a, rest);
    assert s[..|a|] == a && s[|a|..] == " " + rest && (" " + rest)[1..] == rest;
    assert Words(" " + rest) == Words(rest);
    assert a[..|a|] == a && a[|a|..] == "";
  }

  lemma {:induction false} PieceEnds(a: string, rest: string, sep: char)
    requires forall i :: 0 <= i < |a| ==> a[i] != sep
    ensures SplitAt(a + [sep] + rest, sep) == [a] + SplitAt(rest, sep) && SplitAt(a, sep) == [a]
    decreases |a|
  {
    var s := a + [sep] + rest;
    if a == "" {
      assert s[1..] == rest;
    } else {
      PieceEnds(a[1..], rest, sep);
      assert s[1..] == a[1..] + [sep] + rest;
      assert [a[0]] + a[1..] == a;
    }
  }

  lemma PaddedPlain(n: nat, width: nat)
    ensures var s := Padded(n, width);
            Solid(s) && TrimEnd(TrimStart(s, ','), ',') == s && forall i :: 0 <= i < |s| ==> s[i] != ':'
  {
  }

  lemma TimePieces(a: string, b: string, c: string)
    requires forall i :: 0 <= i < |a| ==> a[i] != ':'
    requires forall i :: 0 <= i < |b| ==> b[i] != ':'
    requires forall i :: 0 <= i < |c| ==> c[i] != ':'
    ensures SplitAt(a + ":" + b + ":" + c, ':') == [a, b, c]
  {
    hide SplitAt;
    PieceEnds(a, b + ":" + c, ':');
    PieceEnds(b, c, ':');
    PieceEnds(c, "", ':');
    assert a + ":" + b + ":" + c == a + [':'] + (b + ":" + c) && b + ":" + c == b + [':'] + c;
  }

  lemma SolidTime(a: string, b: string, c: string)
    requires Solid(a) && Solid(b) && Solid(c)
    ensures Solid(a + ":" + b + ":" + c)
  {
  }

  lemma TimeParts(secs: nat)
    requires secs < 86_400
    ensures secs == secs / 3600 * 3600 + secs % 3600 / 60 * 60 + secs % 60
  {
  }

  lemma TimeReads(secs: nat)
    requires secs < 86_400
    ensures ParseTime(FormatTime(secs)) == Some(secs) && Solid(FormatTime(secs))
  {
    hide Padded, ParseNumber, SplitAt, Solid;
    var h, m, sec := secs / 3600, secs % 3600 / 60, secs % 60;
    TimeParts(secs);
    PaddedPlain(h, 2);
    PaddedPlain(m, 2);
    PaddedPlain(sec, 2);
    PaddedReads(h, 2);
    PaddedReads(m, 2);
    PaddedReads(sec, 2);
    TimePieces(Padded(h, 2), Padded(m, 2), Padded(sec, 2));
    SolidTime(Padded(h, 2), Padded(m, 2), Padded(sec, 2));
  }

  lemma MonthReads(month: nat)
    requires 1 <= month <= 12
    ensures MonthFrom(MonthName(month), 0) == Some(month) && Solid(MonthName(month))
  {
    hide MonthFrom;
    MonthFound(month - 1, 0);
    MonthSolid(month - 1);
  }

  lemma MonthSolid(k: nat)
    requires k < 12
    ensures Solid(MONTHS[k])
  {
  }

  lemma {:induction false} MonthFound(k: nat, i: nat)
    requires i <= k < 12
    ensures MonthFrom(MONTHS[k], i) == Some(k + 1)
    decreases k - i
  {
    if i < k {
      MonthsDiffer(i, k);
      MonthFound(k, i + 1);
    }
  }

  lemma MonthsDiffer(i: nat, k: nat)
    requires i < k < 12
    ensures !SameIgnoringCase(MONTHS[i], MONTHS[k])
  {
    var a, b := MONTHS[i], MONTHS[k];
    assert |a| == 3 && |b| == 3;
    assert AsciiLower(a[0]) != AsciiLower(b[0]) || AsciiLower(a[1]) != AsciiLower(b[1])
           || AsciiLower(a[2]) != AsciiLower(b[2]);
  }

  lemma SixWords(a: string, b: string, c: string, d: string, e: string, f: string)
    requires Solid(a) && Solid(b) && Solid(c) && Solid(d) && Solid(e) && Solid(f)
    ensures Words(a + " " + b + " " + c + " " + d + " " + e + " " + f) == [a, b, c, d, e, f]
  {
    hide Solid, Words;
    var s5 := e + " " + f;
    var s4 := d + " " + s5;
    var s3 := c + " " + s4;
    var s2 := b + " " + s3;
    assert a + " " + b + " " + c + " " + d + " " + e + " " + f == a + " " + s2;
    FirstWord(a, s2);
    FirstWord(b, s3);
    FirstWord(c, s4);
    FirstWord(d, s5);
    FirstWord(e, f);
    FirstWord(f, "");
  }

  lemma WeekdaySolid(k: nat)
    requires k < 7
    ensures Solid(WEEKDAYS[k] + ",")
  {
  }

  lemma DateReads(date: Date, days: nat, time: nat)
    requires 1 <= date.month <= 12 && date.day < U64_LIMIT && date.year < U64_LIMIT && time < 86_400
    requires DayNumber(date) == EPOCH_DAY + days
    ensures Combine(Padded(date.day, 2), MonthName(date.month), Padded(date.year, 4), FormatTime(time))
            == Some(days * 86_400 + time)
  {
    hide Padded, ParseNumber, ParseTime, FormatTime, MonthFrom, MonthName, DayNumber, Solid;
    PaddedPlain(date.day, 2);
    PaddedReads(date.day, 2);
    PaddedReads(date.year, 4);
    MonthReads(date.month);
    TimeReads(time);
    assert Date(date.year, date.month, date.day) == date;
  }

  /** Years and days are small enough to be read back. */
  lemma SmallDate(days: nat)
    requires days * 86_400 < U64_LIMIT
    ensures var d := CivilDate(days); 1 <= d.month <= 12 && d.day < U64_LIMIT && d.year < U64_LIMIT
  {
  }

  lemma AssembledWords(a: string, b: string, c: string, d: string, e: string)
    requires Solid(a + ",") && Solid(b) && Solid(c) && Solid(d) && Solid(e)
    ensures Words(Assemble(a, b, c, d, e)) == [a + ",", b, c, d, e, "GMT"]
  {
    assert Solid("GMT");
    hide Solid, Words;
    SixWords(a + ",", b, c, d, e, "GMT");
  }

  lemma FormatWords(secs: nat)
    requires secs < U64_LIMIT
    ensures var days := secs / 86_400; var date := CivilDate(days);
            && 1 <= date.month <= 12
            && Words(Format(secs)) == [WEEKDAYS[(days + 4) % 7] + ",", Padded(date.day, 2), MonthName(date.month),
                                       Padded(date.year, 4), FormatTime(secs % 86_400), "GMT"]
  {
    hide Padded, FormatTime, CivilDate, Solid, Words, MonthName, DayNumber, Assemble;
    var days := secs / 86_400;
    var date := CivilDate(days);
    DayNumberInverts(days);
    WeekdaySolid((days + 4) % 7);
    PaddedPlain(date.day, 2);
    PaddedPlain(date.year, 4);
    MonthReads(date.month);
    TimeReads(secs % 86_400);
    AssembledWords(WEEKDAYS[(days + 4) % 7], Padded(date.day, 2), MonthName(date.month), Padded(date.year, 4),
        FormatTime(secs % 86_400));
  }

  /** Every second since the epoch that fits in 64 bits survives being written and read. */
  lemma DateRoundTrip(secs: nat)
    requires secs < U64_LIMIT
    ensures Parse(Format(secs)) == Some(secs)
  {
    hide Format, Words, Combine, CivilDate, DayNumber, Padded, FormatTime, MonthName;
    var days := secs / 86_400;
    assert days * 86_400 + secs % 86_400 == secs;
    SmallDate(days);
    DayNumberInverts(days);
    FormatWords(secs);
    DateReads(CivilDate(days), days, secs % 86_400);
  }

  // ---------------------------------------------------------------- imperative form

  /** The date reached by counting days from 1 January 1970, computed with one variable reassigned on the way. */
  method ComputeDate(days: nat) returns (d: Date)
    ensures d == Counted(days) && Valid(d) && DayNumber(d) == EPOCH_DAY + days
  {
    hide Counted, DayNumber, Valid, CivilDate;
    d := StraightLine(days);
    CivilDateIsGregorian(days);
    CountedNumber(days);
  }

  /** The computation itself, one variable being used again and again. */
  method StraightLine(days: nat) returns (d: Date)
    ensures d == CivilDate(days)
  {
    InRange(days);
    var l: int := days + 68_569 + 2_440_588;
    var n := 4 * l / 146_097;
    l := l - (146_097 * n + 3) / 4;
    var i := 4000 * (l + 1) / 1_461_001;
    l := l - 1461 * i / 4 + 31;
    var j := 80 * l / 2447;
    var day := l - 2447 * j / 80;
    l := j / 11;
    var month := j + 2 - 12 * l;
    var year := 100 * (n - 49) + i + l;
    d := Date(year, month, day);
  }

  /** `format_http_date` */
  method FormatHttpDate(secs: nat) returns (s: string)
    ensures s == Format(secs)
    ensures secs < U64_LIMIT ==> Parse(s) == Some(secs)
  {
    hide Padded, MonthName, CivilDate, FormatTime, DayNumber, Assemble, Parse, Counted;
    var days := secs / 86_400;
    var date := ComputeDate(days);
    CivilDateIsGregorian(days);
    DayNumberInverts(days);
    s := Assemble(WEEKDAYS[(days + 4) % 7], Padded(date.day, 2), MonthName(date.month), Padded(date.year, 4),
        FormatTime(secs % 86_400));
    if secs < U64_LIMIT {
      DateRoundTrip(secs);
    }
  }
}
