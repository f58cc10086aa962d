/**
 The day-number arithmetic behind HTTP dates (src/router/handler.rs): the forward algorithm from days since the
 epoch to a date, the inverse formula, and the Gregorian calendar they are both measured against.
 */
module Calendar {
  datatype Date = Date(year: nat, month: nat, day: nat)

  const EPOCH_DAY := 2_440_588

  // ---------------------------------------------------------------- the two algorithms

  /** `format_http_date`: the date a number of days after 1970-01-01. */
  function CivilDate(days: nat): Date {
    var l0 := days + 68_569 + 2_440_588;
    var n := 4 * l0 / 146_097;
    var l1 := l0 - (146_097 * n + 3) / 4;
    var i := 4000 * (l1 + 1) / 1_461_001;
    var l2 := l1 - 1461 * i / 4 + 31;
    var j := 80 * l2 / 2447;
    var l3 := j / 11;
    InRange(days);
    Date(100 * (n - 49) + i + l3, j + 2 - 12 * l3, l2 - 2447 * j / 80)
  }

  /** `parse_http_date`: the Julian day number of a date. */
  function DayNumber(d: Date): int
    requires 1 <= d.month <= 12
  {
    var a := (14 - d.month) / 12;
    var y := d.year + 4800 - a;
    var m := d.month + 12 * a - 3;
    d.day + (153 * m + 2) / 5 + 365 * y + y / 4 - y / 100 + y / 400 - 32_045
  }

  // ---------------------------------------------------------------- the parts of the forward algorithm

  /** The century (from March to March) a shifted day is in, and the day of that century. */
  lemma CenturyParts(l0: nat)
    ensures var n := 4 * l0 / 146_097; var l1 := l0 - (146_097 * n + 3) / 4;
            && (146_097 * n + 3) / 4 == 36_524 * n + (n + 3) / 4
            && 0 <= l1 <= 36_524 && (l1 == 36_524 ==> n % 4 == 0)
  {
  }

  /** The year of the century, and the day of that year. */
  lemma YearParts(l1: nat)
    requires l1 <= 36_524
    ensures var i := 4000 * (l1 + 1) / 1_461_001; var r := l1 - 1461 * i / 4;
            && 0 <= i <= 99 && 1461 * i / 4 == 365 * i + i / 4
            && 0 <= r <= 365 && (r == 365 ==> i % 4 == 3 && (i == 99 ==> l1 == 36_524))
  {
  }

  /** The month (March is 1) and the day of the month. */
  lemma MonthParts(l2: nat)
    requires 31 <= l2 <= 396
    ensures var j := 80 * l2 / 2447; var day := l2 - 2447 * j / 80;
            && 1 <= j <= 12 && day >= 1 && (153 * (j - 1) + 2) / 5 == 2447 * j / 80 - 30
            && day <= (if j == 12 then 29 else if j == 2 || j == 4 || j == 7 || j == 9 then 30 else 31)
            && (j == 12 ==> day == l2 - 367)
  {
  }

  lemma InRange(days: nat)
    ensures var l0 := days + 68_569 + 2_440_588;
            var n := 4 * l0 / 146_097;
            var l1 := l0 - (146_097 * n + 3) / 4;
            var i := 4000 * (l1 + 1) / 1_461_001;
            var l2 := l1 - 1461 * i / 4 + 31;
            var j := 80 * l2 / 2447;
            && n >= 49 && l1 >= 0 && i >= 0 && l2 >= 0 && j + 2 - 12 * (j / 11) >= 0 && l2 - 2447 * j / 80 >= 0
  {
  }

  // ---------------------------------------------------------------- the day number is the inverse

  /** Years from March to March: the days before year y. */
  function YearStart(y: nat): int {
    365 * y + y / 4 - y / 100 + y / 400
  }

  lemma CenturyStart(n: nat, i: nat)
    requires n >= 1 && i <= 99
    ensures YearStart(100 * (n - 1) + i) == 36_524 * (n - 1) + (n - 1) / 4 + 365 * i + i / 4
  {
    var y := 100 * (n - 1) + i;
    assert y / 4 == 25 * (n - 1) + i / 4;
    assert y / 100 == n - 1;
    assert y / 400 == (n - 1) / 4 by {
      var q, c := (n - 1) / 4, (n - 1) % 4;
      assert y == 400 * q + (100 * c + i) && 0 <= 100 * c + i < 400;
    }
  }

  /** What the forward algorithm computes on the way, with the ranges everything falls in. */
  datatype Parts = Parts(n: nat, l1: nat, i: nat, l2: nat, j: nat)

  function PartsOf(days: nat): Parts {
    var l0 := days + 68_569 + 2_440_588;
    var n := 4 * l0 / 146_097;
    var l1 := l0 - (146_097 * n + 3) / 4;
    var i := 4000 * (l1 + 1) / 1_461_001;
    var l2 := l1 - 1461 * i / 4 + 31;
    InRange(days);
    Parts(n, l1, i, l2, 80 * l2 / 2447)
  }

  /** Everything about the parts that the proofs need: no division left but n/4, i/4 and j/11. */
  lemma PartsFacts(days: nat)
    ensures var p := PartsOf(days);
            && p.n >= 49 && p.l1 <= 36_524 && p.i <= 99 && 1 <= p.j <= 12
            && days + 68_569 + 2_440_588 == p.l1 + 36_524 * p.n + (p.n + 3) / 4
            && p.l2 == p.l1 - (365 * p.i + p.i / 4) + 31 && 31 <= p.l2 <= 396
            && (p.l2 == 396 ==> p.i % 4 == 3 && (p.i == 99 ==> p.n % 4 == 0))
    ensures var p := PartsOf(days); var c := CivilDate(days); var day := p.l2 - 30 - (153 * (p.j - 1) + 2) / 5;
            && c == Date(100 * (p.n - 49) + p.i + p.j / 11, p.j + 2 - 12 * (p.j / 11), day)
            && 1 <= day <= (if p.j == 12 then 29 else if p.j == 2 || p.j == 4 || p.j == 7 || p.j == 9 then 30 else 31)
            && (p.j == 12 ==> day == p.l2 - 367)
  {
    var l0 := days + 68_569 + 2_440_588;
    var p := PartsOf(days);
    assert p.n >= 49;
    CenturyParts(l0);
    YearParts(p.l1);
    MonthParts(p.l2);
  }

  /** For every day since the epoch, the day number of its date is that day. */
  lemma DayNumberInverts(days: nat)
    ensures var d := CivilDate(days); 1 <= d.month <= 12 && DayNumber(d) == EPOCH_DAY + days
  {
    var p, d := PartsOf(days), CivilDate(days);
    PartsFacts(days);
    hide PartsOf, CivilDate;
    CenturyStart(p.n, p.i);
    var a := (14 - d.month) / 12;
    assert a == p.j / 11;
    assert d.year + 4800 - a == 100 * (p.n - 1) + p.i && d.month + 12 * a - 3 == p.j - 1;
    assert (p.n + 3) / 4 == (p.n - 1) / 4 + 1;
  }

  // ---------------------------------------------------------------- the Gregorian calendar

  predicate Leap(year: nat) {
    year % 4 == 0 && (year % 100 != 0 || year % 400 == 0)
  }

  function DaysIn(month: nat, year: nat): nat {
    if month == 2 then (if Leap(year) then 29 else 28)
    else if month == 4 || month == 6 || month == 9 || month == 11 then 30
    else 31
  }

  predicate Valid(d: Date) {
    1 <= d.month <= 12 && 1 <= d.day <= DaysIn(d.month, d.year)
  }

  function NextDay(d: Date): Date {
    if d.day < DaysIn(d.month, d.year) then Date(d.year, d.month, d.day + 1)
    else if d.month < 12 then Date(d.year, d.month + 1, 1)
    else Date(d.year + 1, 1, 1)
  }

  /** The calendar, a day at a time. */
  function Counted(days: nat): Date {
    if days == 0 then Date(1970, 1, 1) else NextDay(Counted(days - 1))
  }

  lemma LeapByCentury(n: nat, i: nat)
    requires n >= 49 && i % 4 == 3 && i <= 99 && (i == 99 ==> n % 4 == 0)
    ensures Leap(100 * (n - 49) + i + 1)
  {
    var year := 100 * (n - 49) + i + 1;
    assert year % 4 == (i + 1) % 4 by { assert year == 4 * (25 * (n - 49) + (i + 1) / 4) + (i + 1) % 4; }
    if i == 99 {
      assert year == 100 * (n - 48);
      var q := n / 4;
      assert n == 4 * q && year == 400 * (q - 12);
    } else {
      assert year % 100 == i + 1;
    }
  }

  lemma CivilDateValid(days: nat)
    ensures Valid(CivilDate(days))
  {
    var p, d := PartsOf(days), CivilDate(days);
    PartsFacts(days);
    hide PartsOf, CivilDate, Leap;
    if p.j == 12 && d.day == 29 {
      LeapByCentury(p.n, p.i);
    }
    assert p.j in {1, 2, 3, 4, 5, 6, 7, 8, 9, 10, 11, 12};
  }

  lemma YearLength(y: nat)
    ensures YearStart(y + 1) - YearStart(y) == if Leap(y + 1) then 366 else 365
  {
    DivStep(y, 4);
    DivStep(y, 100);
    DivStep(y, 400);
    assert (y + 1) % 400 == 0 ==> (y + 1) % 100 == 0;
    assert (y + 1) % 100 == 0 ==> (y + 1) % 4 == 0;
  }

  lemma DivStep(y: nat, k: nat)
    requires k > 1
    ensures (y + 1) / k == y / k + if (y + 1) % k == 0 then 1 else 0
  {
    var q, r := y / k, y % k;
    assert y == k * q + r;
    if r + 1 == k {
      assert y + 1 == k * (q + 1) + 0;
      DivUnique(y + 1, k, q + 1, 0);
    } else {
      DivUnique(y + 1, k, q, r + 1);
    }
  }

  lemma DivUnique(x: nat, k: nat, q: nat, r: nat)
    requires k > 0 && x == k * q + r && r < k
    ensures x / k == q && x % k == r
  {
    var d := x / k - q;
    assert k * d == r - x % k;
    assert d > 0 ==> k * d >= k;
    assert d < 0 ==> k * d <= 0 - k;
  }

  /** Where a date lies: its March year, its month counted from March, and the days before that month. */
  function MarchYear(d: Date): nat
    requires 1 <= d.month <= 12
  {
    d.year + 4800 - (14 - d.month) / 12
  }

  function MarchMonth(d: Date): nat
    requires 1 <= d.month <= 12
  {
    d.month + 12 * ((14 - d.month) / 12) - 3
  }

  function DaysBefore(m: nat): nat {
    (153 * m + 2) / 5
  }

  lemma MonthLength(d: Date)
    requires 1 <= d.month <= 12
    ensures var m := MarchMonth(d);
            && m <= 11
            && (m < 11 ==> DaysBefore(m + 1) == DaysBefore(m) + DaysIn(d.month, d.year))
            && (m == 11 ==> d.month == 2 && DaysBefore(11) == 337 && MarchYear(d) + 1 == d.year + 4800)
  {
  }

  lemma ModShift(x: nat, k: nat, q: nat)
    requires k > 0
    ensures (x + k * q) % k == x % k
  {
    DivUnique(x + k * q, k, x / k + q, x % k);
  }

  lemma LeapShift(year: nat)
    ensures Leap(year + 4800) == Leap(year)
  {
    ModShift(year, 4, 1200);
    ModShift(year, 100, 48);
    ModShift(year, 400, 12);
  }

  /** A day number by the parts of its date. */
  lemma NumberByParts(d: Date)
    requires 1 <= d.month <= 12
    ensures DayNumber(d) == YearStart(MarchYear(d)) + DaysBefore(MarchMonth(d)) + d.day - 32_045
  {
  }

  /** The first of the next month follows the last of this one. */
  lemma NextMonth(d: Date)
    requires Valid(d) && d.day == DaysIn(d.month, d.year)
    ensures Valid(NextDay(d)) && DayNumber(NextDay(d)) == DayNumber(d) + 1
  {
    hide DayNumber, YearStart, Leap;
    var e := NextDay(d);
    MonthLength(d);
    NumberByParts(d);
    NumberByParts(e);
    if d.month == 2 {
      YearLength(MarchYear(d));
      LeapShift(d.year);
      assert MarchYear(e) == MarchYear(d) + 1 && MarchMonth(e) == 0;
    } else {
      assert MarchYear(e) == MarchYear(d) && MarchMonth(e) == MarchMonth(d) + 1;
    }
  }

  /** The next date has the next number. */
  lemma NextDayNumber(d: Date)
    requires Valid(d)
    ensures Valid(NextDay(d)) && DayNumber(NextDay(d)) == DayNumber(d) + 1
  {
    if d.day == DaysIn(d.month, d.year) {
      NextMonth(d);
    }
  }

  lemma {:induction false} YearsGrow(a: nat, b: nat)
    requires a <= b
    ensures YearStart(a) <= YearStart(b)
    decreases b - a
  {
  }

  /** A date's day lies within its month, and its month within its year. */
  lemma WithinYear(d: Date)
    requires Valid(d)
    ensures var m := MarchMonth(d);
            && m <= 11 && (m < 11 ==> DaysBefore(m) + d.day <= DaysBefore(m + 1))
            && YearStart(MarchYear(d)) + DaysBefore(m) + d.day <= YearStart(MarchYear(d) + 1)
  {
    MonthLength(d);
    YearLength(MarchYear(d));
    LeapShift(d.year);
    hide YearStart, Leap;
    assert MarchMonth(d) in {0, 1, 2, 3, 4, 5, 6, 7, 8, 9, 10, 11};
  }

  lemma SameYear(a: Date, b: Date)
    requires Valid(a) && Valid(b) && DayNumber(a) == DayNumber(b)
    ensures MarchYear(a) >= MarchYear(b)
  {
    hide DayNumber, YearStart, DaysIn, MarchYear, MarchMonth;
    NumberByParts(a);
    NumberByParts(b);
    WithinYear(a);
    if MarchYear(a) < MarchYear(b) {
      YearsGrow(MarchYear(a) + 1, MarchYear(b));
      assert false;
    }
  }

  lemma MonthsGrow(a: nat, b: nat)
    requires a <= b <= 11
    ensures DaysBefore(a) <= DaysBefore(b)
  {
  }

  lemma SameMonth(a: Date, b: Date)
    requires Valid(a) && Valid(b) && DayNumber(a) == DayNumber(b) && MarchYear(a) == MarchYear(b)
    ensures MarchMonth(a) >= MarchMonth(b)
  {
    hide DayNumber, YearStart, DaysIn, MarchYear, MarchMonth, DaysBefore;
    NumberByParts(a);
    NumberByParts(b);
    WithinYear(a);
    WithinYear(b);
    if MarchMonth(a) < MarchMonth(b) {
      MonthsGrow(MarchMonth(a) + 1, MarchMonth(b));
      assert false;
    }
  }

  /** No two dates share a day number. */
  lemma DayNumberInjective(a: Date, b: Date)
    requires Valid(a) && Valid(b) && DayNumber(a) == DayNumber(b)
    ensures a == b
  {
    SameYear(a, b);
    SameYear(b, a);
    SameMonth(a, b);
    SameMonth(b, a);
    NumberByParts(a);
    NumberByParts(b);
    hide DayNumber, YearStart, DaysIn, DaysBefore;
  }

  lemma {:induction false} CountedNumber(days: nat)
    ensures Valid(Counted(days)) && DayNumber(Counted(days)) == EPOCH_DAY + days
  {
    if days > 0 {
      CountedNumber(days - 1);
      NextDayNumber(Counted(days - 1));
    }
  }

  /** The forward algorithm gives the Gregorian date, for every day since the epoch. */
  lemma CivilDateIsGregorian(days: nat)
    ensures CivilDate(days) == Counted(days)
  {
    hide CivilDate, Counted, DayNumber, Valid;
    CivilDateValid(days);
    DayNumberInverts(days);
    CountedNumber(days);
    DayNumberInjective(CivilDate(days), Counted(days));
  }
}
