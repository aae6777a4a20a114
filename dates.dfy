/** The part of JavaScript's `Date` that the calendar and the scheduler rely on,
    for the proleptic Gregorian calendar: month lengths, day numbers counted from
    1 January 1970, weekdays, the `YYYY-MM-DD` keys and `HH:MM` times that the
    forms produce, and the minute at which an appointment starts.  Months are
    numbered 0..11 as `Date.getMonth()` numbers them.  Time zones are not modelled:
    a date-time denotes the same minute wherever it is read. */
module Dates {
  import opened Common

  predicate IsLeap(y: int) {
    (y % 4 == 0 && y % 100 != 0) || y % 400 == 0
  }

  /** `new Date(year, month + 1, 0).getDate()`: the last day of month `m`. */
  function DaysInMonth(y: int, m: int): (n: nat)
    requires 0 <= m < 12
    ensures 28 <= n <= 31
    ensures n == 29 <==> m == 1 && IsLeap(y)
    ensures n == 31 <==> m in {0, 2, 4, 6, 7, 9, 11}
  {
    if m == 1 then (if IsLeap(y) then 29 else 28)
    else if m == 3 || m == 5 || m == 8 || m == 10 then 30
    else 31
  }

  /** Leap years among 0 .. y - 1 minus those among 0 .. 1969 (floor division throughout). */
  function LeapsBefore(y: int): int {
    (y + 3) / 4 - (y + 99) / 100 + (y + 399) / 400
  }

  /** Day number of 1 January of year `y`. */
  function YearStart(y: int): int {
    365 * (y - 1970) + LeapsBefore(y) - LeapsBefore(1970)
  }

  /** Days of year `y` before the first of month `m`. */
  function DaysBeforeMonth(y: int, m: int): nat
    requires 0 <= m <= 12
  {
    var table := [0, 31, 59, 90, 120, 151, 181, 212, 243, 273, 304, 334, 365];
    table[m] + (if m >= 2 && IsLeap(y) then 1 else 0)
  }

  /** Days since 1 January 1970 of the date (y, m, d); d may run past the month,
      as the `Date` constructor allows. */
  function DayNumber(y: int, m: int, d: int): int
    requires 0 <= m < 12
  {
    YearStart(y) + DaysBeforeMonth(y, m) + d - 1
  }

  /** `getDay()`: 0 is Sunday.  1 January 1970 was a Thursday. */
  function Weekday(y: int, m: int, d: int): (w: nat)
    requires 0 <= m < 12
    ensures w < 7
  {
    (DayNumber(y, m, d) + 4) % 7
  }

  lemma QuarterStep(y: int)
    ensures (y + 4) / 4 == (y + 3) / 4 + (if y % 4 == 0 then 1 else 0)
  {
    var q := y / 4;
    assert y == 4 * q + y % 4;
  }

  lemma CenturyStep(y: int)
    ensures (y + 100) / 100 == (y + 99) / 100 + (if y % 100 == 0 then 1 else 0)
  {
    var q := y / 100;
    assert y == 100 * q + y % 100;
  }

  lemma QuadCenturyStep(y: int)
    ensures (y + 400) / 400 == (y + 399) / 400 + (if y % 400 == 0 then 1 else 0)
  {
    var q := y / 400;
    assert y == 400 * q + y % 400;
  }

  lemma LeapsStep(y: int)
    ensures LeapsBefore(y + 1) - LeapsBefore(y) == if IsLeap(y) then 1 else 0
  {
    QuarterStep(y);
    CenturyStep(y);
    QuadCenturyStep(y);
    DivisibilityChain(y);
    var a, b, c := (y + 3) / 4, (y + 99) / 100, (y + 399) / 400;
    var da, db, dc := (if y % 4 == 0 then 1 else 0), (if y % 100 == 0 then 1 else 0), (if y % 400 == 0 then 1 else 0);
    assert LeapsBefore(y + 1) - LeapsBefore(y) == da - db + dc;
  }

  lemma DivisibilityChain(y: int)
    ensures y % 100 == 0 ==> y % 4 == 0
    ensures y % 400 == 0 ==> y % 100 == 0
  {
    if y % 100 == 0 {
      HundredIsQuarter(y);
    }
    if y % 400 == 0 {
      QuadIsHundred(y);
    }
  }

  lemma HundredIsQuarter(y: int)
    requires y % 100 == 0
    ensures y % 4 == 0
  {
    var q := y / 100;
    assert y == 100 * q;
    var z := 25 * q;
    assert y == 4 * z;
  }

  lemma QuadIsHundred(y: int)
    requires y % 400 == 0
    ensures y % 100 == 0
  {
    var q := y / 400;
    assert y == 400 * q;
    var z := 4 * q;
    assert y == 100 * z;
  }

  /** A year has 365 days, 366 in a leap year. */
  lemma YearLength(y: int)
    ensures YearStart(y + 1) - YearStart(y) == if IsLeap(y) then 366 else 365
  {
    LeapsStep(y);
  }

  /** Month lengths and day numbers agree: the first of the next month (wrapping
      into January of the next year) is `DaysInMonth` days after the first of this one. */
  lemma NextMonthStart(y: int, m: int)
    requires 0 <= m < 12
    ensures var (ny, nm) := if m == 11 then (y + 1, 0) else (y, m + 1);
            DayNumber(ny, nm, 1) == DayNumber(y, m, 1) + DaysInMonth(y, m)
  {
    if m == 11 {
      YearLength(y);
    }
  }

  /** Consecutive month grids fit together: the next month starts on the weekday
      after the last day of this one. */
  lemma NextMonthWeekday(y: int, m: int)
    requires 0 <= m < 12
    ensures var (ny, nm) := if m == 11 then (y + 1, 0) else (y, m + 1);
            Weekday(ny, nm, 1) == (Weekday(y, m, 1) + DaysInMonth(y, m)) % 7
  {
    NextMonthStart(y, m);
    ModAdd(DayNumber(y, m, 1) + 4, DaysInMonth(y, m));
  }

  lemma ModAdd(a: int, b: int)
    ensures (a + b) % 7 == (a % 7 + b) % 7
  {
    var q := a / 7;
    assert a == q * 7 + a % 7;
    assert a + b == q * 7 + (a % 7 + b);
  }

  lemma EpochAnchors()
    ensures DayNumber(1970, 0, 1) == 0 && Weekday(1970, 0, 1) == 4
    ensures DayNumber(2000, 0, 1) == 10957 && Weekday(2000, 0, 1) == 6
    ensures Weekday(2024, 0, 1) == 1
  {
    assert LeapsBefore(1970) == 478;
    assert LeapsBefore(2000) == 485;
    assert LeapsBefore(2024) == 491;
    assert DayNumber(2024, 0, 1) == 19723;
  }

  /** The calendar's `${year}-${String(month + 1).padStart(2, '0')}-${String(day).padStart(2, '0')}`. */
  function DateKey(y: int, m: nat, d: nat): string {
    IntToString(y) + "-" + Pad2(NatToString(m + 1)) + "-" + Pad2(NatToString(d))
  }

  /** Reads a `YYYY-MM-DD` key back into (year, month 0..11, day); None when malformed. */
  function ParseDateKey(s: string): Option<(nat, nat, nat)> {
    var n := |s|;
    if n < 7 || s[n - 3] != '-' || s[n - 6] != '-' then None
    else if !AllDigits(s[..n - 6]) || !AllDigits(s[n - 5..n - 3]) || !AllDigits(s[n - 2..]) then None
    else
      var month := ParseNat(s[n - 5..n - 3]);
      if month < 1 || month > 12 then None
      else Some((ParseNat(s[..n - 6]), month - 1, ParseNat(s[n - 2..])))
  }

  /** The date key has the shape YYYY-MM-DD: the year, a dash, two month digits,
      a dash, two day digits, and it reads back as the date it was made from. */
  lemma DateKeyRoundTrip(y: nat, m: nat, d: nat)
    requires m < 12 && d < 100
    ensures var k := DateKey(y, m, d);
            |k| == |NatToString(y)| + 6 && k[|k| - 3] == '-' && k[|k| - 6] == '-'
    ensures ParseDateKey(DateKey(y, m, d)) == Some((y, m, d))
  {
    var ys, ms, ds := NatToString(y), Pad2(NatToString(m + 1)), Pad2(NatToString(d));
    TwoDigitField(m + 1);
    TwoDigitField(d);
    ParseNatToString(y);
    KeyPieces(ys, ms, ds);
  }

  lemma KeyPieces(ys: string, ms: string, ds: string)
    requires |ms| == 2 && |ds| == 2
    ensures var k := ys + "-" + ms + "-" + ds;
            |k| == |ys| + 6 && k[|k| - 3] == '-' && k[|k| - 6] == '-' &&
            k[..|k| - 6] == ys && k[|k| - 5..|k| - 3] == ms && k[|k| - 2..] == ds
  {
  }

  /** Minutes after midnight of an `HH:MM` time; None when malformed. */
  function ParseTime(t: string): (r: Option<nat>)
    ensures r.Some? ==> r.value < 24 * 60
  {
    if |t| != 5 || t[2] != ':' || !AllDigits(t[..2]) || !AllDigits(t[3..]) then None
    else
      var h, mi := ParseNat(t[..2]), ParseNat(t[3..]);
      if h < 24 && mi < 60 then Some(h * 60 + mi) else None
  }

  /** `new Date(date + 'T' + time)` as whole minutes since the epoch. */
  function StartMinute(date: string, time: string): Option<int> {
    match (ParseDateKey(date), ParseTime(time))
    case (Some((y, m, d)), Some(t)) => Some(DayNumber(y, m, d) * 1440 + t)
    case _ => None
  }

  /** Code-unit lexicographic order, which is how `localeCompare` orders strings
      made of digits and a colon. */
  predicate TextLe(a: string, b: string) {
    a == [] || (b != [] && (a[0] < b[0] || (a[0] == b[0] && TextLe(a[1..], b[1..]))))
  }

  /** The minute-of-day key the day view sorts on; a malformed time sorts first. */
  function TimeKey(t: string): int {
    match ParseTime(t)
    case Some(m) => m
    case None => -1
  }

  /** For well-formed `HH:MM` times, ordering by minute of day is ordering by text,
      and equal minutes mean equal text; so sorting by `TimeKey` is sorting by
      `localeCompare`. */
  lemma TimeKeyMatchesText(a: string, b: string)
    requires ParseTime(a).Some? && ParseTime(b).Some?
    ensures TimeKey(a) <= TimeKey(b) <==> TextLe(a, b)
    ensures TimeKey(a) == TimeKey(b) ==> a == b
  {
    var a0, a1, a3, a4 := DigitValue(a[0]), DigitValue(a[1]), DigitValue(a[3]), DigitValue(a[4]);
    var b0, b1, b3, b4 := DigitValue(b[0]), DigitValue(b[1]), DigitValue(b[3]), DigitValue(b[4]);
    TwoDigits(a[..2]);
    TwoDigits(a[3..]);
    TwoDigits(b[..2]);
    TwoDigits(b[3..]);
    assert TimeKey(a) == (10 * a0 + a1) * 60 + 10 * a3 + a4;
    assert TimeKey(b) == (10 * b0 + b1) * 60 + 10 * b3 + b4;
    assert a3 < 6 && b3 < 6;
    assert a[0] < b[0] <==> a0 < b0;
    assert a[1] < b[1] <==> a1 < b1;
    assert a[3] < b[3] <==> a3 < b3;
    assert a[4] < b[4] <==> a4 < b4;
    assert a[1..][1..] == a[2..] && b[1..][1..] == b[2..];
    assert a[2..][1..] == a[3..] && b[2..][1..] == b[3..];
    assert a[3..][1..] == a[4..] && b[3..][1..] == b[4..];
    assert a[4..][1..] == [] && b[4..][1..] == [];
    assert TextLe(a[4..], b[4..]) <==> a4 <= b4;
    assert TextLe(a[3..], b[3..]) <==> a3 < b3 || (a3 == b3 && a4 <= b4);
    assert TextLe(a[2..], b[2..]) <==> TextLe(a[3..], b[3..]);
    assert TextLe(a[1..], b[1..]) <==> a1 < b1 || (a1 == b1 && TextLe(a[2..], b[2..]));
    assert TextLe(a, b) <==> a0 < b0 || (a0 == b0 && TextLe(a[1..], b[1..]));
    if TimeKey(a) == TimeKey(b) {
      assert a0 == b0 && a1 == b1 && a3 == b3 && a4 == b4;
      assert a == [a[0], a[1], a[2], a[3], a[4]] && b == [b[0], b[1], b[2], b[3], b[4]];
    }
  }

  lemma TwoDigits(s: string)
    requires |s| == 2 && AllDigits(s)
    ensures ParseNat(s) == 10 * DigitValue(s[0]) + DigitValue(s[1])
  {
    assert s[..1] == [s[0]];
  }
}
