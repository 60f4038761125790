/**
 * Calendar dates as the app's `Date` arithmetic uses them: local midnight
 * dates in the proleptic Gregorian calendar, numbered by days since
 * 1970-01-01, with `new Date(y, m - 1, d)` overflow normalisation, the
 * `YYYY-MM-DD` text form the pages store and compare, and the week and
 * month starts the chat assistant and the dashboard compute.
 */
module Dates {
  import opened Wrappers
  import opened Strings

  datatype Date = Date(year: int, month: int, day: int)

  predicate IsLeap(y: int) { y % 4 == 0 && (y % 100 != 0 || y % 400 == 0) }

  function YearLength(y: int): int { if IsLeap(y) then 366 else 365 }

  function DaysInMonth(y: int, m: int): (n: int)
    requires 1 <= m <= 12
    ensures 28 <= n <= 31
  {
    if m == 2 then (if IsLeap(y) then 29 else 28)
    else if m == 4 || m == 6 || m == 9 || m == 11 then 30
    else 31
  }

  predicate Valid(d: Date) { 1 <= d.month <= 12 && 1 <= d.day <= DaysInMonth(d.year, d.month) }

  /** Leap years in the years before `y`, counted from a fixed origin. */
  function LeapsBefore(y: int): int { (y - 1) / 4 - (y - 1) / 100 + (y - 1) / 400 }

  /** Days from the origin to 1 January of year `y`. */
  function DaysBeforeYear(y: int): int { 365 * y + LeapsBefore(y) }

  lemma NextYear(y: int)
    ensures DaysBeforeYear(y + 1) == DaysBeforeYear(y) + YearLength(y)
  {
    assert y / 4 - (y - 1) / 4 == (if y % 4 == 0 then 1 else 0);
    assert y / 100 - (y - 1) / 100 == (if y % 100 == 0 then 1 else 0);
    assert y / 400 - (y - 1) / 400 == (if y % 400 == 0 then 1 else 0);
  }

  /** Days of year `y` before the first of month `m`. */
  function DaysBeforeMonth(y: int, m: int): (n: int)
    requires 1 <= m <= 12
    ensures 0 <= n <= 335
  {
    [0, 31, 59, 90, 120, 151, 181, 212, 243, 273, 304, 334][m - 1] + (if m > 2 && IsLeap(y) then 1 else 0)
  }

  lemma NextMonth(y: int, m: int)
    requires 1 <= m < 12
    ensures DaysBeforeMonth(y, m + 1) == DaysBeforeMonth(y, m) + DaysInMonth(y, m)
  {
  }

  lemma DecemberEnd(y: int)
    ensures DaysBeforeMonth(y, 12) + 31 == YearLength(y)
  {
  }

  const EpochDays: int := DaysBeforeYear(1970)

  /** Days since 1970-01-01 of a valid date: what `getTime()` orders by. */
  function DayNumber(d: Date): int
    requires Valid(d)
  {
    DaysBeforeYear(d.year) + DaysBeforeMonth(d.year, d.month) + d.day - 1 - EpochDays
  }

  /** `new Date(y, m - 1, d)` for any integers: months and days outside their range roll over. */
  function DayNumberOf(y: int, m: int, d: int): (n: int)
    ensures 1 <= m <= 12 && 1 <= d <= DaysInMonth(y, m) ==> n == DayNumber(Date(y, m, d))
  {
    var y2 := y + (m - 1) / 12;
    var m2 := (m - 1) % 12 + 1;
    DaysBeforeYear(y2) + DaysBeforeMonth(y2, m2) + d - 1 - EpochDays
  }

  /** The two-argument `Date` constructor reads years 0 to 99 as 1900 to 1999. */
  function JsYear(y: int): int { if 0 <= y <= 99 then 1900 + y else y }

  /** `getDay()`: 0 is Sunday; 1970-01-01 was a Thursday. */
  function Weekday(n: int): (w: int)
    ensures 0 <= w < 7
  {
    (n + 4) % 7
  }

  lemma WeekdayShift(n: int, k: int)
    ensures Weekday(n + k) == (Weekday(n) + k) % 7
  {
    var q := (n + 4) / 7;
    assert n + 4 == 7 * q + Weekday(n);
    assert n + k + 4 == 7 * q + (Weekday(n) + k);
  }

  /** The day after `d`. */
  function NextDay(d: Date): (r: Date)
    requires Valid(d)
    ensures Valid(r) && r.year >= d.year
  {
    if d.day < DaysInMonth(d.year, d.month) then Date(d.year, d.month, d.day + 1)
    else if d.month < 12 then Date(d.year, d.month + 1, 1)
    else Date(d.year + 1, 1, 1)
  }

  lemma NextDayNumber(d: Date)
    requires Valid(d)
    ensures DayNumber(NextDay(d)) == DayNumber(d) + 1
  {
    if d.day == DaysInMonth(d.year, d.month) {
      if d.month < 12 {
        NextMonth(d.year, d.month);
      } else {
        NextYear(d.year);
        DecemberEnd(d.year);
      }
    }
  }

  /** The day before `d`. */
  function PrevDay(d: Date): (r: Date)
    requires Valid(d)
    ensures Valid(r)
  {
    if d.day > 1 then Date(d.year, d.month, d.day - 1)
    else if d.month > 1 then Date(d.year, d.month - 1, DaysInMonth(d.year, d.month - 1))
    else Date(d.year - 1, 12, 31)
  }

  lemma PrevDayNumber(d: Date)
    requires Valid(d)
    ensures DayNumber(PrevDay(d)) == DayNumber(d) - 1
  {
    if d.day == 1 {
      if d.month > 1 {
        NextMonth(d.year, d.month - 1);
      } else {
        NextYear(d.year - 1);
        DecemberEnd(d.year - 1);
      }
    }
  }

  /** `setDate(getDate() + n)`: the date `n` days later (earlier when `n` is negative). */
  function AddDays(d: Date, n: int): (r: Date)
    requires Valid(d)
    ensures Valid(r) && DayNumber(r) == DayNumber(d) + n
    ensures n >= 0 ==> r.year >= d.year
    decreases if n < 0 then -n else n
  {
    if n == 0 then d
    else if n > 0 then
      NextDayNumber(d);
      AddDays(NextDay(d), n - 1)
    else
      PrevDayNumber(d);
      AddDays(PrevDay(d), n + 1)
  }

  /** `(day === 0 ? -6 : 1) - day`: the step back from day `n` to its week's Monday. */
  function MondayOffset(n: int): (k: int)
    ensures -6 <= k <= 0 && Weekday(n + k) == 1
  {
    var day := Weekday(n);
    var diff := (if day == 0 then -6 else 1) - day;
    WeekdayShift(n, diff);
    diff
  }

  /** `-getDay()`: the step back from day `n` to its week's Sunday. */
  function SundayOffset(n: int): (k: int)
    ensures -6 <= k <= 0 && Weekday(n + k) == 0
  {
    WeekdayShift(n, -Weekday(n));
    -Weekday(n)
  }

  /** `startOfWeekISO`: the Monday on or before `d`. */
  function StartOfWeekMonday(d: Date): (r: Date)
    requires Valid(d)
    ensures Valid(r) && Weekday(DayNumber(r)) == 1
    ensures DayNumber(d) - 6 <= DayNumber(r) <= DayNumber(d)
  {
    AddDays(d, MondayOffset(DayNumber(d)))
  }

  /** The Dashboard's `startOfWeek`: the Sunday on or before `d`. */
  function StartOfWeekSunday(d: Date): (r: Date)
    requires Valid(d)
    ensures Valid(r) && Weekday(DayNumber(r)) == 0
    ensures DayNumber(d) - 6 <= DayNumber(r) <= DayNumber(d)
  {
    AddDays(d, SundayOffset(DayNumber(d)))
  }

  /** `startOfMonthISO`: the first day of `d`'s month. */
  function StartOfMonth(d: Date): (r: Date)
    requires Valid(d)
    ensures Valid(r) && r.year == d.year && r.month == d.month && r.day == 1
    ensures DayNumber(d) - DayNumber(r) == d.day - 1
  {
    Date(d.year, d.month, 1)
  }

  // ---------------------------------------------------------------- text form

  /** `${getFullYear()}-${pad2(getMonth() + 1)}-${pad2(getDate())}`. */
  function FormatIso(d: Date): string
    requires Valid(d)
  {
    IntToString(d.year) + "-" + Pad2(d.month as nat) + "-" + Pad2(d.day as nat)
  }

  /** Where the year, month and day sit in a date's text. */
  lemma FormatIsoParts(d: Date)
    requires Valid(d)
    ensures var s, y := FormatIso(d), IntToString(d.year);
      && |s| == |y| + 6 && s[..|y|] == y
      && s[|y| + 1..|y| + 3] == Pad2(d.month as nat) && s[|y| + 4..] == Pad2(d.day as nat)
  {
    var y, m, dd := IntToString(d.year), Pad2(d.month as nat), Pad2(d.day as nat);
    assert |m| == 2 && |dd| == 2;
    var s := y + "-" + m + "-" + dd;
    assert s[..|y|] == y;
    assert s[|y| + 1..|y| + 3] == m;
    assert s[|y| + 4..] == dd;
  }

  /** Different dates have different texts. */
  lemma FormatIsoInjective(a: Date, b: Date)
    requires Valid(a) && Valid(b) && FormatIso(a) == FormatIso(b)
    ensures a == b
  {
    FormatIsoParts(a);
    FormatIsoParts(b);
    IntToStringInjective(a.year, b.year);
    Pad2Injective(a.month as nat, b.month as nat);
    Pad2Injective(a.day as nat, b.day as nat);
  }

  /**
   * `isoToDate`: split on "-", `Number` each of the first three parts, give
   * up when any is missing, zero or `NaN`, otherwise the day number of
   * `new Date(y, m - 1, d)`.
   */
  function IsoToDay(s: string): (r: Option<int>)
    ensures r.Some? ==> |Split(s, '-')| >= 3
  {
    var parts := Split(s, '-');
    if |parts| < 3 then None
    else
      match (ParseNumber(parts[0]), ParseNumber(parts[1]), ParseNumber(parts[2]))
      case (Some(y), Some(m), Some(d)) =>
        if y == 0 || m == 0 || d == 0 then None else Some(DayNumberOf(JsYear(y), m, d))
      case _ => None
  }

  /** `inRangeISO`: inclusive at both ends, and false when any of the three does not parse. */
  predicate InRangeIso(iso: string, startIso: string, endIso: string)
  {
    match (IsoToDay(iso), IsoToDay(startIso), IsoToDay(endIso))
    case (Some(x), Some(lo), Some(hi)) => lo <= x <= hi
    case _ => false
  }

  lemma InRangeNeedsParses(iso: string, startIso: string, endIso: string)
    requires IsoToDay(iso).None? || IsoToDay(startIso).None? || IsoToDay(endIso).None?
    ensures !InRangeIso(iso, startIso, endIso)
  {
  }

  lemma NoDashInDigits(s: string)
    requires AllDigits(s)
    ensures '-' !in s
  {
  }

  lemma SplitIso(d: Date)
    requires Valid(d) && d.year >= 0
    ensures Split(FormatIso(d), '-') == [NatToString(d.year), Pad2(d.month as nat), Pad2(d.day as nat)]
  {
    var y, m, dd := NatToString(d.year), Pad2(d.month as nat), Pad2(d.day as nat);
    assert '-' !in y by { NoDashInDigits(y); }
    assert '-' !in m by { NoDashInDigits(m); }
    assert '-' !in dd by { NoDashInDigits(dd); }
    assert IntToString(d.year) == y;
    assert FormatIso(d) == y + ['-'] + m + ['-'] + dd;
    SplitThree(y, m, dd, '-');
  }

  lemma IsoToDayOfParts(s: string, d: Date)
    requires Valid(d) && d.year >= 100
    requires |Split(s, '-')| >= 3
    requires ParseNumber(Split(s, '-')[0]) == Some(d.year)
    requires ParseNumber(Split(s, '-')[1]) == Some(d.month as nat)
    requires ParseNumber(Split(s, '-')[2]) == Some(d.day as nat)
    ensures IsoToDay(s) == Some(DayNumber(d))
  {
  }

  /** Reading back a formatted date gives its day number (years from 100 on, where no 19xx shift applies). */
  lemma IsoRoundTrip(d: Date)
    requires Valid(d) && d.year >= 100
    ensures IsoToDay(FormatIso(d)) == Some(DayNumber(d))
  {
    SplitIso(d);
    NumberRoundTrip(d.year);
    Pad2RoundTrip(d.month as nat);
    Pad2RoundTrip(d.day as nat);
    IsoToDayOfParts(FormatIso(d), d);
  }

  /** `inRangeISO` on formatted dates is the inclusive day-number interval test. */
  lemma InRangeOfFormatted(d: Date, lo: Date, hi: Date)
    requires Valid(d) && Valid(lo) && Valid(hi) && d.year >= 100 && lo.year >= 100 && hi.year >= 100
    ensures InRangeIso(FormatIso(d), FormatIso(lo), FormatIso(hi))
      <==> DayNumber(lo) <= DayNumber(d) <= DayNumber(hi)
  {
    IsoRoundTrip(d);
    IsoRoundTrip(lo);
    IsoRoundTrip(hi);
  }

  /**
   * `new Date(s + "T00:00:00")` for the ISO date-time form: exactly four
   * year digits, two month digits in 01..12 and two day digits in 01..31,
   * a day past the month's end rolling into the next month. Any other text
   * is an invalid date, modelled as `None`.
   */
  function IsoDateTimeDay(s: string): (r: Option<int>)
    ensures r.Some? ==> |s| == 10 && s[4] == '-' && s[7] == '-'
  {
    if |s| == 10 && s[4] == '-' && s[7] == '-' && AllDigits(s[..4]) && AllDigits(s[5..7]) && AllDigits(s[8..]) then
      var y, m, d := DigitsValue(s[..4]), DigitsValue(s[5..7]), DigitsValue(s[8..]);
      if 1 <= m <= 12 && 1 <= d <= 31 then Some(DayNumberOf(y, m, d)) else None
    else None
  }

  /** Four decimal digits for the years 1000 to 9999. */
  lemma YearTextLength(y: nat)
    requires 1000 <= y <= 9999
    ensures |NatToString(y)| == 4
  {
    assert |NatToString(y / 1000)| == 1;
    assert |NatToString(y / 100)| == 2;
    assert |NatToString(y / 10)| == 3;
  }

  /** A formatted date with a four-digit year reads back, as a date-time, to its own day. */
  lemma IsoDateTimeOfFormatted(d: Date)
    requires Valid(d) && 1000 <= d.year <= 9999
    ensures IsoDateTimeDay(FormatIso(d)) == Some(DayNumber(d))
  {
    var s := FormatIso(d);
    FormatIsoParts(d);
    YearTextLength(d.year);
    assert s[..4] == NatToString(d.year);
    assert s[5..7] == Pad2(d.month as nat) && s[8..] == Pad2(d.day as nat);
    DigitsOfNatToString(d.year);
    Pad2Value(d.month as nat);
    Pad2Value(d.day as nat);
  }

  lemma Pad2Value(n: nat)
    ensures DigitsValue(Pad2(n)) == n
  {
    Pad2RoundTrip(n);
    TrimOfTrimmed(Pad2(n));
  }
}
