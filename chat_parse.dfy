/**
 * The chat assistant's create-command parsers (`src/components/ChatBotWidget.jsx`):
 * clock times in 24-hour and am/pm form, ISO date literals and the words
 * "tomorrow" and "today", stripping command words out of the payload, and
 * the three shapes of a note command. The regular expressions of the source
 * are written out as the positions where they match; `s.match(re)` is the
 * leftmost such position.
 */
module ChatParse {
  import opened Wrappers
  import opened Strings
  import opened Dates

  // ---------------------------------------------------------------- pattern positions

  /** `\b` between positions `j - 1` and `j`: a word character on exactly one side. */
  predicate WordBoundary(s: string, j: nat)
  {
    (0 < j <= |s| && IsWordChar(s[j - 1])) != (j < |s| && IsWordChar(s[j]))
  }

  /** `:[0-5]\d` starting at the colon at `i`. */
  predicate MinutesAt(s: string, i: nat)
  {
    i + 3 <= |s| && s[i] == ':' && '0' <= s[i + 1] <= '5' && IsDigit(s[i + 2])
  }

  function MinutesValue(s: string, i: nat): (m: nat)
    requires MinutesAt(s, i)
    ensures m < 60
  {
    10 * DigitValue(s[i + 1]) + DigitValue(s[i + 2])
  }

  // ---------------------------------------------------------------- clock times

  datatype Clock = Clock(hour: nat, minute: nat)

  predicate ValidClock(c: Clock) { c.hour < 24 && c.minute < 60 }

  /** `${pad2(h)}:${pad2(m)}`, the "HH:MM" form reminders store. */
  function FormatClock(c: Clock): (r: string)
    requires ValidClock(c)
    ensures |r| == 5 && r[2] == ':'
    ensures r[0] == DigitChar(c.hour / 10) && r[1] == DigitChar(c.hour % 10)
    ensures r[3] == DigitChar(c.minute / 10) && r[4] == DigitChar(c.minute % 10)
  {
    Pad2(c.hour) + ":" + Pad2(c.minute)
  }

  /** A match of a clock pattern: its length and the time it denotes. */
  datatype Hit = Hit(len: nat, clock: Clock)

  /**
   * `\b([01]?\d|2[0-3]):([0-5]\d)\b` tried at position `i`, with the
   * alternatives in the order the regular expression tries them: a two-digit
   * hour starting with 0 or 1, a one-digit hour, then 20 to 23.
   */
  function Match24At(s: string, i: nat): (r: Option<Hit>)
    ensures r.Some? ==>
      && i < i + r.value.len <= |s| && ValidClock(r.value.clock)
      && IsDigit(s[i]) && WordBoundary(s, i) && WordBoundary(s, i + r.value.len)
  {
    if i >= |s| || !IsDigit(s[i]) || !WordBoundary(s, i) then None
    else if s[i] <= '1' && i + 1 < |s| && IsDigit(s[i + 1]) && MinutesAt(s, i + 2) && WordBoundary(s, i + 5) then
      Some(Hit(5, Clock(10 * DigitValue(s[i]) + DigitValue(s[i + 1]), MinutesValue(s, i + 2))))
    else if MinutesAt(s, i + 1) && WordBoundary(s, i + 4) then
      Some(Hit(4, Clock(DigitValue(s[i]), MinutesValue(s, i + 1))))
    else if s[i] == '2' && i + 1 < |s| && '0' <= s[i + 1] <= '3' && MinutesAt(s, i + 2) && WordBoundary(s, i + 5) then
      Some(Hit(5, Clock(20 + DigitValue(s[i + 1]), MinutesValue(s, i + 2))))
    else None
  }

  /** The hour of an am/pm time on the 24-hour clock: 12am is 0, and pm adds 12 except to 12. */
  function To24(h: nat, pm: bool): (r: nat)
    requires h <= 12
    ensures r < 24 && r % 12 == h % 12
    ensures pm <==> r >= 12
  {
    if pm && h != 12 then h + 12
    else if !pm && h == 12 then 0
    else h
  }

  /**
   * `\b(1[0-2]|0?\d)(?::([0-5]\d))?\s*(am|pm)\b` tried at position `i`,
   * letters compared without regard to case (the `i` flag of
   * `extractTimeTokenRaw`; `parseTimeToHHMM` lowers its text first, where
   * this makes no difference). Backtracking cannot rescue a failed attempt:
   * a digit after a one-digit hour, or a colon left unmatched, leaves no
   * place for the am/pm.
   */
  function Match12At(s: string, i: nat): (r: Option<Hit>)
    ensures r.Some? ==>
      && i < i + r.value.len <= |s| && ValidClock(r.value.clock)
      && IsDigit(s[i]) && WordBoundary(s, i) && WordBoundary(s, i + r.value.len)
  {
    if i >= |s| || !IsDigit(s[i]) || !WordBoundary(s, i) then None
    else
      var twoDigits := i + 1 < |s| && IsDigit(s[i + 1]);
      if twoDigits && !(s[i] == '0' || (s[i] == '1' && s[i + 1] <= '2')) then None
      else
        var h := if twoDigits then 10 * DigitValue(s[i]) + DigitValue(s[i + 1]) else DigitValue(s[i]);
        var p := if twoDigits then i + 2 else i + 1;
        var hasMinutes := MinutesAt(s, p);
        var q := if hasMinutes then p + 3 else p;
        var k := q + Lead(s[q..]);
        if k + 2 <= |s| && (LowerChar(s[k]) == 'a' || LowerChar(s[k]) == 'p') && LowerChar(s[k + 1]) == 'm'
          && WordBoundary(s, k + 2)
        then
          Some(Hit(k + 2 - i, Clock(To24(h, LowerChar(s[k]) == 'p'), if hasMinutes then MinutesValue(s, p) else 0)))
        else None
  }

  // ---------------------------------------------------------------- ISO date literals

  /** `\b(20\d{2})-(0[1-9]|1[0-2])-(0[1-9]|[12]\d|3[01])\b` at position `i`: ten characters. */
  predicate IsoAt(s: string, i: nat)
  {
    && i + 10 <= |s| && WordBoundary(s, i) && WordBoundary(s, i + 10)
    && s[i] == '2' && s[i + 1] == '0' && IsDigit(s[i + 2]) && IsDigit(s[i + 3]) && s[i + 4] == '-'
    && ((s[i + 5] == '0' && '1' <= s[i + 6] <= '9') || (s[i + 5] == '1' && '0' <= s[i + 6] <= '2'))
    && s[i + 7] == '-'
    && ((s[i + 8] == '0' && '1' <= s[i + 9] <= '9') || ('1' <= s[i + 8] <= '2' && IsDigit(s[i + 9]))
       || (s[i + 8] == '3' && '0' <= s[i + 9] <= '1'))
  }

  // ---------------------------------------------------------------- leftmost match

  datatype Pattern = Clock24 | Clock12 | IsoDate

  predicate MatchesAt(p: Pattern, s: string, i: nat)
  {
    match p
    case Clock24 => Match24At(s, i).Some?
    case Clock12 => Match12At(s, i).Some?
    case IsoDate => IsoAt(s, i)
  }

  /** `s.match(re)` searching from `from`: the leftmost position where the pattern matches. */
  function FindFrom(p: Pattern, s: string, from: nat): (r: Option<nat>)
    ensures r.Some? ==> from <= r.value <= |s| && MatchesAt(p, s, r.value)
    ensures forall j :: from <= j <= |s| && (r.None? || j < r.value) ==> !MatchesAt(p, s, j)
    decreases |s| + 1 - from
  {
    if from > |s| then None
    else if MatchesAt(p, s, from) then Some(from)
    else FindFrom(p, s, from + 1)
  }

  function Find(p: Pattern, s: string): (r: Option<nat>)
    ensures r.Some? ==> r.value <= |s| && MatchesAt(p, s, r.value)
    ensures forall j :: 0 <= j <= |s| && (r.None? || j < r.value) ==> !MatchesAt(p, s, j)
  {
    FindFrom(p, s, 0)
  }

  // ---------------------------------------------------------------- parseTimeToHHMM / extractTimeTokenRaw

  /**
   * `parseTimeToHHMM`: on the trimmed, lowered text, the leftmost 24-hour
   * time if there is one, otherwise the leftmost am/pm time, otherwise
   * nothing. The source returns the time as "HH:MM", which is `FormatClock`
   * of the result.
   */
  function ParseTime(raw: string): (r: Option<Clock>)
    ensures r.Some? ==> ValidClock(r.value)
    ensures Find(Clock24, Lower(Trim(raw))).Some? ==> r.Some?
    ensures r.None? <==> Find(Clock24, Lower(Trim(raw))).None? && Find(Clock12, Lower(Trim(raw))).None?
    ensures var s := Lower(Trim(raw)); var f := Find(Clock24, s);
      f.Some? ==> r == Some(Match24At(s, f.value).value.clock)
    ensures var s := Lower(Trim(raw)); var f := Find(Clock12, s);
      Find(Clock24, s).None? && f.Some? ==> r == Some(Match12At(s, f.value).value.clock)
  {
    var s := Lower(Trim(raw));
    match Find(Clock24, s)
    case Some(i) => Some(Match24At(s, i).value.clock)
    case None =>
      match Find(Clock12, s)
      case Some(i) => Some(Match12At(s, i).value.clock)
      case None => None
  }

  /** `extractTimeTokenRaw`: the text of the same match on the untouched input, am/pm in any case. */
  function TimeToken(raw: string): (r: Option<string>)
    ensures r.Some? ==> exists i :: OccursAt(raw, r.value, i)
    ensures r.Some? ==> r.value != [] && IsDigit(r.value[0])
    ensures r.None? <==> Find(Clock24, raw).None? && Find(Clock12, raw).None?
    ensures var f := Find(Clock24, raw);
      f.Some? ==> r == Some(raw[f.value..f.value + Match24At(raw, f.value).value.len])
    ensures var f := Find(Clock12, raw);
      Find(Clock24, raw).None? && f.Some? ==> r == Some(raw[f.value..f.value + Match12At(raw, f.value).value.len])
  {
    match Find(Clock24, raw)
    case Some(i) => assert OccursAt(raw, raw[i..i + Match24At(raw, i).value.len], i); Some(raw[i..i + Match24At(raw, i).value.len])
    case None =>
      match Find(Clock12, raw)
      case Some(i) => assert OccursAt(raw, raw[i..i + Match12At(raw, i).value.len], i); Some(raw[i..i + Match12At(raw, i).value.len])
      case None => None
  }

  /**
   * The time the source evidently means to read: as `parseTimeToHHMM`, except
   * that a 24-hour match which is the start of an am/pm time ("5:30 pm") is
   * read as that am/pm time. Returns the position and the match.
   */
  function ChooseClock(s: string): (r: Option<(nat, Hit)>)
    ensures r.Some? ==> r.value.0 + r.value.1.len <= |s| && ValidClock(r.value.1.clock)
    ensures r.None? <==> Find(Clock24, s).None? && Find(Clock12, s).None?
    ensures Find(Clock24, s).Some? ==> r.Some? && r.value.0 == Find(Clock24, s).value
    ensures Find(Clock24, s).Some? && Match12At(s, Find(Clock24, s).value).None? ==>
      r.value.1 == Match24At(s, Find(Clock24, s).value).value
  {
    match Find(Clock24, s)
    case Some(i) =>
      (match Match12At(s, i)
       case Some(h) => Some((i, h))
       case None => Some((i, Match24At(s, i).value)))
    case None =>
      match Find(Clock12, s)
      case Some(i) => Some((i, Match12At(s, i).value))
      case None => None
  }

  /** `parseTimeToHHMM` with the am/pm reading of `ChooseClock`; the create commands use this one. */
  function ParseTimeFixed(raw: string): (r: Option<Clock>)
    ensures r.Some? ==> ValidClock(r.value)
    ensures r.None? <==> ParseTime(raw).None?
  {
    var s := Lower(Trim(raw));
    match ChooseClock(s)
    case Some((_, h)) => Some(h.clock)
    case None => None
  }

  /** `extractTimeTokenRaw` with the same correction: the whole "5:30 pm" is the token. */
  function TimeTokenFixed(raw: string): (r: Option<string>)
    ensures r.Some? ==> exists i :: OccursAt(raw, r.value, i)
    ensures r.None? <==> TimeToken(raw).None?
  {
    match ChooseClock(raw)
    case Some((i, h)) => assert OccursAt(raw, raw[i..i + h.len], i); Some(raw[i..i + h.len])
    case None => None
  }

  /** The 24-hour pattern matches "HH:MM" whole. */
  lemma FormattedClockMatch24(c: Clock)
    requires ValidClock(c)
    ensures Match24At(FormatClock(c), 0) == Some(Hit(5, c))
  {
    var s := FormatClock(c);
    assert WordBoundary(s, 0) && WordBoundary(s, 5);
    if c.hour < 20 {
      assert Match24At(s, 0) == Some(Hit(5, c));
    } else {
      assert Match24At(s, 0) == Some(Hit(5, c));
    }
  }

  /** "HH:MM" is its own trimmed, lowered form, and the 24-hour pattern matches it whole at 0. */
  lemma FormattedClockMatches(c: Clock)
    requires ValidClock(c)
    ensures var s := FormatClock(c); Lower(Trim(s)) == s && Find(Clock24, s) == Some(0) && Match24At(s, 0) == Some(Hit(5, c))
  {
    var s := FormatClock(c);
    assert Lower(Trim(s)) == s by {
      TrimOfTrimmed(s);
      assert Lower(s) == s;
    }
    FormattedClockMatch24(c);
    assert MatchesAt(Clock24, s, 0);
  }

  /** No am/pm follows "HH:MM". */
  lemma FormattedClockNoAmPm(c: Clock)
    requires ValidClock(c)
    ensures Match12At(FormatClock(c), 0).None?
  {
    var s := FormatClock(c);
    assert s[5..] == [];
    assert Lead(s[5..]) == 0;
  }

  /** A time written as "HH:MM" is read back as itself. */
  lemma ParseFormattedClock(c: Clock)
    requires ValidClock(c)
    ensures ParseTime(FormatClock(c)) == Some(c)
  {
    FormattedClockMatches(c);
  }

  /** "HH:MM" has no am/pm after it, so the corrected reading agrees on it. */
  lemma ParseFormattedClockFixed(c: Clock)
    requires ValidClock(c)
    ensures ParseTimeFixed(FormatClock(c)) == Some(c)
  {
    FormattedClockMatches(c);
    FormattedClockNoAmPm(c);
  }

  /** "5pm" is 17:00. */
  lemma FivePm()
    ensures ParseTime("5pm") == Some(Clock(17, 0))
  {
    var s := "5pm";
    TrimOfTrimmed(s);
    assert Lower(s) == s;
    assert Match12At(s, 0) == Some(Hit(3, Clock(17, 0)));
  }

  /** "12am" is midnight. */
  lemma TwelveAm()
    ensures ParseTime("12am") == Some(Clock(0, 0))
  {
    var t := "12am";
    TrimOfTrimmed(t);
    assert Lower(t) == t;
    assert Match12At(t, 0) == Some(Hit(4, Clock(0, 0)));
    NoColonNoClock24(t);
  }

  /** Every 24-hour time has a colon, so text without one holds none. */
  lemma NoColonNoClock24(s: string)
    requires ':' !in s
    ensures Find(Clock24, s).None?
  {
    forall j | 0 <= j <= |s|
      ensures Match24At(s, j).None?
    {
      assert forall k: nat :: !MinutesAt(s, k);
    }
  }

  /** As written, "5:30 pm" is read as 05:30: the 24-hour pattern wins before the "pm" is seen. */
  lemma PmAfterColonIgnored()
    ensures ParseTime("5:30 pm") == Some(Clock(5, 30))
    ensures ParseTimeFixed("5:30 pm") == Some(Clock(17, 30))
  {
    var s := "5:30 pm";
    TrimOfTrimmed(s);
    assert Lower(s) == s;
    assert Match24At(s, 0) == Some(Hit(4, Clock(5, 30)));
    assert Find(Clock24, s) == Some(0);
    assert Lead(s[4..]) == 1;
    assert Match12At(s, 0) == Some(Hit(7, Clock(17, 30)));
  }

  /** A time on the 12-hour clock as people type it: "5:30 pm", "12:00 am". */
  function FormatClock12(c: Clock): (r: string)
    requires ValidClock(c)
  {
    var h := if c.hour % 12 == 0 then 12 else c.hour % 12;
    NatToString(h) + ":" + Pad2(c.minute) + (if c.hour >= 12 then " pm" else " am")
  }

  /** The characters of `FormatClock12(c)`, hour digits first. */
  predicate Clock12Text(s: string, n: nat, h: nat, m: nat, pm: bool)
  {
    && (n == 1 || n == 2) && |s| == n + 6 && 1 <= h <= 12 && m < 60
    && (n == 1 ==> h < 10 && s[0] == DigitChar(h))
    && (n == 2 ==> h >= 10 && s[0] == '1' && s[1] == DigitChar(h % 10))
    && s[n] == ':' && s[n + 1] == DigitChar(m / 10) && s[n + 2] == DigitChar(m % 10)
    && s[n + 3] == ' ' && s[n + 4] == (if pm then 'p' else 'a') && s[n + 5] == 'm'
  }

  lemma Clock12TextOf(c: Clock)
    requires ValidClock(c)
    ensures Clock12Text(FormatClock12(c), |FormatClock12(c)| - 6,
      if c.hour % 12 == 0 then 12 else c.hour % 12, c.minute, c.hour >= 12)
  {
    var h := if c.hour % 12 == 0 then 12 else c.hour % 12;
    var hs := NatToString(h);
    if h >= 10 {
      assert hs == NatToString(1) + [DigitChar(h % 10)];
    }
  }

  lemma MatchesOfClock12Text(s: string, n: nat, h: nat, m: nat, pm: bool)
    requires Clock12Text(s, n, h, m, pm)
    ensures Find(Clock24, s) == Some(0)
    ensures Match12At(s, 0) == Some(Hit(n + 6, Clock(To24(h, pm), m)))
  {
    assert Match24At(s, 0).Some?;
    assert s[n + 3..][0] == ' ' && s[n + 3..][1] == s[n + 4];
    assert Lead(s[n + 3..]) == 1;
    assert MinutesValue(s, n) == m;
  }

  lemma PlainClock12Text(s: string, n: nat, h: nat, m: nat, pm: bool)
    requires Clock12Text(s, n, h, m, pm)
    ensures Lower(Trim(s)) == s
  {
    TrimOfTrimmed(s);
    assert Lower(s) == s;
  }

  lemma HourOfClock12(c: Clock)
    requires ValidClock(c)
    ensures To24(if c.hour % 12 == 0 then 12 else c.hour % 12, c.hour >= 12) == c.hour
  {
  }

    lemma ParseFormattedClock12(c: Clock)
    requires ValidClock(c)
    ensures ParseTimeFixed(FormatClock12(c)) == Some(c)
  {
    var s := FormatClock12(c);
    var h := if c.hour % 12 == 0 then 12 else c.hour % 12;
    Clock12TextOf(c);
    MatchesOfClock12Text(s, |s| - 6, h, c.minute, c.hour >= 12);
    PlainClock12Text(s, |s| - 6, h, c.minute, c.hour >= 12);
    HourOfClock12(c);
  }

  // ---------------------------------------------------------------- extractISODateFromText

  /** A ten-character ISO date literal as the date pattern accepts it. */
  predicate IsoLiteral(v: string) { |v| == 10 && IsoAt(v, 0) }

  /**
   * `extractISODateFromText`: on the lowered text, the leftmost ISO date
   * literal; failing that tomorrow's date when the text says "tomorrow",
   * today's when it says "today", and nothing otherwise.
   */
  function ExtractIsoDate(raw: string, today: Date): (r: Option<string>)
    requires Valid(today)
    ensures Find(IsoDate, Lower(raw)).Some? ==> r.Some? && IsoLiteral(r.value)
    ensures Find(IsoDate, Lower(raw)).None? && Contains(Lower(raw), "tomorrow") ==> r == Some(FormatIso(AddDays(today, 1)))
    ensures Find(IsoDate, Lower(raw)).None? && !Contains(Lower(raw), "tomorrow") && Contains(Lower(raw), "today")
      ==> r == Some(FormatIso(today))
    ensures r.None? <==>
      Find(IsoDate, Lower(raw)).None? && !Contains(Lower(raw), "tomorrow") && !Contains(Lower(raw), "today")
  {
    var s := Lower(raw);
    match Find(IsoDate, s)
    case Some(i) =>
      var v := s[i..i + 10];
      assert forall k :: 0 <= k < 10 ==> v[k] == s[i + k];
      Some(v)
    case None =>
      if Contains(s, "tomorrow") then Some(FormatIso(AddDays(today, 1)))
      else if Contains(s, "today") then Some(FormatIso(today))
      else None
  }

  /** The date `ExtractIsoDate` takes from the text is the leftmost literal, exactly as it appears. */
  lemma ExtractIsoDateLeftmost(raw: string, today: Date)
    requires Valid(today)
    ensures var s := Lower(raw); var f := Find(IsoDate, s);
      f.Some? ==> f.value + 10 <= |s| && ExtractIsoDate(raw, today) == Some(s[f.value..f.value + 10])
  {
  }

  lemma FourDigitYear(y: nat)
    requires 2000 <= y <= 2099
    ensures NatToString(y) == ['2', '0', DigitChar(y / 10 % 10), DigitChar(y % 10)]
  {
    assert NatToString(y / 10) == NatToString(y / 100) + [DigitChar(y / 10 % 10)];
    assert NatToString(y / 100) == NatToString(2) + [DigitChar(0)];
  }

  /** A date of this century, written out, is found in the text as its own literal. */
  lemma IsoLiteralOfFormatted(d: Date, today: Date)
    requires Valid(d) && Valid(today) && 2000 <= d.year <= 2099
    ensures ExtractIsoDate(FormatIso(d), today) == Some(FormatIso(d))
  {
    var v := FormatIso(d);
    FourDigitYear(d.year);
    assert v == NatToString(d.year) + "-" + Pad2(d.month as nat) + "-" + Pad2(d.day as nat);
    assert |v| == 10;
    assert Lower(v) == v;
    assert IsoAt(v, 0);
    assert Find(IsoDate, v) == Some(0);
    assert v[0..10] == v;
  }

  /** A text naming no literal date but saying "tomorrow" gets the day after `today`. */
  lemma TomorrowIsNextDay(raw: string, today: Date)
    requires Valid(today) && today.year >= 100
    requires Find(IsoDate, Lower(raw)).None? && Contains(Lower(raw), "tomorrow")
    ensures ExtractIsoDate(raw, today).Some?
    ensures IsoToDay(ExtractIsoDate(raw, today).value) == Some(DayNumber(today) + 1)
  {
    DayTextReadsBack(AddDays(today, 1), DayNumber(today) + 1);
  }

  /** A date's ISO text reads back as its day number, however that number is written. */
  lemma DayTextReadsBack(d: Date, k: int)
    requires Valid(d) && d.year >= 100 && DayNumber(d) == k
    ensures IsoToDay(FormatIso(d)) == Some(k)
  {
    IsoRoundTrip(d);
  }

  /** A digit string whose last digit is not zero has a non-zero value. */
  lemma {:induction false} DigitsValuePositive(x: string, k: nat)
    requires AllDigits(x) && k < |x| && x[k] != '0'
    ensures DigitsValue(x) > 0
    decreases |x|
  {
    if k < |x| - 1 {
      DigitsValuePositive(x[..|x| - 1], k);
    }
  }

  lemma SplitIsoLiteral(v: string)
    requires IsoLiteral(v)
    ensures Split(v, '-') == [v[..4], v[5..7], v[8..]]
  {
    var y, m, d := v[..4], v[5..7], v[8..];
    assert v == y + ['-'] + m + ['-'] + d;
    assert '-' !in y && '-' !in m && '-' !in d;
    SplitThree(y, m, d, '-');
  }

  /** A digit string with a non-zero digit reads as a positive number. */
  lemma PositiveNumber(x: string, k: nat)
    requires AllDigits(x) && x != [] && k < |x| && x[k] != '0'
    ensures ParseNumber(x).Some? && ParseNumber(x).value > 0
  {
    TrimOfTrimmed(x);
    DigitsValuePositive(x, k);
  }

  /** Two digits, not both zero, read as a positive number. */
  lemma DigitPairPositive(x: string)
    requires |x| == 2 && IsDigit(x[0]) && IsDigit(x[1]) && (x[0] != '0' || x[1] != '0')
    ensures ParseNumber(x).Some? && ParseNumber(x).value > 0
  {
    assert AllDigits(x);
    PositiveNumber(x, if x[1] == '0' then 0 else 1);
  }

  /** The year, month and day of a literal the date pattern accepts are positive numbers. */
  lemma IsoLiteralPartsPositive(v: string)
    requires IsoLiteral(v)
    ensures ParseNumber(v[..4]).Some? && ParseNumber(v[..4]).value > 0
    ensures ParseNumber(v[5..7]).Some? && ParseNumber(v[5..7]).value > 0
    ensures ParseNumber(v[8..]).Some? && ParseNumber(v[8..]).value > 0
  {
    var y := v[..4];
    assert AllDigits(y) && y[0] == '2' by {
      assert forall k :: 0 <= k < 4 ==> y[k] == v[k];
    }
    PositiveNumber(y, 0);
    DigitPairPositive(v[5..7]);
    DigitPairPositive(v[8..]);
  }

  /** Every literal the date pattern accepts is a date `isoToDate` reads. */
  lemma IsoLiteralParses(v: string)
    requires IsoLiteral(v)
    ensures IsoToDay(v).Some?
  {
    SplitIsoLiteral(v);
    IsoLiteralPartsPositive(v);
  }

  // ---------------------------------------------------------------- stripTokensForText

  /** `tok` at position `i`, letters compared without regard to (ASCII) case: the `i` flag. */
  predicate MatchCI(s: string, tok: string, i: nat)
  {
    i + |tok| <= |s| && forall k :: 0 <= k < |tok| ==> LowerChar(s[i + k]) == LowerChar(tok[k])
  }

  /** Where a token is cut out: any occurrence, or with `words` only one standing as a whole word. */
  predicate Hits(s: string, tok: string, i: nat, words: bool)
  {
    MatchCI(s, tok, i) && (words ==> WordBoundary(s, i) && WordBoundary(s, i + |tok|))
  }

  /** `s.replace(new RegExp(tok, "ig"), " ")` from position `i`: left to right, without overlaps. */
  function ReplaceFrom(s: string, tok: string, i: nat, words: bool): (r: string)
    requires tok != [] && i <= |s|
    ensures |r| <= |s| - i
    decreases |s| - i
  {
    if i == |s| then []
    else if Hits(s, tok, i, words) then " " + ReplaceFrom(s, tok, i + |tok|, words)
    else [s[i]] + ReplaceFrom(s, tok, i + 1, words)
  }

  /** The replacement as written: every case-insensitive occurrence, inside words too. */
  function ReplaceAll(s: string, tok: string): (r: string)
    requires tok != []
    ensures |r| <= |s|
  {
    ReplaceFrom(s, tok, 0, false)
  }

  /** The replacement the command words call for: only where the token is a whole word. */
  function ReplaceWords(s: string, tok: string): (r: string)
    requires tok != []
    ensures |r| <= |s|
  {
    ReplaceFrom(s, tok, 0, true)
  }

  /** Where the token never hits, the text comes through unchanged. */
  lemma {:induction false} ReplaceWithoutHits(s: string, tok: string, i: nat, words: bool)
    requires tok != [] && i <= |s|
    requires forall j :: i <= j < |s| ==> !Hits(s, tok, j, words)
    ensures ReplaceFrom(s, tok, i, words) == s[i..]
    decreases |s| - i
  {
    if i < |s| {
      ReplaceWithoutHits(s, tok, i + 1, words);
      assert s[i..] == [s[i]] + s[i + 1..];
    }
  }

  /** "water plants" holds "at" only inside "water" (position 1) and nowhere else. */
  lemma {:induction false} OnlyAtInWater(s: string, j: nat)
    requires s == "water plants" && j < |s| && MatchCI(s, "at", j)
    ensures j == 1
  {
    assert LowerChar(s[j + 0]) == LowerChar("at"[0]) && LowerChar(s[j + 1]) == LowerChar("at"[1]);
    if j == 0 {} else if j == 1 {} else if j == 2 {} else if j == 3 {} else if j == 4 {}
    else if j == 5 {} else if j == 6 {} else if j == 7 {} else if j == 8 {} else if j == 9 {}
    else {}
  }

  /** As written, cutting out the command word "at" also cuts it out of "water". */
  lemma CommandWordInsideWord(s: string)
    requires s == "water plants"
    ensures ReplaceAll(s, "at") == "w er plants"
  {
    assert Hits(s, "at", 1, false);
    forall j | 3 <= j < |s| ensures !Hits(s, "at", j, false) {
      if MatchCI(s, "at", j) { OnlyAtInWater(s, j); }
    }
    ReplaceWithoutHits(s, "at", 3, false);
    assert ReplaceFrom(s, "at", 1, false) == " " + s[3..];
  }

  /** Cutting out whole words only leaves "water plants" alone. */
  lemma CommandWordAsWord(s: string)
    requires s == "water plants"
    ensures ReplaceWords(s, "at") == s
  {
    forall j | 0 <= j < |s| ensures !Hits(s, "at", j, true) {
      if MatchCI(s, "at", j) {
        OnlyAtInWater(s, j);
        assert IsWordChar(s[0]) && IsWordChar(s[1]);
      }
    }
    ReplaceWithoutHits(s, "at", 0, true);
  }

  /** Each non-empty token in turn cut out of `raw` as a whole word; empty tokens (a missing date or time) are skipped. */
  function RemoveTokens(raw: string, tokens: seq<string>): (r: string)
    decreases |tokens|
  {
    if tokens == [] then raw
    else
      var prev := RemoveTokens(raw, tokens[..|tokens| - 1]);
      var t := tokens[|tokens| - 1];
      if t == [] then prev else ReplaceWords(prev, t)
  }

  /** A text in which no token stands as a word is left as it is. */
  lemma {:induction false} RemoveAbsentTokens(raw: string, tokens: seq<string>)
    requires forall n, j :: 0 <= n < |tokens| && tokens[n] != [] && 0 <= j < |raw| ==> !Hits(raw, tokens[n], j, true)
    ensures RemoveTokens(raw, tokens) == raw
    decreases |tokens|
  {
    if tokens != [] {
      var front := tokens[..|tokens| - 1];
      assert forall n :: 0 <= n < |front| ==> front[n] == tokens[n];
      RemoveAbsentTokens(raw, front);
      var t := tokens[|tokens| - 1];
      if t != [] {
        ReplaceWithoutHits(raw, t, 0, true);
      }
    }
  }

  /**
   * `stripTokensForText`: cut each token out of the text, then collapse
   * white-space runs to one blank and trim. Tokens are cut as whole words
   * (see `CommandWordInsideWord` and `CommandWordAsWord`).
   */
  method StripTokensForText(raw: string, tokens: seq<string>) returns (out: string)
    ensures out == Squish(RemoveTokens(raw, tokens))
    ensures Tidy(out)
  {
    out := raw;
    var n := 0;
    while n < |tokens|
      invariant 0 <= n <= |tokens|
      invariant out == RemoveTokens(raw, tokens[..n])
    {
      var t := tokens[n];
      assert tokens[..n + 1][..n] == tokens[..n];
      if t != [] {
        out := ReplaceWords(out, t);
      }
      n := n + 1;
    }
    assert tokens[..|tokens|] == tokens;
    out := Squish(out);
  }

  /** Stripping a text none of whose words is a token only tidies its white space. */
  lemma StripWithoutTokens(raw: string, tokens: seq<string>)
    requires forall n, j :: 0 <= n < |tokens| && tokens[n] != [] && 0 <= j < |raw| ==> !Hits(raw, tokens[n], j, true)
    ensures Squish(RemoveTokens(raw, tokens)) == Squish(raw)
  {
    RemoveAbsentTokens(raw, tokens);
  }

  /** Stripping twice is stripping once when the result has no tokens left: the white space is already tidy. */
  lemma SquishOfTidy(s: string)
    requires Tidy(s)
    ensures Squish(s) == s && Trim(s) == s
  {
    CollapseOfTidy(s);
    TrimOfTrimmed(s);
  }

  // ---------------------------------------------------------------- parseNote

  /** A note as a chat command describes it. */
  datatype NoteDraft = NoteDraft(title: string, content: string)

  const Untitled := "Untitled"
  /** A bare note longer than this is titled by its first characters and an ellipsis. */
  const TitleLimit := 28
  const Ellipsis := '\U{2026}'

  /** No white space at either end: what `trim` returns. */
  predicate Trimmed(s: string)
  {
    s == [] || (!IsSpace(s[0]) && !IsSpace(s[|s| - 1]))
  }

  /** Replacing the pattern `^p\s*` (flag `i`) by nothing: the command words at the start, and the white space after them, dropped. */
  function DropCommand(s: string, p: string): string
  {
    if MatchCI(s, p, 0) then TrimStart(s[|p|..]) else s
  }

  /** The text a note command is about: "create note" or else "add note" dropped, then trimmed. */
  function NoteBody(raw: string): (r: string)
    ensures Trimmed(r)
  {
    Trim(DropCommand(DropCommand(Trim(raw), "create note"), "add note"))
  }

  function OrUntitled(t: string): (r: string)
    ensures r != []
  {
    if t == [] then Untitled else t
  }

  lemma NotInSlice(s: string, c: char, a: nat, b: nat)
    requires a <= b <= |s| && c !in s
    ensures c !in s[a..b]
  {
  }

  /** "title | content": the first two pieces around "|", each trimmed. */
  function PipeNote(body: string): (r: NoteDraft)
    ensures r.title != [] && Trimmed(r.content)
    ensures '|' !in r.title && '|' !in r.content
    ensures |r.title| <= |body| + |Untitled|
  {
    var parts := Split(body, '|');
    assert |parts[0]| <= |body| by {
      if |parts| > 1 { assert Join(parts, '|') == parts[0] + ['|'] + Join(parts[1..], '|'); }
    }
    var title := Trim(parts[0]);
    NotInSlice(parts[0], '|', Lead(parts[0]), Lead(parts[0]) + |title|);
    var content := if |parts| > 1 then Trim(parts[1]) else [];
    assert '|' !in content by {
      if |parts| > 1 {
        NotInSlice(parts[1], '|', Lead(parts[1]), Lead(parts[1]) + |content|);
      }
    }
    NoteDraft(OrUntitled(title), content)
  }

  /** "title: content", split at the colon at `idx`, each side trimmed. */
  function ColonNote(body: string, idx: nat): (r: NoteDraft)
    requires idx < |body|
    ensures r.title != [] && Trimmed(r.content)
    ensures |r.title| <= |body| + |Untitled|
  {
    NoteDraft(OrUntitled(Trim(body[..idx])), Trim(body[idx + 1..]))
  }

  /** A note with neither separator: all of it is the content, its start the title. */
  function BareNote(body: string): (r: NoteDraft)
    requires body != [] && Trimmed(body)
    ensures r.title != [] && r.content == body
    ensures |r.title| <= TitleLimit + 1
    ensures |body| <= TitleLimit ==> r.title == body
    ensures |body| > TitleLimit ==> r.title == body[..TitleLimit] + [Ellipsis]
  {
    NoteDraft(if |body| > TitleLimit then body[..TitleLimit] + [Ellipsis] else body, body)
  }

  lemma NoColon(body: string)
    ensures ':' !in body ==> IndexOf(body, ":") == -1
  {
    var idx := IndexOf(body, ":");
    if idx != -1 {
      assert body[idx..idx + 1][0] == ':';
    }
  }

  /** The note a command body describes. */
  function NoteOf(body: string): (r: NoteDraft)
    requires Trimmed(body)
    ensures r.title != [] && Trimmed(r.content)
    ensures body == [] ==> r == NoteDraft(Untitled, [])
    ensures '|' in body ==> '|' !in r.title && '|' !in r.content
    ensures '|' !in body && ':' !in body ==> r.content == body
    ensures |r.title| <= |body| + |Untitled|
  {
    if body == [] then NoteDraft(Untitled, [])
    else if '|' in body then PipeNote(body)
    else
      var idx := IndexOf(body, ":");
      if idx > 0 then ColonNote(body, idx)
      else
        NoColon(body);
        BareNote(body)
  }

  /**
   * `parseNote`: "title | content", else "title: content" (the first colon,
   * when something stands before it), else the whole text as content with
   * its first 28 characters as title. Only the first two pieces around
   * "|" are kept.
   */
  function ParseNote(raw: string): (r: NoteDraft)
    ensures r.title != [] && Trimmed(r.content)
    ensures NoteBody(raw) == [] ==> r == NoteDraft(Untitled, [])
    ensures '|' in NoteBody(raw) ==> '|' !in r.title && '|' !in r.content
    ensures '|' !in NoteBody(raw) && ':' !in NoteBody(raw) ==> r.content == NoteBody(raw)
    ensures |r.title| <= |NoteBody(raw)| + |Untitled|
  {
    NoteOf(NoteBody(raw))
  }

  /** A command word, one blank, then text that starts with a non-blank: the command is dropped exactly. */
  lemma DropCommandWord(raw: string, p: string, text: string)
    requires raw == p + " " + text && text != [] && !IsSpace(text[0])
    ensures DropCommand(raw, p) == text
  {
    assert MatchCI(raw, p, 0) by {
      forall k | 0 <= k < |p| ensures raw[k] == p[k] { }
    }
    var rest := raw[|p|..];
    assert rest == [' '] + text && rest[1..] == text;
    assert Lead(rest) == 1;
  }

  /** The body of "create note text" is the text, unless the text itself starts with "add note". */
  lemma CreateNoteBody(raw: string, text: string)
    requires raw == "create note " + text && text != [] && Trimmed(text)
    requires !MatchCI(text, "add note", 0)
    ensures NoteBody(raw) == text
  {
    assert raw == "create note" + " " + text;
    TrimOfTrimmed(raw);
    DropCommandWord(raw, "create note", text);
    TrimOfTrimmed(text);
  }

  /** The body of "add note text" is the text. */
  lemma AddNoteBody(raw: string, text: string)
    requires raw == "add note " + text && text != [] && Trimmed(text)
    ensures NoteBody(raw) == text
  {
    assert raw == "add note" + " " + text;
    TrimOfTrimmed(raw);
    assert !MatchCI(raw, "create note", 0) by {
      assert LowerChar(raw[0]) != LowerChar("create note"[0]);
    }
    DropCommandWord(raw, "add note", text);
    TrimOfTrimmed(text);
  }

  lemma PipeNoteOf(t: string, c: string)
    requires t != [] && c != [] && Trimmed(t) && Trimmed(c) && '|' !in t && '|' !in c
    ensures NoteOf(t + " | " + c) == NoteDraft(t, c)
  {
    var text := t + " | " + c;
    assert text == (t + " ") + ['|'] + (" " + c);
    assert text[|t| + 1] == '|';
    SplitAfter(t + " ", '|', " " + c);
    TrimPadded(t);
    TrimPadded(c);
  }

  lemma ColonNoteOf(t: string, c: string)
    requires t != [] && c != [] && Trimmed(t) && Trimmed(c)
    requires ':' !in t && '|' !in t && '|' !in c
    ensures NoteOf(t + ": " + c) == NoteDraft(t, c)
  {
    var text := t + ": " + c;
    assert '|' !in text;
    var idx := IndexOf(text, ":");
    assert OccursAt(text, ":", |t|) by { assert text[|t|..|t| + 1] == ":"; }
    forall k | 0 <= k < |t| ensures !OccursAt(text, ":", k) {
      assert text[k] == t[k];
    }
    assert idx == |t|;
    assert text[..idx] == t && text[idx + 1..] == " " + c;
    TrimOfTrimmed(t);
    TrimPadded(c);
  }

  /** "create note title | content" gives back the title and the content. */
  lemma NotePipeRoundTrip(t: string, c: string)
    requires t != [] && c != [] && Trimmed(t) && Trimmed(c) && '|' !in t && '|' !in c
    requires !MatchCI(t + " | " + c, "add note", 0)
    ensures ParseNote("create note " + t + " | " + c) == NoteDraft(t, c)
  {
    var text := t + " | " + c;
    assert "create note " + t + " | " + c == "create note " + text;
    CreateNoteBody("create note " + text, text);
    PipeNoteOf(t, c);
  }

  /** "add note title: content" gives back the title and the content when the title has no colon. */
  lemma NoteColonRoundTrip(t: string, c: string)
    requires t != [] && c != [] && Trimmed(t) && Trimmed(c)
    requires ':' !in t && '|' !in t && '|' !in c
    ensures ParseNote("add note " + t + ": " + c) == NoteDraft(t, c)
  {
    var text := t + ": " + c;
    assert "add note " + t + ": " + c == "add note " + text;
    AddNoteBody("add note " + text, text);
    ColonNoteOf(t, c);
  }

  /** A note with neither separator nor command words is its own content, titled by its first 28 characters. */
  lemma NoteBareRoundTrip(c: string)
    requires c != [] && Trimmed(c) && '|' !in c && ':' !in c
    requires !MatchCI(c, "create note", 0) && !MatchCI(c, "add note", 0)
    ensures ParseNote(c).content == c
    ensures |c| <= TitleLimit ==> ParseNote(c).title == c
    ensures |c| > TitleLimit ==> ParseNote(c).title == c[..TitleLimit] + [Ellipsis]
  {
    TrimOfTrimmed(c);
    assert NoteBody(c) == c;
    NoColon(c);
  }
}
