/**
 * The work-hours page: work sessions (a start and an end on the clock, an
 * hourly pay and the earnings fixed when the session is added) and expenses,
 * kept under "taskflow_work_sessions_v1" and "taskflow_expenses_v1", their
 * totals, and the search over both lists. Durations are whole minutes and
 * money is whole cents.
 */
module WorkHours {
  import opened Wrappers
  import opened Strings
  import opened Lists

  const SessionsKey: string := "taskflow_work_sessions_v1"
  const ExpensesKey: string := "taskflow_expenses_v1"
  const DefaultExpenseName: string := "Expense"
  const DefaultExpenseType: string := "Food"
  const MinutesPerDay: int := 24 * 60

  // ---------------------------------------------------------------- clock times

  /** Where the first `c` in `t` is, or `|t|` when there is none. */
  function FirstAt(t: string, c: char): (i: nat)
    ensures i <= |t| && (i < |t| ==> t[i] == c)
    ensures forall k :: 0 <= k < i ==> t[k] != c
    decreases |t|
  {
    if t == [] || t[0] == c then 0 else FirstAt(t[1..], c) + 1
  }

  /** The text before the first `c`, and the text between it and the next `c` (or the end). */
  function TwoParts(t: string, c: char): (r: (string, string))
    requires FirstAt(t, c) < |t|
    ensures c !in r.0 && c !in r.1
  {
    var i := FirstAt(t, c);
    var rest := t[i + 1..];
    (t[..i], rest[..FirstAt(rest, c)])
  }

  /** What a time field holds: nothing, or a text with a ':' (the time input gives "HH:MM"). */
  predicate TimeField(t: string)
  {
    t == [] || FirstAt(t, ':') < |t|
  }

  /** `const [h, m] = t.split(":").map(Number)` as minutes after midnight, `None` when a part is `NaN`. */
  function ClockMinutes(t: string): (r: Option<nat>)
    requires FirstAt(t, ':') < |t|
    ensures r.Some? <==> ParseNumber(TwoParts(t, ':').0).Some? && ParseNumber(TwoParts(t, ':').1).Some?
  {
    var parts := TwoParts(t, ':');
    match (ParseNumber(parts.0), ParseNumber(parts.1))
    case (Some(h), Some(m)) => Some(h * 60 + m)
    case _ => None
  }

  /** A time field holding a time of day: both parts are numbers and the minutes fall within one day. */
  predicate OnClock(t: string)
  {
    t != [] && FirstAt(t, ':') < |t| && ClockMinutes(t).Some? && ClockMinutes(t).value < MinutesPerDay
  }

  /** The time of day `d` minutes after `s`, for `s` and `d` within one day: past midnight it starts again from 0. */
  function Advance(s: int, d: int): int
  {
    if s + d >= MinutesPerDay then s + d - MinutesPerDay else s + d
  }

  /**
   * `diffHours`, in minutes: 0 when a time is missing or not a number;
   * otherwise how far the end lies after the start on the clock, passing
   * midnight when the end is earlier than the start.
   */
  function DiffMinutes(start: string, end: string): (r: int)
    requires TimeField(start) && TimeField(end)
    ensures start == [] || end == [] ==> r == 0
    ensures start != [] && end != [] && (ClockMinutes(start).None? || ClockMinutes(end).None?) ==> r == 0
    ensures OnClock(start) && OnClock(end) ==>
      0 <= r < MinutesPerDay && Advance(ClockMinutes(start).value, r) == ClockMinutes(end).value
  {
    if start == [] || end == [] then 0
    else
      var s, e := ClockMinutes(start), ClockMinutes(end);
      if s.None? || e.None? then 0
      else if e.value >= s.value then e.value - s.value
      else e.value + MinutesPerDay - s.value
  }

  /** The duration is the forward distance on the clock: no other value within a day carries the start onto the end. */
  lemma DiffIsForwardDistance(start: string, end: string, d: int)
    requires OnClock(start) && OnClock(end)
    requires 0 <= d < MinutesPerDay && Advance(ClockMinutes(start).value, d) == ClockMinutes(end).value
    ensures DiffMinutes(start, end) == d
  {
  }

  /** A session starting and ending at the same time lasts nothing, so it is never added. */
  lemma SameTimeLastsNothing(t: string)
    requires TimeField(t)
    ensures DiffMinutes(t, t) == 0
  {
  }

  // ---------------------------------------------------------------- money

  /** The cents of up to two decimals: "5" is 50 cents, "05" is 5 cents, "" is none. */
  function FracCents(f: string): (c: nat)
    requires AllDigits(f) && |f| <= 2
    ensures c < 100
  {
    if f == [] then 0
    else if |f| == 1 then 10 * DigitValue(f[0])
    else 10 * DigitValue(f[0]) + DigitValue(f[1])
  }

  /** The cents of digits around a point: `None` unless both sides are digits, at most two decimals, not both empty. */
  function PointCents(whole: string, frac: string): (r: Option<nat>)
  {
    if AllDigits(whole) && AllDigits(frac) && |frac| <= 2 && (whole != [] || frac != [])
    then Some(100 * DigitsValue(whole) + FracCents(frac))
    else None
  }

  /** `Number(t)` for a trimmed money text, in cents. */
  function TrimmedCents(t: string): Option<nat>
  {
    var i := FirstAt(t, '.');
    if i < |t| then PointCents(t[..i], t[i + 1..])
    else if AllDigits(t) then Some(100 * DigitsValue(t))
    else None
  }

  /**
   * `Number(s || 0)` for a money field, in cents: surrounding white space is
   * ignored, "" is 0, then digits with at most two decimals after an optional
   * point ("12", "12.5", ".5", "12."); anything else is `NaN` (`None`).
   */
  function ParseCents(s: string): Option<nat>
  {
    TrimmedCents(Trim(s))
  }

  /** On whole numbers, blank text included, a money field agrees with `Number`, in units of 100 cents. */
  lemma ParseCentsOfNumber(s: string)
    ensures ParseNumber(s).Some? ==> ParseCents(s) == Some(100 * ParseNumber(s).value)
  {
    var t := Trim(s);
    if AllDigits(t) {
      var i := FirstAt(t, '.');
      assert i < |t| ==> IsDigit(t[i]);
    }
  }

  /** The cents of an amount after the point, without trailing zeros: 50 is "5", 5 is "05". */
  function FracText(f: nat): (r: string)
    requires 0 < f < 100
    ensures 1 <= |r| <= 2 && AllDigits(r) && IsDigit(r[|r| - 1])
  {
    if f % 10 == 0 then [DigitChar(f / 10)] else [DigitChar(f / 10), DigitChar(f % 10)]
  }

  lemma FracRoundTrip(f: nat)
    requires 0 < f < 100
    ensures FracCents(FracText(f)) == f
  {
  }

  /** `String(c / 100)`: the whole part, then the cents without trailing zeros ("12", "12.5", "12.05"). */
  function CentsText(c: nat): (r: string)
    ensures r != [] && IsDigit(r[0]) && IsDigit(r[|r| - 1])
  {
    var whole := NatToString(c / 100);
    if c % 100 == 0 then whole else whole + "." + FracText(c % 100)
  }

  /** The first point of `whole + "." + ft`, when `whole` has none, is the one put there. */
  lemma PointAfter(whole: string, ft: string)
    requires '.' !in whole
    ensures var t := whole + "." + ft;
      FirstAt(t, '.') == |whole| && t[..|whole|] == whole && t[|whole| + 1..] == ft
  {
    var t := whole + "." + ft;
    assert t[|whole|] == '.';
    forall k | 0 <= k < |whole| ensures t[k] != '.' {
      assert t[k] == whole[k];
    }
  }

  /** A trimmed text with a point is read as the digits around its first point. */
  lemma ParseAtPoint(t: string, i: nat)
    requires Trim(t) == t && i < |t| && FirstAt(t, '.') == i
    ensures ParseCents(t) == PointCents(t[..i], t[i + 1..])
  {
  }

  /** Digits, a point and one or two decimals read back as their cents. */
  lemma PointRoundTrip(whole: string, ft: string)
    requires whole != [] && AllDigits(whole) && 1 <= |ft| <= 2 && AllDigits(ft)
    ensures ParseCents(whole + "." + ft) == Some(100 * DigitsValue(whole) + FracCents(ft))
  {
    var t := whole + "." + ft;
    assert '.' !in whole;
    PointAfter(whole, ft);
    TrimOfTrimmed(t);
    ParseAtPoint(t, |whole|);
    PointDigits(whole, ft);
  }

  lemma PointDigits(whole: string, ft: string)
    requires whole != [] && AllDigits(whole) && 1 <= |ft| <= 2 && AllDigits(ft)
    ensures PointCents(whole, ft) == Some(100 * DigitsValue(whole) + FracCents(ft))
  {
  }

  /** Writing an amount as the page shows it and reading it back gives the amount. */
  lemma CentsRoundTrip(c: nat)
    ensures ParseCents(CentsText(c)) == Some(c)
  {
    if c % 100 == 0 {
      WholeRoundTrip(c);
    } else {
      CentsWithFracRoundTrip(c);
    }
  }

  lemma WholeRoundTrip(c: nat)
    requires c % 100 == 0
    ensures ParseCents(CentsText(c)) == Some(c)
  {
    var w := c / 100;
    NumberRoundTrip(w);
    ParseCentsOfNumber(NatToString(w));
    WholeText(c);
  }

  lemma CentsWithFracRoundTrip(c: nat)
    requires c % 100 != 0
    ensures ParseCents(CentsText(c)) == Some(c)
  {
    var w, f := c / 100, c % 100;
    var whole := NatToString(w);
    FracTextOf(c);
    DigitsOfNatToString(w);
    TextWithFracRoundTrip(whole, w, f, c);
  }

  lemma TextWithFracRoundTrip(whole: string, w: nat, f: nat, c: nat)
    requires whole != [] && AllDigits(whole) && DigitsValue(whole) == w && 0 < f < 100 && c == 100 * w + f
    ensures ParseCents(whole + "." + FracText(f)) == Some(c)
  {
    FracRoundTrip(f);
    PointRoundTrip(whole, FracText(f));
  }

  lemma WholeText(c: nat)
    requires c % 100 == 0
    ensures CentsText(c) == NatToString(c / 100)
  {
  }

  lemma FracTextOf(c: nat)
    requires c % 100 != 0
    ensures CentsText(c) == NatToString(c / 100) + "." + FracText(c % 100)
  {
  }

  /** `String(x || "")` for a stored amount: nothing for 0 or `null`, else the amount's text. */
  function AmountText(x: Option<nat>): (r: string)
    ensures x.Some? && x.value > 0 ==> ParseCents(r) == x
  {
    match x
    case Some(c) =>
      if c == 0 then "" else
      CentsRoundTrip(c);
      CentsText(c)
    case None => ""
  }

  /** `Number((hours * rate).toFixed(2))` in cents: the earnings to the nearest cent, `NaN` (`None`) with a rate that is not a number. */
  function Earnings(minutes: nat, rate: Option<nat>): (e: Option<nat>)
    ensures rate.None? <==> e.None?
    ensures rate.Some? ==> 60 * e.value <= minutes * rate.value + 30 < 60 * e.value + 60
  {
    match rate
    case Some(r) => Some((minutes * r + 30) / 60)
    case None => None
  }

  // ---------------------------------------------------------------- records

  /** A work session; `rate` and `earnings` are `null` when the pay typed was not a number. */
  datatype Session = Session(id: string, date: string, start: string, end: string, minutes: nat,
                             rate: Option<nat>, earnings: Option<nat>, notes: string, createdAt: int)

  /** An expense; `kind` is its type and `place` where it was spent or what for. */
  datatype Expense = Expense(id: string, date: string, name: string, kind: string, place: string,
                             amount: nat, createdAt: int)

  function SessionId(s: Session): string { s.id }

  function ExpenseId(e: Expense): string { e.id }

  /** The work-session form: date, start, end, hourly pay and notes, as typed. */
  datatype SessionForm = SessionForm(date: string, start: string, end: string, rate: string, notes: string)

  /** The expense form: date, name, type, place and amount, as typed. */
  datatype ExpenseForm = ExpenseForm(date: string, name: string, kind: string, place: string, amount: string)

  /**
   * The session `addWorkSession` creates: none when the date is empty, a time
   * is missing, or the duration is not positive; otherwise the duration, the
   * pay and the earnings computed from them.
   */
  function NewSession(form: SessionForm, id: string, createdAt: int): (r: Option<Session>)
    requires TimeField(form.start) && TimeField(form.end)
    ensures r.None? <==> form.date == [] || form.start == [] || form.end == [] || DiffMinutes(form.start, form.end) <= 0
    ensures r.Some? ==>
      && r.value.id == id && r.value.date == form.date && r.value.start == form.start && r.value.end == form.end
      && r.value.notes == form.notes && r.value.createdAt == createdAt
      && r.value.minutes == DiffMinutes(form.start, form.end) > 0
      && r.value.rate == ParseCents(form.rate)
      && r.value.earnings == Earnings(r.value.minutes, r.value.rate)
  {
    var minutes := DiffMinutes(form.start, form.end);
    if form.date == [] || form.start == [] || form.end == [] || minutes <= 0 then None
    else
      var rate := ParseCents(form.rate);
      Some(Session(id, form.date, form.start, form.end, minutes, rate, Earnings(minutes, rate), form.notes, createdAt))
  }

  /**
   * The expense `addExpense` creates: none when the date is empty or the
   * amount is not a positive number; the name defaults to "Expense" when
   * empty.
   */
  function NewExpense(form: ExpenseForm, id: string, createdAt: int): (r: Option<Expense>)
    ensures r.None? <==> form.date == [] || ParseCents(form.amount).None? || ParseCents(form.amount).value == 0
    ensures r.Some? ==>
      && r.value.id == id && r.value.date == form.date && r.value.kind == form.kind && r.value.place == form.place
      && r.value.createdAt == createdAt && r.value.amount > 0 && Some(r.value.amount) == ParseCents(form.amount)
      && r.value.name == (if form.name == [] then DefaultExpenseName else form.name) && r.value.name != []
  {
    match ParseCents(form.amount)
    case Some(a) =>
      if form.date == [] || a == 0 then None
      else Some(Expense(id, form.date, if form.name == [] then DefaultExpenseName else form.name, form.kind, form.place, a, createdAt))
    case None => None
  }

  // ---------------------------------------------------------------- totals

  function SessionMinutes(s: Session): int { s.minutes }

  /** `Number(s.earnings || 0)`: a `null` earning counts as nothing. */
  function SessionEarnings(s: Session): int { s.earnings.GetOr(0) }

  function ExpenseAmount(e: Expense): int { e.amount }

  datatype Stats = Stats(totalMinutes: int, totalEarnings: int, totalExpenses: int, net: int)

  /** `stats`: the sums over both whole lists, and what is left of the earnings after the expenses. */
  function ComputeStats(sessions: seq<Session>, expenses: seq<Expense>): (st: Stats)
    ensures st.net == st.totalEarnings - st.totalExpenses
    ensures st.totalMinutes >= 0 && st.totalEarnings >= 0 && st.totalExpenses >= 0
    ensures sessions == [] ==> st.totalMinutes == 0 && st.totalEarnings == 0
    ensures expenses == [] ==> st.totalExpenses == 0
  {
    SumNonNegative(sessions, SessionMinutes);
    SumNonNegative(sessions, SessionEarnings);
    SumNonNegative(expenses, ExpenseAmount);
    var earned := Sum(sessions, SessionEarnings);
    var spent := Sum(expenses, ExpenseAmount);
    Stats(Sum(sessions, SessionMinutes), earned, spent, earned - spent)
  }

  /** A new session adds its minutes and earnings to the totals and its earnings to the net. */
  lemma StatsAfterSession(x: Session, sessions: seq<Session>, expenses: seq<Expense>)
    ensures var before, after := ComputeStats(sessions, expenses), ComputeStats([x] + sessions, expenses);
      && after.totalMinutes == before.totalMinutes + x.minutes
      && after.totalEarnings == before.totalEarnings + x.earnings.GetOr(0)
      && after.totalExpenses == before.totalExpenses
      && after.net == before.net + x.earnings.GetOr(0)
  {
    SumAppend([x], sessions, SessionMinutes);
    SumAppend([x], sessions, SessionEarnings);
  }

  /** A new expense adds its amount to the spending and takes it off the net. */
  lemma StatsAfterExpense(x: Expense, sessions: seq<Session>, expenses: seq<Expense>)
    ensures var before, after := ComputeStats(sessions, expenses), ComputeStats(sessions, [x] + expenses);
      && after.totalMinutes == before.totalMinutes && after.totalEarnings == before.totalEarnings
      && after.totalExpenses == before.totalExpenses + x.amount
      && after.net == before.net - x.amount
  {
    SumAppend([x], expenses, ExpenseAmount);
  }

  // ---------------------------------------------------------------- search

  /** `search.trim().toLowerCase()`. */
  function Query(search: string): (q: string)
    ensures q == [] <==> IsBlank(search)
  {
    Lower(Trim(search))
  }

  /** One of the texts, lowercased, contains the query. */
  predicate AnyContains(texts: seq<string>, q: string)
  {
    exists k :: 0 <= k < |texts| && Contains(Lower(texts[k]), q)
  }

  /** The texts a session is searched by: date, start, end, notes and pay. */
  function SessionTexts(s: Session): seq<string>
  {
    [s.date, s.start, s.end, s.notes, AmountText(s.rate)]
  }

  /** The texts an expense is searched by: date, name, type, place and amount. */
  function ExpenseTexts(e: Expense): seq<string>
  {
    [e.date, e.name, e.kind, e.place, AmountText(Some(e.amount))]
  }

  function SessionHit(q: string): Session -> bool
  {
    (s: Session) => AnyContains(SessionTexts(s), q)
  }

  function ExpenseHit(q: string): Expense -> bool
  {
    (e: Expense) => AnyContains(ExpenseTexts(e), q)
  }

  /** `visibleSessions`: every session for a blank search, else those with a text containing the query. */
  function VisibleSessions(sessions: seq<Session>, search: string): (r: seq<Session>)
    ensures IsBlank(search) ==> r == sessions
    ensures !IsBlank(search) ==>
      forall s :: s in r <==> s in sessions && AnyContains(SessionTexts(s), Query(search))
    ensures |r| <= |sessions|
  {
    var q := Query(search);
    if q == [] then sessions else Filter(sessions, SessionHit(q))
  }

  /** `visibleExpenses`: every expense for a blank search, else those with a text containing the query. */
  function VisibleExpenses(expenses: seq<Expense>, search: string): (r: seq<Expense>)
    ensures IsBlank(search) ==> r == expenses
    ensures !IsBlank(search) ==>
      forall e :: e in r <==> e in expenses && AnyContains(ExpenseTexts(e), Query(search))
    ensures |r| <= |expenses|
  {
    var q := Query(search);
    if q == [] then expenses else Filter(expenses, ExpenseHit(q))
  }

  /** The search keeps the list's order: it distributes over concatenation. */
  lemma VisibleKeepsOrder(a: seq<Session>, b: seq<Session>, c: seq<Expense>, d: seq<Expense>, search: string)
    ensures VisibleSessions(a + b, search) == VisibleSessions(a, search) + VisibleSessions(b, search)
    ensures VisibleExpenses(c + d, search) == VisibleExpenses(c, search) + VisibleExpenses(d, search)
  {
    var q := Query(search);
    if q != [] {
      FilterAppend(a, b, SessionHit(q));
      FilterAppend(c, d, ExpenseHit(q));
    }
  }

  /** A session is found by its positive pay, typed back as the page shows it. */
  lemma FoundByPay(s: Session, sessions: seq<Session>, c: nat)
    requires s in sessions && s.rate == Some(c) && c > 0
    ensures s in VisibleSessions(sessions, CentsText(c))
  {
    var t := CentsText(c);
    TrimOfTrimmed(t);
    LowerOfDigits(t);
    ContainsSelf(t);
    assert SessionTexts(s)[4] == t;
  }

  /** Lowercasing leaves digits and the decimal point alone. */
  lemma {:induction false} LowerOfDigits(t: string)
    requires forall k :: 0 <= k < |t| ==> IsDigit(t[k]) || t[k] == '.'
    ensures Lower(t) == t
  {
    forall k | 0 <= k < |t| ensures Lower(t)[k] == t[k] {
    }
  }

  lemma ContainsSelf(t: string)
    ensures Contains(t, t)
  {
    ContainsAt(t, t, 0);
  }

  // ---------------------------------------------------------------- the page

  /** The page's state: both lists, the search text and the two forms. */
  class Page {
    var sessions: seq<Session>
    var expenses: seq<Expense>
    var search: string
    var sessionForm: SessionForm
    var expenseForm: ExpenseForm

    /** Loading: each stored list, or `[]` when it is absent, unreadable or not an array (`None`); both dates start on today. */
    constructor(savedSessions: Option<seq<Session>>, savedExpenses: Option<seq<Expense>>, today: string)
      ensures sessions == savedSessions.GetOr([]) && expenses == savedExpenses.GetOr([]) && search == ""
      ensures sessionForm == SessionForm(today, "", "", "", "")
      ensures expenseForm == ExpenseForm(today, "", DefaultExpenseType, "", "")
    {
      sessions, expenses, search := savedSessions.GetOr([]), savedExpenses.GetOr([]), "";
      sessionForm := SessionForm(today, "", "", "", "");
      expenseForm := ExpenseForm(today, "", DefaultExpenseType, "", "");
    }

    /**
     * `addWorkSession`: nothing changes unless the form gives a session;
     * then it goes in front, and start, end, pay and notes are cleared while
     * the date stays.
     */
    method AddWorkSession(id: string, createdAt: int)
      requires TimeField(sessionForm.start) && TimeField(sessionForm.end)
      modifies this`sessions, this`sessionForm
      ensures var made := NewSession(old(sessionForm), id, createdAt);
        && (made.None? ==> sessions == old(sessions) && sessionForm == old(sessionForm))
        && (made.Some? ==> sessions == [made.value] + old(sessions)
                           && sessionForm == SessionForm(old(sessionForm).date, "", "", "", ""))
    {
      var made := NewSession(sessionForm, id, createdAt);
      if made.None? {
        return;
      }
      sessions := [made.value] + sessions;
      sessionForm := SessionForm(sessionForm.date, "", "", "", "");
    }

    /** `deleteSession`. */
    method DeleteSession(id: string)
      modifies this`sessions
      ensures sessions == WithoutId(old(sessions), id, SessionId)
    {
      sessions := WithoutId(sessions, id, SessionId);
    }

    /**
     * `addExpense`: nothing changes unless the form gives an expense; then it
     * goes in front, name, place and amount are cleared and the type goes
     * back to "Food", while the date stays.
     */
    method AddExpense(id: string, createdAt: int)
      modifies this`expenses, this`expenseForm
      ensures var made := NewExpense(old(expenseForm), id, createdAt);
        && (made.None? ==> expenses == old(expenses) && expenseForm == old(expenseForm))
        && (made.Some? ==> expenses == [made.value] + old(expenses)
                           && expenseForm == ExpenseForm(old(expenseForm).date, "", DefaultExpenseType, "", ""))
    {
      var made := NewExpense(expenseForm, id, createdAt);
      if made.None? {
        return;
      }
      expenses := [made.value] + expenses;
      expenseForm := ExpenseForm(expenseForm.date, "", DefaultExpenseType, "", "");
    }

    /** `deleteExpense`. */
    method DeleteExpense(id: string)
      modifies this`expenses
      ensures expenses == WithoutId(old(expenses), id, ExpenseId)
    {
      expenses := WithoutId(expenses, id, ExpenseId);
    }
  }

  /** Deleting a session just added under a fresh id gives back the list, and so the totals. */
  lemma DeleteUndoesAddSession(x: Session, sessions: seq<Session>)
    requires forall k :: 0 <= k < |sessions| ==> sessions[k].id != x.id
    ensures WithoutId([x] + sessions, x.id, SessionId) == sessions
  {
    WithoutFreshHead(x, sessions, SessionId);
  }

  /** Deleting an expense just added under a fresh id gives back the list. */
  lemma DeleteUndoesAddExpense(x: Expense, expenses: seq<Expense>)
    requires forall k :: 0 <= k < |expenses| ==> expenses[k].id != x.id
    ensures WithoutId([x] + expenses, x.id, ExpenseId) == expenses
  {
    WithoutFreshHead(x, expenses, ExpenseId);
  }
}
