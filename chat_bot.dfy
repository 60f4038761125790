/**
 * The chat assistant's session: the conversation it keeps, the storage keys
 * it reads for its answers, and the records its create-commands write
 * (calendar reminders, dated todos, and the home page's copies of today's
 * items). The browser storage, today's date, the calendar's selected date
 * and the user's name are the state it works on; fresh ids and the clock
 * are passed in.
 */
module ChatBot {
  import opened Wrappers
  import opened Strings
  import opened Dates
  import opened Json
  import opened Lists
  import opened DayStore
  import opened ChatIntents
  import opened ChatParse
  import DashboardPage
  import CalendarPage

  const ChatKey := "taskflow_chat_history_v1"
  const TasksKey := "taskflow_tasks_v1"
  const SessionsKey := "taskflow_work_sessions_v1"
  const ExpensesKey := "taskflow_expenses_v1"
  const CalendarRemindersKey := CalendarPage.StorageKey
  const HomeTodosKey := "taskflow_todos_today"
  const HomeRemindersKey := "taskflow_reminders_today"
  const DefaultTime := "09:00"
  const Epoch := "1970-01-01"

  // ---------------------------------------------------------------- who is chatting

  /** `userDisplayName`: the trimmed name, or "there". */
  function DisplayName(name: string): (r: string)
    ensures r != [] && Trimmed(r)
    ensures Trim(name) != [] ==> r == Trim(name)
  {
    if Trim(name) == [] then "there" else Trim(name)
  }

  /** `storageKey`: the history key of one user, "guest" when there is no name. */
  function HistoryKey(name: string): (k: string)
    ensures |k| > |ChatKey| + 1 && k[..|ChatKey| + 1] == ChatKey + "_"
  {
    ChatKey + "_" + (if name == [] then "guest" else name)
  }

  /** Two named users never share a history. */
  lemma HistoryKeysDiffer(a: string, b: string)
    requires a != [] && b != [] && a != b
    ensures HistoryKey(a) != HistoryKey(b)
  {
    assert HistoryKey(a)[|ChatKey| + 1..] == a;
    assert HistoryKey(b)[|ChatKey| + 1..] == b;
  }

  // ---------------------------------------------------------------- replies and messages

  datatype Friendly = Greeting | GreetingTime | HowAreYou | WhoAmI | Thanks | WhoAreYou | SmallTalk

  datatype MoneyKind = Net | Expenses | Earnings | Work

  /** What the work-and-money answers are computed from. Numbers are `None` where JavaScript would give `NaN`. */
  datatype Summary = Summary(
    start: string, end: string,
    sessions: seq<Json>, expenses: seq<Json>,
    hours: Option<int>, earned: Option<int>, spent: Option<int>)

  /** The bot's replies, by kind, with the data each one reports. */
  datatype Reply =
    | Welcome(name: string)
    | Help
    | Chat(kind: Friendly)
    | TodayPlan
    | NotesSummary
    | FocusPlan
    | WeeklyProductivity
    | Money(money: MoneyKind, tf: Timeframe, summary: Summary)
    | Fallback
    | ReminderCreated(date: string, time: string, text: string)
    | ReminderEmpty
    | NoteCreated(title: string)
    | TodoCreated(todoDate: string, todoText: string)
    | TodoEmpty
    | Opening(page: string)

  datatype Message = UserSaid(id: string, text: string) | BotSaid(botId: string, reply: Reply)

  /** Fresh ids and the clock reading one `send` uses. */
  datatype Fresh = Fresh(userMsg: string, botMsg: string, item: string, mirror: string, now: int)

  // ---------------------------------------------------------------- answers

  predicate HelpWords(t: string) { t == [] || t == "help" || t == "menu" }

  /** `answerFriendlyChat`: the first small-talk test that passes, in the source's order. */
  function FriendlyKind(t: string): (r: Option<Friendly>)
    ensures r == Some(Greeting) <==> IsGreeting(t)
    ensures r.None? <==>
      && !IsGreeting(t) && !IsGreetingTime(t) && !IsHowAreYou(t) && !IsWhoAmI(t)
      && !IsThanks(t) && !IsWhoAreYou(t) && !IsSmallTalkInvite(t)
  {
    if IsGreeting(t) then Some(Greeting)
    else if IsGreetingTime(t) then Some(GreetingTime)
    else if IsHowAreYou(t) then Some(HowAreYou)
    else if IsWhoAmI(t) then Some(WhoAmI)
    else if IsThanks(t) then Some(Thanks)
    else if IsWhoAreYou(t) then Some(WhoAreYou)
    else if IsSmallTalkInvite(t) then Some(SmallTalk)
    else None
  }

  /** Neither the help words nor a greeting, thanks or farewell: the texts the bot looks up answers for. */
  predicate NotSmallTalk(t: string) { !HelpWords(t) && FriendlyKind(t).None? }

  predicate AsksPlan(t: string)
  {
    LooksLikeTodayPlan(t) || LooksLikeNotesSummary(t) || LooksLikeFocusPlan(t) || LooksLikeWeeklyProductivity(t)
  }

  predicate AsksMoney(t: string)
  {
    WantsNet(t) || WantsExpenses(t) || WantsEarnings(t) || WantsWorkHours(t)
  }

  /** The first day of a time frame's range (the last is today). */
  function RangeStart(tf: Timeframe, today: Date): (r: Date)
    requires Valid(today)
    ensures Valid(r)
    ensures tf != Total ==> DayNumber(r) <= DayNumber(today)
    ensures tf == Today ==> r == today
    ensures tf == Week ==> Weekday(DayNumber(r)) == 1 && DayNumber(today) - DayNumber(r) <= 6
    ensures tf == Month ==> r.year == today.year && r.month == today.month && r.day == 1
    ensures tf == Total ==> r == Date(1970, 1, 1)
  {
    match tf
    case Today => today
    case Week => StartOfWeekMonday(today)
    case Month => StartOfMonth(today)
    case Total => Date(1970, 1, 1)
  }

  /** `getRangeForTimeframe`: the first and last day of the range, as ISO text. */
  function RangeFor(tf: Timeframe, today: Date): (r: (string, string))
    requires Valid(today)
    ensures r.1 == FormatIso(today)
    ensures r.0 == FormatIso(RangeStart(tf, today))
    ensures tf == Total ==> r.0 == Epoch
  {
    (FormatIso(RangeStart(tf, today)), FormatIso(today))
  }

  lemma EpochBefore(d: Date)
    requires Valid(d) && d.year >= 1970
    ensures DayNumber(Date(1970, 1, 1)) <= DayNumber(d)
  {
  }

  /**
   * Today lies in every range from 1970 on; a record lies in today's range
   * exactly when it is dated today.
   */
  lemma RangeHoldsToday(tf: Timeframe, today: Date, d: Date)
    requires Valid(today) && Valid(d) && today.year >= 1970 && d.year >= 100
    requires RangeStart(tf, today).year >= 100
    ensures InRangeIso(FormatIso(today), RangeFor(tf, today).0, RangeFor(tf, today).1)
    ensures tf == Today ==> (InRangeIso(FormatIso(d), RangeFor(tf, today).0, RangeFor(tf, today).1)
      <==> DayNumber(d) == DayNumber(today))
  {
    var lo := RangeStart(tf, today);
    InRangeOfFormatted(today, lo, today);
    InRangeOfFormatted(d, lo, today);
    if tf == Total {
      EpochBefore(today);
    }
  }

  /** `items.reduce((sum, x) => sum + Number(x?.[key] || 0), 0)`: one `NaN` makes the whole sum `NaN`. */
  function SumField(items: seq<Json>, key: string): (r: Option<int>)
    ensures r.Some? <==> forall k :: 0 <= k < |items| ==> NumberOf(Get(items[k], key)).Some?
    decreases |items|
  {
    if items == [] then Some(0)
    else
      var rest := SumField(items[1..], key);
      assert forall k :: 1 <= k < |items| ==> items[k] == items[1..][k - 1];
      AddOpt(NumberOf(Get(items[0], key)), rest)
  }

  /** Summing a list of records is summing its parts. */
  lemma {:induction false} SumFieldAppend(a: seq<Json>, b: seq<Json>, key: string)
    ensures SumField(a + b, key) == AddOpt(SumField(a, key), SumField(b, key))
    decreases |a|
  {
    if a == [] {
      assert a + b == b;
    } else {
      var x := NumberOf(Get(a[0], key));
      assert (a + b)[0] == a[0] && (a + b)[1..] == a[1..] + b;
      assert SumField(a + b, key) == AddOpt(x, SumField(a[1..] + b, key));
      SumFieldAppend(a[1..], b, key);
      AddOptAssoc(x, SumField(a[1..], key), SumField(b, key));
    }
  }

  /** A record's `date` when it is text. */
  function DateOf(x: Json): Option<string>
  {
    match Get(x, "date")
    case Some(JStr(s)) => Some(s)
    case _ => None
  }

  /** `items.filter((x) => inRangeISO(x?.date, start, end))`. */
  function Dated(items: seq<Json>, start: string, end: string): (r: seq<Json>)
    ensures forall k :: 0 <= k < |r| ==> r[k] in items
    ensures forall k :: 0 <= k < |r| ==> DateOf(r[k]).Some? && InRangeIso(DateOf(r[k]).value, start, end)
    ensures forall k :: (0 <= k < |items| && DateOf(items[k]).Some? && InRangeIso(DateOf(items[k]).value, start, end)) ==> items[k] in r
  {
    Filter(items, (x: Json) => DateOf(x).Some? && InRangeIso(DateOf(x).value, start, end))
  }

  /** `summarizeWorkAndMoney`: the sessions and expenses dated in the range, and their totals. */
  function Summarize(st: Storage, tf: Timeframe, today: Date): (r: Summary)
    requires Valid(today)
    ensures (r.start, r.end) == RangeFor(tf, today)
    ensures forall k :: 0 <= k < |r.sessions| ==> r.sessions[k] in StoredList(st, SessionsKey)
    ensures forall k :: 0 <= k < |r.expenses| ==> r.expenses[k] in StoredList(st, ExpensesKey)
    ensures r.sessions == Dated(StoredList(st, SessionsKey), r.start, r.end)
    ensures r.expenses == Dated(StoredList(st, ExpensesKey), r.start, r.end)
    ensures r.hours == SumField(r.sessions, "hours") && r.earned == SumField(r.sessions, "earnings")
    ensures r.spent == SumField(r.expenses, "amount")
  {
    var (start, end) := RangeFor(tf, today);
    var sIn := Dated(StoredList(st, SessionsKey), start, end);
    var eIn := Dated(StoredList(st, ExpensesKey), start, end);
    Summary(start, end, sIn, eIn, SumField(sIn, "hours"), SumField(sIn, "earnings"), SumField(eIn, "amount"))
  }

  /** Profit: earnings less expenses. */
  function NetOf(s: Summary): (r: Option<int>)
    ensures r.Some? <==> s.earned.Some? && s.spent.Some?
    ensures r.Some? ==> r.value == s.earned.value - s.spent.value
  {
    if s.earned.Some? && s.spent.Some? then Some(s.earned.value - s.spent.value) else None
  }

  /**
   * `answerFor`: help words first, then small talk, then the four plan and
   * summary questions, then net, expenses, earnings and work hours for the
   * time frame the text names, then the menu of examples.
   */
  function AnswerFor(text: string, st: Storage, today: Date): (r: Reply)
    requires Valid(today)
    ensures HelpWords(NormalizeText(text)) <==> r == Help
    ensures !HelpWords(NormalizeText(text)) && FriendlyKind(NormalizeText(text)).Some?
      ==> r == Chat(FriendlyKind(NormalizeText(text)).value)
    ensures var t := NormalizeText(text);
      r == TodayPlan <==> NotSmallTalk(t) && LooksLikeTodayPlan(t)
    ensures var t := NormalizeText(text);
      r == NotesSummary <==> NotSmallTalk(t) && !LooksLikeTodayPlan(t) && LooksLikeNotesSummary(t)
    ensures var t := NormalizeText(text);
      r == FocusPlan <==>
        NotSmallTalk(t) && !LooksLikeTodayPlan(t) && !LooksLikeNotesSummary(t) && LooksLikeFocusPlan(t)
    ensures var t := NormalizeText(text);
      r == WeeklyProductivity <==>
        NotSmallTalk(t) && !LooksLikeTodayPlan(t) && !LooksLikeNotesSummary(t) && !LooksLikeFocusPlan(t)
        && LooksLikeWeeklyProductivity(t)
    ensures r.Money? ==>
      && NotSmallTalk(NormalizeText(text)) && !AsksPlan(NormalizeText(text))
      && r.tf == DetectTimeframe(NormalizeText(text)) && r.summary == Summarize(st, r.tf, today)
    ensures var t := NormalizeText(text);
      r.Money? && r.money == Net <==> NotSmallTalk(t) && !AsksPlan(t) && WantsNet(t)
    ensures var t := NormalizeText(text);
      r.Money? && r.money == Expenses <==> NotSmallTalk(t) && !AsksPlan(t) && !WantsNet(t) && WantsExpenses(t)
    ensures var t := NormalizeText(text);
      r.Money? && r.money == Earnings <==>
        NotSmallTalk(t) && !AsksPlan(t) && !WantsNet(t) && !WantsExpenses(t) && WantsEarnings(t)
    ensures var t := NormalizeText(text);
      r.Money? && r.money == Work <==>
        NotSmallTalk(t) && !AsksPlan(t) && !WantsNet(t) && !WantsExpenses(t) && !WantsEarnings(t)
        && WantsWorkHours(t)
    ensures r == Fallback <==>
      NotSmallTalk(NormalizeText(text)) && !AsksPlan(NormalizeText(text)) && !AsksMoney(NormalizeText(text))
  {
    var t := NormalizeText(text);
    if HelpWords(t) then Help
    else if FriendlyKind(t).Some? then Chat(FriendlyKind(t).value)
    else if LooksLikeTodayPlan(t) then TodayPlan
    else if LooksLikeNotesSummary(t) then NotesSummary
    else if LooksLikeFocusPlan(t) then FocusPlan
    else if LooksLikeWeeklyProductivity(t) then WeeklyProductivity
    else
      var tf := DetectTimeframe(t);
      if WantsNet(t) then Money(Net, tf, Summarize(st, tf, today))
      else if WantsExpenses(t) then Money(Expenses, tf, Summarize(st, tf, today))
      else if WantsEarnings(t) then Money(Earnings, tf, Summarize(st, tf, today))
      else if WantsWorkHours(t) then Money(Work, tf, Summarize(st, tf, today))
      else Fallback
  }

  // ---------------------------------------------------------------- stored records

  function TodoItem(id: string, text: string, date: string, now: int): Json
  {
    JObj([("id", JStr(id)), ("text", JStr(text)), ("date", JStr(date)), ("done", JBool(false)), ("createdAt", JNum(now))])
  }

  function HomeReminderItem(id: string, title: string, time: string, now: int): Json
  {
    JObj([("id", JStr(id)), ("title", JStr(title)), ("type", JStr("Reminder")), ("handled", JBool(false)),
          ("time", JStr(time)), ("createdAt", JNum(now))])
  }

  /** A day's list in a per-day home store, as the home page reads it. */
  function HomeDay(st: Storage, key: string, today: string, day: string): seq<Json>
  {
    DayItems(Migrate(SafeParse(st, key, JObj([])), today), day)
  }

  /** A day's list in the calendar's store: `store?.[day]` when it is an array. */
  function CalendarDay(st: Storage, day: string): seq<Json>
  {
    AsArray(Get(SafeParse(st, CalendarRemindersKey, JObj([])), day))
  }

  /** The properties of a stored object as `{ ...store }` copies them; other values copy nothing. */
  function OwnFields(v: Json): (r: Days)
    ensures forall d :: DayItems(r, d) == AsArray(Get(v, d))
  {
    if v.JObj? then v.fields else []
  }

  /** `a` and `b` agree on every key outside `keys`. */
  ghost predicate SameExcept(a: Storage, b: Storage, keys: set<string>)
  {
    forall k :: k !in keys ==> (k in a <==> k in b) && (k in a ==> a[k] == b[k])
  }

  /** The stored list under a key depends only on what is stored under that key. */
  lemma StoredListFrame(a: Storage, b: Storage, key: string)
    requires (key in a <==> key in b) && (key in a ==> a[key] == b[key])
    ensures StoredList(a, key) == StoredList(b, key)
  {
    assert SafeParse(a, key, JArr([])) == SafeParse(b, key, JArr([]));
  }

  /** Writing one key changes storage at that key only. */
  lemma SetItemSameExcept(st: Storage, key: string, v: Json)
    ensures SameExcept(st, SetItem(st, key, v), {key})
  {
  }

  /** Two writes, the first at `k1` and the second at `k2`, change storage at those two keys only. */
  lemma SameExceptChain(a: Storage, b: Storage, c: Storage, k1: string, k2: string)
    requires SameExcept(a, b, {k1}) && SameExcept(b, c, {k2})
    ensures SameExcept(a, c, {k1, k2})
  {
  }

  /** A change at `k1` only is a change at `k1` and `k2` only. */
  lemma SameExceptWider(a: Storage, b: Storage, k1: string, k2: string)
    requires SameExcept(a, b, {k1})
    ensures SameExcept(a, b, {k1, k2})
  {
  }

  /**
   * `saveHomeTodo` as written: the new todo in front of the array stored
   * under the home todos key, or alone when that key holds the home page's
   * per-day object.
   */
  function HomeTodosAsWritten(stored: Json, item: Json): (r: Json)
    ensures r.JArr? && |r.items| >= 1 && r.items[0] == item
    ensures stored.JArr? ==> r.items == [item] + stored.items
    ensures !stored.JArr? ==> r.items == [item]
  {
    JArr([item] + AsArray(Some(stored)))
  }

  /**
   * The home page reads that array back as today's list: the todos of every
   * other day, and today's earlier ones, are gone.
   */
  lemma HomeTodoAsWrittenLosesDays(fields: Days, today: string, item: Json, day: string)
    ensures DayItems(Migrate(HomeTodosAsWritten(JObj(fields), item), today), day)
      == if day == today then [item] else []
  {
  }

  /** `saveHomeTodo` as the home page's format asks: today's list in the per-day store gains the item. */
  function HomeStoreAfter(stored: Json, today: string, item: Json): (r: Json)
    ensures r.JObj?
    ensures DayItems(r.fields, today) == [item] + DayItems(Migrate(stored, today), today)
    ensures forall d :: d != today ==> DayItems(r.fields, d) == DayItems(Migrate(stored, today), d)
  {
    JObj(Prepend(Migrate(stored, today), today, item))
  }

  /** The storage keys the session writes are distinct. */
  lemma KeysDistinct()
    ensures CalendarRemindersKey != HomeRemindersKey && TasksKey != HomeTodosKey
  {
    assert |CalendarRemindersKey| != |HomeRemindersKey|;
    assert TasksKey[10] != HomeTodosKey[10];
  }

  /** Writing a day's list into the calendar store: that day gains the item, the others stay. */
  lemma CalendarWrite(st: Storage, day: string, item: Json)
    ensures var st' := SetItem(st, CalendarRemindersKey,
                               JObj(Prepend(OwnFields(SafeParse(st, CalendarRemindersKey, JObj([]))), day, item)));
      && CalendarDay(st', day) == [item] + CalendarDay(st, day)
      && forall d :: d != day ==> CalendarDay(st', d) == CalendarDay(st, d)
  {
    var next := JObj(Prepend(OwnFields(SafeParse(st, CalendarRemindersKey, JObj([]))), day, item));
    SafeParseOfSet(st, CalendarRemindersKey, next, JObj([]));
  }

  /** Writing today's list into a home store: today gains the item, the other days stay. */
  lemma HomeWrite(st: Storage, key: string, today: string, item: Json)
    ensures var st' := SetItem(st, key, HomeStoreAfter(SafeParse(st, key, JObj([])), today, item));
      && HomeDay(st', key, today, today) == [item] + HomeDay(st, key, today, today)
      && forall d :: d != today ==> HomeDay(st', key, today, d) == HomeDay(st, key, today, d)
  {
    var next := HomeStoreAfter(SafeParse(st, key, JObj([])), today, item);
    SafeParseOfSet(st, key, next, JObj([]));
    MigrateObjectItems(next, today);
  }

  /** A home day's list depends on nothing but the home store's key. */
  lemma HomeDayFrame(a: Storage, b: Storage, key: string, today: string)
    requires (key in a <==> key in b) && (key in a ==> a[key] == b[key])
    ensures forall d :: HomeDay(a, key, today, d) == HomeDay(b, key, today, d)
  {
    assert SafeParse(a, key, JObj([])) == SafeParse(b, key, JObj([]));
  }

  /** A calendar day's list depends on nothing but the calendar store's key. */
  lemma CalendarDayFrame(a: Storage, b: Storage)
    requires (CalendarRemindersKey in a <==> CalendarRemindersKey in b)
    requires CalendarRemindersKey in a ==> a[CalendarRemindersKey] == b[CalendarRemindersKey]
    ensures forall d :: CalendarDay(a, d) == CalendarDay(b, d)
  {
    assert SafeParse(a, CalendarRemindersKey, JObj([])) == SafeParse(b, CalendarRemindersKey, JObj([]));
  }

  lemma MigrateObjectItems(v: Json, today: string)
    requires v.JObj?
    ensures Migrate(v, today) == v.fields
  {
  }

  /** `^\d{4}-\d{2}-\d{2}$`: the shape of a date the calendar may announce. */
  predicate IsoShape(s: string)
  {
    |s| == 10 && s[4] == '-' && s[7] == '-'
    && forall k :: 0 <= k < 10 && k != 4 && k != 7 ==> IsDigit(s[k])
  }

  // ---------------------------------------------------------------- create commands

  predicate CreateCommand(t: string)
  {
    LooksLikeCreateCalendarReminder(t) || LooksLikeCreateNote(t) || LooksLikeCreateTodo(t)
  }

  /**
   * The date a reminder command is for: a date written in the text, else
   * tomorrow or today when the text says so, else the date selected on the
   * calendar, else today.
   */
  function ReminderDate(raw: string, today: Date, selected: string): (r: string)
    requires Valid(today)
    ensures ExtractIsoDate(raw, today).Some? ==> r == ExtractIsoDate(raw, today).value
    ensures ExtractIsoDate(raw, today).None? && selected != [] ==> r == selected
    ensures ExtractIsoDate(raw, today).None? && selected == [] ==> r == FormatIso(today)
    ensures r != []
  {
    match ExtractIsoDate(raw, today)
    case Some(d) => (IsoLiteralNonEmpty(raw, today); d)
    case None => if selected != [] then selected else FormatIso(today)
  }

  lemma IsoLiteralNonEmpty(raw: string, today: Date)
    requires Valid(today)
    ensures ExtractIsoDate(raw, today).Some? ==> ExtractIsoDate(raw, today).value != []
  {
    if Find(IsoDate, Lower(raw)).None? {
      if Contains(Lower(raw), "tomorrow") {
        assert FormatIso(AddDays(today, 1))[|IntToString(AddDays(today, 1).year)|] == '-';
      } else if Contains(Lower(raw), "today") {
        assert FormatIso(today)[|IntToString(today.year)|] == '-';
      }
    }
  }

  /** The time a reminder command is for: the clock time in the text as "HH:MM", else 09:00. */
  function ReminderTime(raw: string): (r: string)
    ensures |r| == 5 && r[2] == ':'
    ensures ParseTimeFixed(raw).None? ==> r == DefaultTime
    ensures ParseTimeFixed(raw).Some? ==> r == FormatClock(ParseTimeFixed(raw).value)
  {
    match ParseTimeFixed(raw)
    case Some(c) => FormatClock(c)
    case None => DefaultTime
  }

  /** The words a reminder command is written with, cut out of its text. */
  const ReminderWords: seq<string> :=
    ["set reminder", "add reminder", "create reminder", "remind me", "reminder", "at", "today", "tomorrow"]

  /** The reminder words, then the date and the time as the text wrote them (empty when absent). */
  function ReminderTokens(raw: string, today: Date): (r: seq<string>)
    requires Valid(today)
    ensures |r| == |ReminderWords| + 2 && r[..|ReminderWords|] == ReminderWords
  {
    ReminderWords + [ExtractIsoDate(raw, today).GetOr([]), TimeTokenFixed(raw).GetOr([])]
  }

  /** The date a todo command is for: a date written in the text, else tomorrow when it says so, else today. */
  function TodoDate(raw: string, today: Date): (r: string)
    requires Valid(today)
    ensures ExtractIsoDate(raw, today).Some? ==> r == ExtractIsoDate(raw, today).value
    ensures ExtractIsoDate(raw, today).None? && Contains(NormalizeText(raw), "tomorrow") ==> r == FormatIso(AddDays(today, 1))
    ensures ExtractIsoDate(raw, today).None? && !Contains(NormalizeText(raw), "tomorrow") ==> r == FormatIso(today)
  {
    match ExtractIsoDate(raw, today)
    case Some(d) => d
    case None => if Contains(NormalizeText(raw), "tomorrow") then FormatIso(AddDays(today, 1)) else FormatIso(today)
  }

  /** A todo command's text without its command words: each of the four tried in turn at the start. */
  function TodoBody(raw: string): string
  {
    DropCommand(DropCommand(DropCommand(DropCommand(raw, "add todo"), "create todo"), "add task"), "create task")
  }

  /** A reply that reports a created todo names the command's date and its body without the date words. */
  predicate TodoReplyFits(r: Reply, raw: string, today: Date)
    requires Valid(today)
  {
    r.TodoCreated? ==>
      && r.todoDate == TodoDate(raw, today)
      && r.todoText == Squish(RemoveTokens(TodoBody(raw), ["today", "tomorrow", TodoDate(raw, today)]))
  }

  // ---------------------------------------------------------------- the session

  class Session {
    /** The browser's local storage. */
    var storage: Storage
    /** The conversation shown, oldest first. */
    var messages: seq<Message>
    /** The date the calendar page last announced as selected. */
    var calendarDefault: string
    /** The notes handed to the notes store, oldest first. */
    var notesAdded: seq<NoteDraft>
    /** The signed-in user's name, possibly empty. */
    const userName: string
    /** Today's local date. */
    const today: Date

    /**
     * Opening the widget: the saved history when it holds any message,
     * otherwise the welcome message; the calendar default starts at today.
     */
    constructor (st: Storage, name: string, day: Date, saved: seq<Message>, id: string)
      requires Valid(day)
      ensures storage == st && userName == name && today == day && notesAdded == []
      ensures saved != [] ==> messages == saved
      ensures saved == [] ==> messages == [BotSaid(id, Welcome(DisplayName(name)))]
      ensures calendarDefault == FormatIso(day)
    {
      storage := st;
      userName := name;
      today := day;
      notesAdded := [];
      calendarDefault := FormatIso(day);
      if saved != [] {
        messages := saved;
      } else {
        messages := [BotSaid(id, Welcome(DisplayName(name)))];
      }
    }

    function TodayIso(): string
      reads this
      requires Valid(today)
    {
      FormatIso(today)
    }

    /** The calendar page announced a selected date; only text shaped like a date is taken. */
    method SelectDate(iso: string)
      modifies this
      ensures IsoShape(iso) ==> calendarDefault == iso
      ensures !IsoShape(iso) ==> calendarDefault == old(calendarDefault)
      ensures storage == old(storage) && messages == old(messages) && notesAdded == old(notesAdded)
    {
      if IsoShape(iso) {
        calendarDefault := iso;
      }
    }

    /** Today's entry of a per-day home store gains the item in front; the other days and every other key are kept. */
    method WriteHome(key: string, item: Json)
      requires Valid(today)
      modifies this`storage
      ensures HomeDay(storage, key, TodayIso(), TodayIso()) == [item] + HomeDay(old(storage), key, TodayIso(), TodayIso())
      ensures forall d :: d != TodayIso() ==> HomeDay(storage, key, TodayIso(), d) == HomeDay(old(storage), key, TodayIso(), d)
      ensures SameExcept(old(storage), storage, {key})
      ensures key != CalendarRemindersKey ==> forall d :: CalendarDay(storage, d) == CalendarDay(old(storage), d)
      ensures key != TasksKey ==> StoredList(storage, TasksKey) == StoredList(old(storage), TasksKey)
    {
      var next := HomeStoreAfter(SafeParse(storage, key, JObj([])), TodayIso(), item);
      HomeWrite(storage, key, TodayIso(), item);
      SetItemSameExcept(storage, key, next);
      if key != CalendarRemindersKey {
        CalendarDayFrame(SetItem(storage, key, next), storage);
      }
      if key != TasksKey {
        StoredListFrame(SetItem(storage, key, next), storage, TasksKey);
      }
      storage := SetItem(storage, key, next);
    }

    /** `saveHomeReminder`: today's list of the home reminders gains the reminder; blank text writes nothing. */
    method SaveHomeReminder(text: string, time: string, id: string, now: int)
      requires Valid(today)
      modifies this`storage
      ensures Trim(text) == [] ==> storage == old(storage)
      ensures Trim(text) != [] ==>
        && HomeDay(storage, HomeRemindersKey, TodayIso(), TodayIso())
          == [HomeReminderItem(id, Trim(text), if time == [] then DefaultTime else time, now)]
            + HomeDay(old(storage), HomeRemindersKey, TodayIso(), TodayIso())
        && (forall d :: d != TodayIso() ==>
              HomeDay(storage, HomeRemindersKey, TodayIso(), d) == HomeDay(old(storage), HomeRemindersKey, TodayIso(), d))
      ensures SameExcept(old(storage), storage, {HomeRemindersKey})
      ensures forall d :: CalendarDay(storage, d) == CalendarDay(old(storage), d)
    {
      var msg := Trim(text);
      if msg == [] {
        return;
      }
      KeysDistinct();
      WriteHome(HomeRemindersKey, HomeReminderItem(id, msg, if time == [] then DefaultTime else time, now));
    }

    /** `saveHomeTodo`, writing today's entry of the home page's per-day store. */
    method SaveHomeTodo(text: string, id: string, now: int)
      requires Valid(today)
      modifies this`storage
      ensures Trim(text) == [] ==> storage == old(storage)
      ensures Trim(text) != [] ==>
        && HomeDay(storage, HomeTodosKey, TodayIso(), TodayIso())
          == [DashboardPage.TodoItem(id, Trim(text), now)] + HomeDay(old(storage), HomeTodosKey, TodayIso(), TodayIso())
        && (forall d :: d != TodayIso() ==>
              HomeDay(storage, HomeTodosKey, TodayIso(), d) == HomeDay(old(storage), HomeTodosKey, TodayIso(), d))
      ensures SameExcept(old(storage), storage, {HomeTodosKey})
      ensures StoredList(storage, TasksKey) == StoredList(old(storage), TasksKey)
    {
      var msg := Trim(text);
      if msg == [] {
        return;
      }
      KeysDistinct();
      WriteHome(HomeTodosKey, DashboardPage.TodoItem(id, msg, now));
    }

    /** The calendar half of `saveCalendarReminder`: the item in front of the day's list, every other day and key kept. */
    method WriteCalendarReminder(day: string, item: Json)
      requires Valid(today)
      modifies this`storage
      ensures CalendarDay(storage, day) == [item] + CalendarDay(old(storage), day)
      ensures forall d :: d != day ==> CalendarDay(storage, d) == CalendarDay(old(storage), d)
      ensures SameExcept(old(storage), storage, {CalendarRemindersKey})
      ensures forall d :: HomeDay(storage, HomeRemindersKey, TodayIso(), d) == HomeDay(old(storage), HomeRemindersKey, TodayIso(), d)
    {
      var store := SafeParse(storage, CalendarRemindersKey, JObj([]));
      var next := JObj(Prepend(OwnFields(store), day, item));
      CalendarWrite(storage, day, item);
      SetItemSameExcept(storage, CalendarRemindersKey, next);
      KeysDistinct();
      HomeDayFrame(SetItem(storage, CalendarRemindersKey, next), storage, HomeRemindersKey, TodayIso());
      storage := SetItem(storage, CalendarRemindersKey, next);
    }

    /**
     * `saveCalendarReminder`: blank text writes nothing and fails; otherwise
     * the date's list gains the reminder (date defaulting to today, time to
     * 09:00), and a reminder for today is also put on the home page.
     */
    method SaveCalendarReminder(date: string, time: string, text: string, id: string, mirror: string, now: int)
      returns (r: Reply)
      requires Valid(today)
      modifies this`storage
      ensures Trim(text) == [] <==> r == ReminderEmpty
      ensures r == ReminderEmpty ==> storage == old(storage)
      ensures r != ReminderEmpty ==>
        && r == ReminderCreated(if date == [] then TodayIso() else date, if time == [] then DefaultTime else time, Trim(text))
        && CalendarDay(storage, r.date) == [CalendarPage.ReminderItem(id, r.text, r.time, now)] + CalendarDay(old(storage), r.date)
        && (forall d :: d != r.date ==> CalendarDay(storage, d) == CalendarDay(old(storage), d))
        && (r.date == TodayIso() ==>
              HomeDay(storage, HomeRemindersKey, TodayIso(), TodayIso())
                == [HomeReminderItem(mirror, r.text, r.time, now)] + HomeDay(old(storage), HomeRemindersKey, TodayIso(), TodayIso()))
        && (r.date != TodayIso() ==> SameExcept(old(storage), storage, {CalendarRemindersKey}))
      ensures SameExcept(old(storage), storage, {CalendarRemindersKey, HomeRemindersKey})
    {
      var day := if date == [] then TodayIso() else date;
      var at := if time == [] then DefaultTime else time;
      var msg := Trim(text);
      if msg == [] {
        return ReminderEmpty;
      }
      WriteCalendarReminder(day, CalendarPage.ReminderItem(id, msg, at, now));
      if day == TodayIso() {
        ghost var written := storage;
        KeysDistinct();
        WriteHome(HomeRemindersKey, HomeReminderItem(mirror, msg, at, now));
        SameExceptChain(old(storage), written, storage, CalendarRemindersKey, HomeRemindersKey);
      } else {
        SameExceptWider(old(storage), storage, CalendarRemindersKey, HomeRemindersKey);
      }
      r := ReminderCreated(day, at, msg);
    }

    /** The half of `saveTodo` that writes the stored tasks: the item in front of the stored list, every other key kept. */
    method WriteTodo(item: Json)
      requires Valid(today)
      modifies this`storage
      ensures StoredList(storage, TasksKey) == [item] + StoredList(old(storage), TasksKey)
      ensures SameExcept(old(storage), storage, {TasksKey})
      ensures forall d :: HomeDay(storage, HomeTodosKey, TodayIso(), d) == HomeDay(old(storage), HomeTodosKey, TodayIso(), d)
    {
      var next := JArr([item] + StoredList(storage, TasksKey));
      SafeParseOfSet(storage, TasksKey, next, JArr([]));
      SetItemSameExcept(storage, TasksKey, next);
      KeysDistinct();
      HomeDayFrame(SetItem(storage, TasksKey, next), storage, HomeTodosKey, TodayIso());
      storage := SetItem(storage, TasksKey, next);
    }

    /**
     * `saveTodo`: blank text writes nothing and fails; otherwise the todo
     * list gains the todo in front (date defaulting to today), and a todo for
     * today is also put on the home page.
     */
    method SaveTodo(date: string, text: string, id: string, mirror: string, now: int) returns (r: Reply)
      requires Valid(today)
      modifies this`storage
      ensures Trim(text) == [] <==> r == TodoEmpty
      ensures r == TodoEmpty ==> storage == old(storage)
      ensures r != TodoEmpty ==>
        && r == TodoCreated(if date == [] then TodayIso() else date, Trim(text))
        && StoredList(storage, TasksKey) == [TodoItem(id, r.todoText, r.todoDate, now)] + StoredList(old(storage), TasksKey)
        && (r.todoDate == TodayIso() ==>
              HomeDay(storage, HomeTodosKey, TodayIso(), TodayIso())
                == [DashboardPage.TodoItem(mirror, r.todoText, now)] + HomeDay(old(storage), HomeTodosKey, TodayIso(), TodayIso()))
        && (r.todoDate != TodayIso() ==> SameExcept(old(storage), storage, {TasksKey}))
      ensures SameExcept(old(storage), storage, {TasksKey, HomeTodosKey})
    {
      var day := if date == [] then TodayIso() else date;
      var msg := Trim(text);
      if msg == [] {
        return TodoEmpty;
      }
      WriteTodo(TodoItem(id, msg, day, now));
      if day == TodayIso() {
        ghost var written := storage;
        KeysDistinct();
        WriteHome(HomeTodosKey, DashboardPage.TodoItem(mirror, msg, now));
        SameExceptChain(old(storage), written, storage, TasksKey, HomeTodosKey);
      } else {
        SameExceptWider(old(storage), storage, TasksKey, HomeTodosKey);
      }
      r := TodoCreated(day, msg);
    }

    /** `push`: one message at the end. */
    method Push(m: Message)
      modifies this`messages
      ensures messages == old(messages) + [m]
    {
      messages := messages + [m];
    }

    /** The reminder command: its date, time and cleaned text go to `saveCalendarReminder`. */
    method CreateReminder(raw: string, f: Fresh) returns (r: Reply)
      requires Valid(today)
      modifies this`storage
      ensures r.ReminderCreated? || r == ReminderEmpty
      ensures r.ReminderCreated? ==>
        && r.date == ReminderDate(raw, today, old(calendarDefault))
        && r.time == ReminderTime(raw)
        && r.text == Squish(RemoveTokens(raw, ReminderTokens(raw, today)))
        && Tidy(r.text) && r.text != []
    {
      var date := ReminderDate(raw, today, calendarDefault);
      var time := ReminderTime(raw);
      var cleaned := StripTokensForText(raw, ReminderTokens(raw, today));
      SquishOfTidy(cleaned);
      cleaned := Squish(cleaned);
      r := SaveCalendarReminder(date, time, cleaned, f.item, f.mirror, f.now);
    }

    /** The note command: the parsed note goes to the notes store. */
    method CreateNote(raw: string) returns (r: Reply)
      modifies this`notesAdded
      ensures notesAdded == old(notesAdded) + [ParseNote(raw)]
      ensures r == NoteCreated(ParseNote(raw).title)
    {
      var note := ParseNote(raw);
      notesAdded := notesAdded + [note];
      r := NoteCreated(note.title);
    }

    /** The todo command: its date and cleaned body go to `saveTodo`. */
    method CreateTodo(raw: string, f: Fresh) returns (r: Reply)
      requires Valid(today)
      modifies this`storage
      ensures r.TodoCreated? || r == TodoEmpty
      ensures r.TodoCreated? ==>
        && r.todoDate == TodoDate(raw, today)
        && r.todoText == Squish(RemoveTokens(TodoBody(raw), ["today", "tomorrow", TodoDate(raw, today)]))
      ensures TodoReplyFits(r, raw, today)
    {
      var date := TodoDate(raw, today);
      var cleaned := StripTokensForText(TodoBody(raw), ["today", "tomorrow", date]);
      SquishOfTidy(cleaned);
      r := SaveTodo(date, cleaned, f.item, f.mirror, f.now);
    }

    /**
     * `tryHandleCreateCommands`: a reminder, note or todo command (looked for in
     * that order on the normalised text) is carried out and answered; any
     * other text is left for navigation and answers.
     */
    method TryHandleCreateCommands(raw: string, f: Fresh) returns (h: Option<Reply>)
      requires Valid(today)
      modifies this`storage, this`notesAdded
      ensures h.None? <==> !CreateCommand(NormalizeText(raw))
      ensures h.None? ==> storage == old(storage) && notesAdded == old(notesAdded)
      ensures h.Some? ==> !h.value.Opening?
      ensures LooksLikeCreateCalendarReminder(NormalizeText(raw)) ==>
        && h.Some? && (h.value.ReminderCreated? || h.value == ReminderEmpty)
        && notesAdded == old(notesAdded)
      ensures h.Some? && h.value.ReminderCreated? ==>
        && h.value.date == ReminderDate(raw, today, old(calendarDefault))
        && h.value.time == ReminderTime(raw)
        && h.value.text == Squish(RemoveTokens(raw, ReminderTokens(raw, today)))
        && Tidy(h.value.text) && h.value.text != []
      ensures !LooksLikeCreateCalendarReminder(NormalizeText(raw)) && LooksLikeCreateNote(NormalizeText(raw)) ==>
        && h == Some(NoteCreated(ParseNote(raw).title))
        && notesAdded == old(notesAdded) + [ParseNote(raw)] && storage == old(storage)
      ensures (!LooksLikeCreateCalendarReminder(NormalizeText(raw)) && !LooksLikeCreateNote(NormalizeText(raw))
               && LooksLikeCreateTodo(NormalizeText(raw))) ==>
        && h.Some? && (h.value.TodoCreated? || h.value == TodoEmpty) && notesAdded == old(notesAdded)
      ensures h.Some? ==> TodoReplyFits(h.value, raw, today)
    {
      if LooksLikeCreateCalendarReminder(NormalizeText(raw)) {
        var res := CreateReminder(raw, f);
        h := Some(res);
        assert CreateCommand(NormalizeText(raw)) && !res.TodoCreated?;
      } else {
        h := TryNoteOrTodo(raw, f);
        assert h.Some? ==> !h.value.ReminderCreated?;
      }
    }

    /** The rest of `tryHandleCreateCommands` once the text is not a reminder command: a note, else a todo. */
    method TryNoteOrTodo(raw: string, f: Fresh) returns (h: Option<Reply>)
      requires Valid(today)
      modifies this`storage, this`notesAdded
      ensures h.None? <==> !LooksLikeCreateNote(NormalizeText(raw)) && !LooksLikeCreateTodo(NormalizeText(raw))
      ensures h.None? ==> storage == old(storage) && notesAdded == old(notesAdded)
      ensures h.Some? ==> !h.value.Opening? && !h.value.ReminderCreated?
      ensures LooksLikeCreateNote(NormalizeText(raw)) ==>
        && h == Some(NoteCreated(ParseNote(raw).title))
        && notesAdded == old(notesAdded) + [ParseNote(raw)] && storage == old(storage)
      ensures !LooksLikeCreateNote(NormalizeText(raw)) && LooksLikeCreateTodo(NormalizeText(raw)) ==>
        && h.Some? && (h.value.TodoCreated? || h.value == TodoEmpty) && notesAdded == old(notesAdded)
      ensures h.Some? ==> TodoReplyFits(h.value, raw, today)
    {
      if LooksLikeCreateNote(NormalizeText(raw)) {
        ghost var before := storage;
        var res := CreateNote(raw);
        h := Some(res);
        assert storage == before && !res.TodoCreated?;
      } else {
        h := TryTodo(raw, f);
        assert h.Some? ==> !h.value.Opening? && !h.value.ReminderCreated?;
      }
    }

    /** The last step of `tryHandleCreateCommands`: a todo command, or nothing. */
    method TryTodo(raw: string, f: Fresh) returns (h: Option<Reply>)
      requires Valid(today)
      modifies this`storage
      ensures h.None? <==> !LooksLikeCreateTodo(NormalizeText(raw))
      ensures h.None? ==> storage == old(storage)
      ensures h.Some? ==> h.value.TodoCreated? || h.value == TodoEmpty
      ensures h.Some? ==> TodoReplyFits(h.value, raw, today)
    {
      if LooksLikeCreateTodo(NormalizeText(raw)) {
        var res := CreateTodo(raw, f);
        h := Some(res);
      } else {
        h := None;
      }
    }

    /**
     * The bot's reply to a trimmed text: a create command's result, else
     * "Opening <page>" for a page the text names, else the answer to the text.
     */
    method Respond(text: string, f: Fresh) returns (reply: Reply)
      requires Valid(today)
      modifies this`storage, this`notesAdded
      ensures !CreateCommand(NormalizeText(text)) ==>
        && storage == old(storage) && notesAdded == old(notesAdded)
        && reply == match MatchRoute(text)
                    case Some(route) => Opening(RouteLabel(route))
                    case None => AnswerFor(text, old(storage), today)
      ensures CreateCommand(NormalizeText(text)) ==> !reply.Opening?
    {
      var created := TryHandleCreateCommands(text, f);
      if created.Some? {
        return created.value;
      }
      match MatchRoute(text) {
        case Some(route) =>
          reply := Opening(RouteLabel(route));
        case None =>
          reply := AnswerFor(text, storage, today);
      }
    }

    /**
     * One exchange for a non-blank trimmed text: the user's message, then
     * exactly one bot reply, a create command's result, else "Opening
     * <page>" for a page the text names, else the answer to the text.
     */
    method Exchange(text: string, f: Fresh) returns (reply: Reply)
      requires Valid(today) && text != []
      modifies this`messages, this`storage, this`notesAdded
      ensures messages == old(messages) + [UserSaid(f.userMsg, text), BotSaid(f.botMsg, reply)]
      ensures !CreateCommand(NormalizeText(text)) ==>
        && storage == old(storage) && notesAdded == old(notesAdded)
        && reply == match MatchRoute(text)
                    case Some(route) => Opening(RouteLabel(route))
                    case None => AnswerFor(text, old(storage), today)
      ensures CreateCommand(NormalizeText(text)) ==> !reply.Opening?
    {
      reply := Respond(text, f);
      messages := messages + [UserSaid(f.userMsg, text), BotSaid(f.botMsg, reply)];
    }

    /**
     * `send`: blank input does nothing; otherwise the trimmed text is added
     * as the user's message and exactly one bot reply follows: a create
     * command's result, else "Opening <page>" for a page the text names,
     * else the answer to the text.
     */
    method Send(input: string, f: Fresh)
      requires Valid(today)
      modifies this`messages, this`storage, this`notesAdded
      ensures Trim(input) == [] ==>
        && messages == old(messages) && storage == old(storage) && notesAdded == old(notesAdded)
      ensures Trim(input) != [] ==>
        && |messages| == |old(messages)| + 2 && messages[..|old(messages)|] == old(messages)
        && messages[|old(messages)|] == UserSaid(f.userMsg, Trim(input))
        && messages[|old(messages)| + 1].BotSaid? && messages[|old(messages)| + 1].botId == f.botMsg
      ensures Trim(input) != [] && !CreateCommand(NormalizeText(Trim(input))) ==>
        && storage == old(storage) && notesAdded == old(notesAdded)
        && messages[|old(messages)| + 1].reply ==
             match MatchRoute(Trim(input))
             case Some(route) => Opening(RouteLabel(route))
             case None => AnswerFor(Trim(input), old(storage), today)
      ensures Trim(input) != [] && CreateCommand(NormalizeText(Trim(input))) ==>
        !messages[|old(messages)| + 1].reply.Opening?
    {
      var text := Trim(input);
      if text == [] {
        return;
      }
      var reply := Exchange(text, f);
    }

    /** `clearChat`: the conversation starts over with the welcome message. */
    method ClearChat(id: string)
      modifies this`messages
      ensures messages == [BotSaid(id, Welcome(DisplayName(userName)))]
    {
      messages := [BotSaid(id, Welcome(DisplayName(userName)))];
    }
  }
}
