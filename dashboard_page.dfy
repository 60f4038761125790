/**
 * The dashboard: today's todos and reminders, kept in per-day stores under
 * "taskflow_todos_today" and "taskflow_reminders_today" (a store written as
 * one flat array by older code is migrated on load), and the statistics
 * cards.
 */
module DashboardPage {
  import opened Wrappers
  import opened Strings
  import opened Lists
  import opened Dates
  import opened Json
  import opened DayStore
  import opened Records

  const TodosKey: string := "taskflow_todos_today"
  const RemindersKey: string := "taskflow_reminders_today"
  const NoTime: string := "\U{2014}"

  /** A new dashboard todo: `{ id, text, done: false, createdAt }`. */
  function TodoItem(id: string, text: string, createdAt: int): (x: Json)
    ensures HasId(x, id) && Get(x, "text") == Some(JStr(text)) && Get(x, "done") == Some(JBool(false))
  {
    var f := [("id", JStr(id)), ("text", JStr(text)), ("done", JBool(false)), ("createdAt", JNum(createdAt))];
    KeysByShape(f);
    LookupUnique(f);
    assert f[0].0 == "id" && f[1].0 == "text" && f[2].0 == "done";
    JObj(f)
  }

  /** A new dashboard reminder: `{ id, title, time, handled: false, createdAt }`. */
  function ReminderItem(id: string, title: string, time: string, createdAt: int): (x: Json)
    ensures HasId(x, id) && Get(x, "title") == Some(JStr(title)) && Get(x, "time") == Some(JStr(time))
    ensures Get(x, "handled") == Some(JBool(false))
  {
    var f := [("id", JStr(id)), ("title", JStr(title)), ("time", JStr(time)), ("handled", JBool(false)),
              ("createdAt", JNum(createdAt))];
    KeysByShape(f);
    LookupUnique(f);
    assert f[0].0 == "id" && f[1].0 == "title" && f[2].0 == "time" && f[3].0 == "handled";
    JObj(f)
  }

  /** `x ?? y ?? dflt` on two looked-up fields. */
  function Coalesce(x: Option<Json>, y: Option<Json>, dflt: Json): (r: Json)
    ensures x.Some? && x.value != JNull ==> r == x.value
    ensures (x.None? || x.value == JNull) && y.Some? && y.value != JNull ==> r == y.value
    ensures (x.None? || x.value == JNull) && (y.None? || y.value == JNull) ==> r == dflt
  {
    Nullish(x, Nullish(y, Some(dflt))).GetOr(dflt)
  }

  /**
   * `{ ...x, [key]: x?.[first] ?? x?.[second] ?? "" }`: the field set from the
   * first of two fields that is present, every other field of an object kept.
   */
  function WithField(x: Json, key: string, first: string, second: string): (r: Json)
    ensures r.JObj?
    ensures Get(r, key) == Some(Coalesce(Get(x, first), Get(x, second), JStr("")))
    ensures x.JObj? ==> forall k :: k != key ==> Get(r, k) == Get(x, k)
  {
    var v := Coalesce(Get(x, first), Get(x, second), JStr(""));
    if x.JObj? then JObj(Put(x.fields, key, v)) else JObj([(key, v)])
  }

  /** Loaded todos: each gets `text` from `text ?? title ?? ""`. */
  function WithTexts(items: seq<Json>): (r: seq<Json>)
    ensures |r| == |items| && forall k :: 0 <= k < |items| ==> r[k] == WithField(items[k], "text", "text", "title")
  {
    seq(|items|, k requires 0 <= k < |items| => WithField(items[k], "text", "text", "title"))
  }

  /** Loaded reminders: each gets `title` from `title ?? text ?? ""`. */
  function WithTitles(items: seq<Json>): (r: seq<Json>)
    ensures |r| == |items| && forall k :: 0 <= k < |items| ==> r[k] == WithField(items[k], "title", "title", "text")
  {
    seq(|items|, k requires 0 <= k < |items| => WithField(items[k], "title", "title", "text"))
  }

  /** A loaded record whose field is already a string keeps it unchanged. */
  lemma WithFieldKeeps(fields: seq<(string, Json)>, key: string, other: string, s: string)
    requires Lookup(fields, key) == Some(JStr(s))
    ensures WithField(JObj(fields), key, key, other) == JObj(fields)
  {
    PutSame(fields, key, JStr(s));
  }

  /** The write-back of the load effect: a legacy array is stored again as `{ [today]: array }`. */
  function Migrated(st: Storage, key: string, raw: Json, today: string): (r: Storage)
    ensures raw.JArr? ==> r == SetItem(st, key, JObj([(today, raw)]))
    ensures !raw.JArr? ==> r == st
  {
    if raw.JArr? then SetItem(st, key, JObj(Migrate(raw, today))) else st
  }

  /** After the write-back the key holds an object whose days read as the array did. */
  lemma MigrationStable(st: Storage, key: string, items: seq<Json>, today: string)
    ensures var st' := Migrated(st, key, JArr(items), today);
      && ParseItemOr(st', key, JObj([])) == Some(JObj([(today, JArr(items))]))
      && DayItems(Migrate(JObj([(today, JArr(items))]), today), today) == items
      && (forall d :: d != today ==> DayItems(Migrate(JObj([(today, JArr(items))]), today), d) == [])
      && Migrated(st', key, JObj([(today, JArr(items))]), today) == st'
  {
  }

  /** `persist`: the stored per-day map with today's entry replaced; `None` when the stored text does not parse. */
  function Persisted(st: Storage, key: string, today: string, items: seq<Json>): (r: Option<Storage>)
    ensures r.None? <==> ParseItemOr(st, key, JObj([])).None?
    ensures r.Some? ==> r.value == SetItem(st, key, JObj(SetDay(Migrate(ParseItemOr(st, key, JObj([])).value, today), today, items)))
  {
    match ParseItemOr(st, key, JObj([]))
    case None => None
    case Some(raw) => Some(SetItem(st, key, JObj(SetDay(Migrate(raw, today), today, items))))
  }

  /** Persisting replaces today's list and leaves every other day, and every other key, as it was. */
  lemma PersistOnlyToday(st: Storage, key: string, today: string, items: seq<Json>)
    requires ParseItemOr(st, key, JObj([])).Some?
    ensures var before := Migrate(ParseItemOr(st, key, JObj([])).value, today);
      var after := ParseItemOr(Persisted(st, key, today, items).value, key, JObj([])).value;
      && DayItems(Migrate(after, today), today) == items
      && forall d :: d != today ==> DayItems(Migrate(after, today), d) == DayItems(before, d)
  {
  }

  /** `inThisWeek`: the day parses and lies in `[Sunday, Sunday + 7 days)` of today's week. */
  predicate InThisWeek(dateStr: string, today: Date)
    requires Valid(today)
  {
    match IsoDateTimeDay(dateStr)
    case None => false
    case Some(n) => DayNumber(StartOfWeekSunday(today)) <= n < DayNumber(StartOfWeekSunday(today)) + 7
  }

  /** Today is in this week, and so is every day from this week's Sunday to its Saturday, and no other. */
  lemma WeekWindow(d: Date, today: Date)
    requires Valid(d) && Valid(today) && 1000 <= d.year <= 9999
    ensures InThisWeek(FormatIso(d), today) <==>
      DayNumber(StartOfWeekSunday(today)) <= DayNumber(d) < DayNumber(StartOfWeekSunday(today)) + 7
    ensures d == today ==> InThisWeek(FormatIso(d), today)
  {
    IsoDateTimeOfFormatted(d);
  }

  /** A work session counted this week: a non-empty string date in this week. */
  function SessionInWeek(today: Date): Json -> bool
    requires Valid(today)
  {
    (x: Json) => match Get(x, "date")
      case Some(JStr(s)) => s != [] && InThisWeek(s, today)
      case _ => false
  }

  /** `Number(s.durationSec) || 0`. */
  function Seconds(x: Json): int
  {
    NumberOf(Get(x, "durationSec")).GetOr(0)
  }

  /** The seconds worked this week. */
  function WeekSeconds(sessions: seq<Json>, today: Date): (r: int)
    requires Valid(today)
  {
    Sum(Filter(sessions, SessionInWeek(today)), Seconds)
  }

  /** A session outside this week adds nothing to the week's seconds, one inside adds its own. */
  lemma WeekSecondsAppend(sessions: seq<Json>, x: Json, today: Date)
    requires Valid(today)
    ensures WeekSeconds(sessions + [x], today)
      == WeekSeconds(sessions, today) + (if SessionInWeek(today)(x) then Seconds(x) else 0)
  {
    FilterAppend(sessions, [x], SessionInWeek(today));
    SumAppend(Filter(sessions, SessionInWeek(today)), Filter([x], SessionInWeek(today)), Seconds);
  }

  function Flag(key: string): Json -> bool
  {
    (x: Json) => Truthy(Get(x, key))
  }

  /** The statistics cards (the month's earnings, a floating-point product, are not modelled). */
  datatype Stats = Stats(totalTodos: nat, doneTodos: nat, todoPct: nat,
                         totalRem: nat, handledRem: nat, remPct: nat, weekSeconds: int)

  function ComputeStats(todos: seq<Json>, reminders: seq<Json>, sessions: seq<Json>, today: Date): (s: Stats)
    requires Valid(today)
    ensures s.totalTodos == |todos| && s.doneTodos == |Filter(todos, Flag("done"))| && s.doneTodos <= s.totalTodos
    ensures s.totalRem == |reminders| && s.handledRem == |Filter(reminders, Flag("handled"))| && s.handledRem <= s.totalRem
    ensures RoundedPercent(s.todoPct, s.doneTodos, s.totalTodos) && RoundedPercent(s.remPct, s.handledRem, s.totalRem)
    ensures s.todoPct <= 100 && (s.totalTodos == 0 ==> s.todoPct == 0)
    ensures s.remPct <= 100 && (s.totalRem == 0 ==> s.remPct == 0)
    ensures s.weekSeconds == WeekSeconds(sessions, today)
  {
    var done := Count(todos, Flag("done"));
    var handled := Count(reminders, Flag("handled"));
    Stats(|todos|, done, Percent(done, |todos|), |reminders|, handled, Percent(handled, |reminders|),
          WeekSeconds(sessions, today))
  }

  /** The dashboard's state: its two lists, its two forms, and the storage it loads from and persists to. */
  class Dashboard {
    var store: Storage
    var todos: seq<Json>
    var reminders: seq<Json>
    var todoText: string
    var remText: string
    var remTime: string
    const today: string

    constructor(store: Storage, today: string)
      ensures this.store == store && this.today == today
      ensures todos == [] && reminders == [] && todoText == "" && remText == "" && remTime == ""
    {
      this.store := store;
      this.today := today;
      todos, reminders := [], [];
      todoText, remText, remTime := "", "", "";
    }

    /**
     * The load effect: both stores parsed (absent or empty reads as `{}`); if
     * either text does not parse, both lists are empty and nothing is written.
     * Otherwise legacy arrays are written back as per-day maps and the lists
     * are today's entries with the text and title fields filled in.
     */
    method Load()
      modifies this
      ensures var rt, rr := ParseItemOr(old(store), TodosKey, JObj([])), ParseItemOr(old(store), RemindersKey, JObj([]));
        if rt.None? || rr.None? then
          todos == [] && reminders == [] && store == old(store)
        else
          && todos == WithTexts(DayItems(Migrate(rt.value, today), today))
          && reminders == WithTitles(DayItems(Migrate(rr.value, today), today))
          && store == Migrated(Migrated(old(store), TodosKey, rt.value, today), RemindersKey, rr.value, today)
      ensures todoText == old(todoText) && remText == old(remText) && remTime == old(remTime)
    {
      var rt, rr := ParseItemOr(store, TodosKey, JObj([])), ParseItemOr(store, RemindersKey, JObj([]));
      if rt.None? || rr.None? {
        todos, reminders := [], [];
        return;
      }
      store := Migrated(store, TodosKey, rt.value, today);
      store := Migrated(store, RemindersKey, rr.value, today);
      todos := WithTexts(DayItems(Migrate(rt.value, today), today));
      reminders := WithTitles(DayItems(Migrate(rr.value, today), today));
    }

    /** The todos persist effect; a store text that does not parse stops it before it writes. */
    method PersistTodos()
      modifies this`store
      ensures Persisted(old(store), TodosKey, today, todos).None? ==> store == old(store)
      ensures Persisted(old(store), TodosKey, today, todos).Some? ==> store == Persisted(old(store), TodosKey, today, todos).value
    {
      var next := Persisted(store, TodosKey, today, todos);
      if next.Some? {
        store := next.value;
      }
    }

    /** The reminders persist effect. */
    method PersistReminders()
      modifies this`store
      ensures Persisted(old(store), RemindersKey, today, reminders).None? ==> store == old(store)
      ensures Persisted(old(store), RemindersKey, today, reminders).Some? ==>
        store == Persisted(old(store), RemindersKey, today, reminders).value
    {
      var next := Persisted(store, RemindersKey, today, reminders);
      if next.Some? {
        store := next.value;
      }
    }

    /** `addTodo`: blank text changes nothing; otherwise an undone todo with the trimmed text goes in front. */
    method AddTodo(id: string, createdAt: int)
      modifies this`todos, this`todoText
      ensures IsBlank(old(todoText)) ==> todos == old(todos) && todoText == old(todoText)
      ensures !IsBlank(old(todoText)) ==>
        todos == [TodoItem(id, Trim(old(todoText)), createdAt)] + old(todos) && todoText == ""
    {
      if IsBlank(todoText) {
        return;
      }
      todos := [TodoItem(id, Trim(todoText), createdAt)] + todos;
      todoText := "";
    }

    method ToggleTodo(id: string)
      modifies this`todos
      ensures todos == Records.Toggled(old(todos), id, "done")
    {
      todos := Records.Toggled(todos, id, "done");
    }

    method DeleteTodo(id: string)
      modifies this`todos
      ensures todos == Deleted(old(todos), id)
    {
      todos := Deleted(todos, id);
    }

    /**
     * `addReminder`: blank text changes nothing; otherwise an unhandled
     * reminder with the trimmed title and the trimmed time, or "—" when that
     * is blank, goes in front, and both fields are cleared.
     */
    method AddReminder(id: string, createdAt: int)
      modifies this`reminders, this`remText, this`remTime
      ensures IsBlank(old(remText)) ==> reminders == old(reminders) && remText == old(remText) && remTime == old(remTime)
      ensures !IsBlank(old(remText)) ==>
        && reminders == [ReminderItem(id, Trim(old(remText)), TimeOrDash(old(remTime)), createdAt)] + old(reminders)
        && remText == "" && remTime == ""
    {
      if IsBlank(remText) {
        return;
      }
      reminders := [ReminderItem(id, Trim(remText), TimeOrDash(remTime), createdAt)] + reminders;
      remText, remTime := "", "";
    }

    method ToggleReminder(id: string)
      modifies this`reminders
      ensures reminders == Records.Toggled(old(reminders), id, "handled")
    {
      reminders := Records.Toggled(reminders, id, "handled");
    }

    method DeleteReminder(id: string)
      modifies this`reminders
      ensures reminders == Deleted(old(reminders), id)
    {
      reminders := Deleted(reminders, id);
    }
  }

  /** `remTime.trim() || "—"`. */
  function TimeOrDash(time: string): (t: string)
    ensures t != []
    ensures IsBlank(time) ==> t == NoTime
    ensures !IsBlank(time) ==> t == Trim(time)
  {
    if IsBlank(time) then NoTime else Trim(time)
  }

  /** Deleting a todo just added under a fresh id restores the list, and toggling it twice does too. */
  lemma AddThenUndo(todos: seq<Json>, text: string, id: string, createdAt: int)
    requires forall k :: 0 <= k < |todos| ==> !HasId(todos[k], id)
    ensures Deleted([TodoItem(id, text, createdAt)] + todos, id) == todos
    ensures Records.Toggled(Records.Toggled([TodoItem(id, text, createdAt)] + todos, id, "done"), id, "done")
      == [TodoItem(id, text, createdAt)] + todos
  {
    var all := [TodoItem(id, text, createdAt)] + todos;
    DeleteFreshHead(TodoItem(id, text, createdAt), todos, id);
    Records.ToggleTwice(all, id, "done");
  }
}
