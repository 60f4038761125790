/**
 * The calendar page: the month grid (Sunday to Saturday rows), and the
 * per-day reminders `{ "YYYY-MM-DD": [{id, text, time, done, createdAt}] }`
 * kept under "taskflow_calendar_reminders_v1", edited on the selected day.
 */
module CalendarPage {
  import opened Wrappers
  import opened Strings
  import opened Lists
  import opened Dates
  import opened Json
  import opened DayStore
  import opened Records

  const StorageKey: string := "taskflow_calendar_reminders_v1"
  const DefaultTime: string := "09:00"

  // ---------------------------------------------------------------- month grid

  /** A grid cell: its day (as a day number) and whether it belongs to the month shown. */
  datatype Cell = Cell(day: int, inMonth: bool)

  /** The weekday of the month's first day: the number of leading cells. */
  function Lead(year: int, month: int): (n: nat)
    requires 1 <= month <= 12
    ensures n < 7
  {
    Weekday(DayNumberOf(year, month, 1))
  }

  /** `new Date(year, month - 1, k)` counts days on from the first of the month, whatever `k` is. */
  lemma DayOffset(year: int, month: int, k: int)
    requires 1 <= month <= 12
    ensures DayNumberOf(year, month, k) == DayNumberOf(year, month, 1) + k - 1
  {
  }

  /** The smallest whole number of rows of seven holding `n` cells, counted in cells. */
  function WeekCeil(n: nat): (m: nat)
    ensures m % 7 == 0 && n <= m < n + 7
  {
    var r := n % 7;
    if r == 0 then n else
      assert n == 7 * (n / 7) + r;
      assert n + (7 - r) == 7 * (n / 7 + 1);
      n + (7 - r)
  }

  /**
   * `buildMonthGrid`: the last days of the previous month up to the first
   * weekday, the month's days in order, then days of the next month until
   * the row of seven is full.
   */
  method BuildMonthGrid(year: int, month: int) returns (cells: seq<Cell>)
    requires 1 <= month <= 12
    ensures var lead, total := Lead(year, month), DaysInMonth(year, month);
      && |cells| % 7 == 0 && lead + total <= |cells| < lead + total + 7
      && (forall k :: 0 <= k < |cells| ==> cells[k].day == DayNumberOf(year, month, 1) - lead + k)
      && (forall k :: 0 <= k < |cells| ==> (cells[k].inMonth <==> lead <= k < lead + total))
  {
    var lead, total := Lead(year, month), DaysInMonth(year, month);
    var first := DayNumberOf(year, month, 1);
    cells := [];
    var i := 0;
    while i < lead
      invariant 0 <= i <= lead && |cells| == i
      invariant forall k :: 0 <= k < |cells| ==> cells[k] == Cell(first - lead + k, false)
    {
      DayOffset(year, month, 1 - (lead - i));
      cells := cells + [Cell(DayNumberOf(year, month, 1 - (lead - i)), false)];
      i := i + 1;
    }
    var day := 1;
    while day <= total
      invariant 1 <= day <= total + 1 && |cells| == lead + day - 1
      invariant forall k :: 0 <= k < |cells| ==> cells[k] == Cell(first - lead + k, lead <= k)
    {
      DayOffset(year, month, day);
      cells := cells + [Cell(DayNumberOf(year, month, day), true)];
      day := day + 1;
    }
    var full := WeekCeil(lead + total);
    while |cells| < full
      invariant lead + total <= |cells| <= full
      invariant forall k :: 0 <= k < |cells| ==> cells[k] == Cell(first - lead + k, lead <= k < lead + total)
    {
      var d := total + (|cells| - (lead + total)) + 1;
      DayOffset(year, month, d);
      cells := cells + [Cell(DayNumberOf(year, month, d), false)];
    }
  }

  /** The grid starts on a Sunday and shows the first and the last day of the month, marked as in the month. */
  lemma GridStartsOnSunday(year: int, month: int)
    requires 1 <= month <= 12
    ensures Weekday(DayNumberOf(year, month, 1) - Lead(year, month)) == 0
  {
    var n := DayNumberOf(year, month, 1);
    WeekdayShift(n, -(Lead(year, month) as int));
  }

  // ---------------------------------------------------------------- reminders of a day

  /** A new calendar reminder: `{ id, text, time, done: false, createdAt }`. */
  function ReminderItem(id: string, text: string, time: string, createdAt: int): Json
  {
    JObj([("id", JStr(id)), ("text", JStr(text)), ("time", JStr(time)), ("done", JBool(false)),
          ("createdAt", JNum(createdAt))])
  }

  /** The new reminder has the id, the text, the time and is not done. */
  lemma ReminderItemFields(id: string, text: string, time: string, createdAt: int)
    ensures var x := ReminderItem(id, text, time, createdAt);
      && HasId(x, id) && Get(x, "text") == Some(JStr(text)) && Get(x, "time") == Some(JStr(time))
      && Get(x, "done") == Some(JBool(false))
  {
    var f := [("id", JStr(id)), ("text", JStr(text)), ("time", JStr(time)), ("done", JBool(false)),
              ("createdAt", JNum(createdAt))];
    assert UniqueKeys(f) by {
      assert f[1].0[1] != f[2].0[1];
    }
    LookupUnique(f);
    assert f[0].0 == "id" && f[1].0 == "text" && f[2].0 == "time" && f[3].0 == "done";
  }

  /** `String(newTime || "").trim() || "09:00"`. */
  function TimeOrDefault(time: string): (t: string)
    ensures t != []
    ensures IsBlank(time) ==> t == DefaultTime
    ensures !IsBlank(time) ==> t == Trim(time)
  {
    if IsBlank(time) then DefaultTime else Trim(time)
  }

  function Done(): Json -> bool
  {
    (x: Json) => Truthy(Get(x, "done"))
  }

  function NotDone(): Json -> bool
  {
    (x: Json) => !Truthy(Get(x, "done"))
  }

  /** The pending and the completed reminders of a day: split by `done`, each in list order. */
  function Split(day: seq<Json>): (r: (seq<Json>, seq<Json>))
    ensures forall x :: x in r.0 <==> x in day && !Truthy(Get(x, "done"))
    ensures forall x :: x in r.1 <==> x in day && Truthy(Get(x, "done"))
    ensures multiset(r.0) + multiset(r.1) == multiset(day)
  {
    FilterPartition(day, Done(), NotDone());
    (Filter(day, NotDone()), Filter(day, Done()))
  }

  /** `loadFromStorage`: the stored object, or `{}` when the key is absent, empty or unreadable. */
  function Loaded(st: Storage): (r: Days)
    ensures StorageKey !in st || !st[StorageKey].Doc? ==> r == []
    ensures StorageKey in st && st[StorageKey].Doc? && st[StorageKey].v.JObj? ==> r == st[StorageKey].v.fields
  {
    if StorageKey in st && st[StorageKey].Doc? && st[StorageKey].v.JObj? then st[StorageKey].v.fields else []
  }

  /** Saving the map and loading it again gives the same map. */
  lemma SaveThenLoad(st: Storage, days: Days)
    ensures Loaded(SetItem(st, StorageKey, JObj(days))) == days
  {
  }

  /** The calendar page's state: the reminders map, the selected day, the add form and the storage. */
  class Calendar {
    var store: Storage
    var reminders: Days
    var selected: string
    var newText: string
    var newTime: string
    var showAdd: bool

    constructor(store: Storage, today: string)
      ensures this.store == store && reminders == [] && selected == today
      ensures newText == "" && newTime == DefaultTime && !showAdd
    {
      this.store := store;
      reminders := [];
      selected := today;
      newText, newTime, showAdd := "", DefaultTime, false;
    }

    method LoadFromStorage()
      modifies this`reminders
      ensures reminders == Loaded(store)
    {
      reminders := Loaded(store);
    }

    /** The save effect. */
    method Save()
      modifies this`store
      ensures store == SetItem(old(store), StorageKey, JObj(reminders))
    {
      store := SetItem(store, StorageKey, JObj(reminders));
    }

    method Select(iso: string)
      modifies this`selected
      ensures selected == iso
    {
      selected := iso;
    }

    method OpenAdd()
      modifies this`newText, this`newTime, this`showAdd
      ensures newText == "" && newTime == DefaultTime && showAdd
    {
      newText, newTime, showAdd := "", DefaultTime, true;
    }

    /**
     * `addReminder`: blank text changes nothing; otherwise the selected day's
     * list gains the new reminder in front, every other day is kept, and the
     * form closes (its text is not cleared).
     */
    method AddReminder(id: string, createdAt: int)
      modifies this`reminders, this`showAdd
      ensures IsBlank(newText) ==> reminders == old(reminders) && showAdd == old(showAdd)
      ensures !IsBlank(newText) ==>
        && reminders == Prepend(old(reminders), selected, ReminderItem(id, Trim(newText), TimeOrDefault(newTime), createdAt))
        && !showAdd
    {
      if !IsBlank(newText) {
        var item := ReminderItem(id, Trim(newText), TimeOrDefault(newTime), createdAt);
        reminders, showAdd := Prepend(reminders, selected, item), false;
      }
    }

    /** `toggleDone`: `done` flipped on the matching reminders of the selected day only. */
    method ToggleDone(id: string)
      modifies this`reminders
      ensures reminders == SetDay(old(reminders), selected, Records.Toggled(DayItems(old(reminders), selected), id, "done"))
    {
      reminders := SetDay(reminders, selected, Records.Toggled(DayItems(reminders, selected), id, "done"));
    }

    /** `deleteReminder`: the id removed from the selected day only. */
    method DeleteReminder(id: string)
      modifies this`reminders
      ensures reminders == SetDay(old(reminders), selected, Deleted(DayItems(old(reminders), selected), id))
    {
      reminders := SetDay(reminders, selected, Deleted(DayItems(reminders, selected), id));
    }
  }

  /** Adding on a day puts the item in front of that day's list and leaves every other day as it was. */
  lemma AddTouchesOnlySelected(days: Days, selected: string, item: Json, other: string)
    requires other != selected
    ensures DayItems(Prepend(days, selected, item), selected) == [item] + DayItems(days, selected)
    ensures DayItems(Prepend(days, selected, item), other) == DayItems(days, other)
  {
  }

  /** Toggling and deleting change the selected day only: every other day keeps its list. */
  lemma EditTouchesOnlySelected(days: Days, selected: string, id: string, other: string)
    requires other != selected
    ensures DayItems(SetDay(days, selected, Records.Toggled(DayItems(days, selected), id, "done")), other) == DayItems(days, other)
    ensures DayItems(SetDay(days, selected, Deleted(DayItems(days, selected), id)), other) == DayItems(days, other)
  {
  }
}
