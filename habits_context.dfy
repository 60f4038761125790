/**
 * The habits context: habits `{id, title, completions}` kept newest first
 * under "taskflow_habits_v1", where `completions` lists the "YYYY-MM-DD"
 * days the habit was done, and the streak of consecutive days ending today.
 */
module HabitsContext {
  import opened Wrappers
  import opened Lists
  import opened Dates

  const StorageKey: string := "taskflow_habits_v1"

  datatype Habit = Habit(id: string, title: string, completions: seq<string>)

  function HabitId(h: Habit): string { h.id }

  /** `addHabit({ title })`: a new habit with no completions, in front. */
  function AddedHabit(hs: seq<Habit>, title: string, id: string): (r: seq<Habit>)
    ensures |r| == |hs| + 1 && r[1..] == hs
    ensures r[0].id == id && r[0].title == title && r[0].completions == []
  {
    [Habit(id, title, [])] + hs
  }

  /** `removeHabit`. */
  function RemovedHabit(hs: seq<Habit>, id: string): (r: seq<Habit>)
    ensures forall k :: 0 <= k < |r| ==> r[k].id != id && r[k] in hs
    ensures forall k :: 0 <= k < |hs| && hs[k].id != id ==> hs[k] in r
  {
    WithoutId(hs, id, HabitId)
  }

  /** Removing a habit just added under a fresh id restores the list. */
  lemma RemoveUndoesAdd(hs: seq<Habit>, title: string, id: string)
    requires forall k :: 0 <= k < |hs| ==> hs[k].id != id
    ensures RemovedHabit(AddedHabit(hs, title, id), id) == hs
  {
    WithoutFreshHead(Habit(id, title, []), hs, HabitId);
  }

  function NotDay(day: string): string -> bool
  {
    (d: string) => d != day
  }

  /** A day's completion switched: every occurrence of the day removed when it is there, else the day appended. */
  function ToggleDay(completions: seq<string>, day: string): (r: seq<string>)
    ensures day in completions ==> day !in r && forall d :: d in r <==> d in completions && d != day
    ensures day !in completions ==> r == completions + [day]
  {
    if day in completions then Filter(completions, NotDay(day)) else completions + [day]
  }

  /** Switching a day that is not there on and off again restores the completions. */
  lemma ToggleDayTwice(completions: seq<string>, day: string)
    requires day !in completions
    ensures ToggleDay(ToggleDay(completions, day), day) == completions
  {
    var once := completions + [day];
    assert day in once;
    FilterAppend(completions, [day], NotDay(day));
    FilterAll(completions, NotDay(day));
    assert Filter([day], NotDay(day)) == [];
  }

  function ToggleOn(today: string): Habit -> Habit
  {
    (h: Habit) => h.(completions := ToggleDay(h.completions, today))
  }

  /** `toggleToday`: today switched on the habits with that id, every other habit and field kept. */
  function ToggledToday(hs: seq<Habit>, id: string, today: string): (r: seq<Habit>)
    ensures |r| == |hs|
    ensures forall k :: 0 <= k < |hs| && hs[k].id == id ==>
      r[k].id == hs[k].id && r[k].title == hs[k].title && r[k].completions == ToggleDay(hs[k].completions, today)
    ensures forall k :: 0 <= k < |hs| && hs[k].id != id ==> r[k] == hs[k]
  {
    UpdateId(hs, id, HabitId, ToggleOn(today))
  }

  /** Toggling today twice on a habit not done today restores the list. */
  lemma ToggleTodayTwice(hs: seq<Habit>, id: string, today: string)
    requires forall k :: 0 <= k < |hs| && hs[k].id == id ==> today !in hs[k].completions
    ensures ToggledToday(ToggledToday(hs, id, today), id, today) == hs
  {
    var once := ToggledToday(hs, id, today);
    var twice := ToggledToday(once, id, today);
    forall k | 0 <= k < |hs| ensures twice[k] == hs[k] {
      if hs[k].id == id {
        ToggleDayTwice(hs[k].completions, today);
      }
    }
  }

  /** `d.setDate(d.getDate() - 1)` applied `k` times. */
  function DaysBack(today: Date, k: nat): (r: Date)
    requires Valid(today)
    ensures Valid(r)
  {
    if k == 0 then today else PrevDay(DaysBack(today, k - 1))
  }

  lemma {:induction false} DaysBackNumber(today: Date, k: nat)
    requires Valid(today)
    ensures DayNumber(DaysBack(today, k)) == DayNumber(today) - k
  {
    if k > 0 {
      DaysBackNumber(today, k - 1);
      PrevDayNumber(DaysBack(today, k - 1));
    }
  }

  /** Different steps back reach days with different texts. */
  lemma DaysBackDistinct(today: Date, j: nat, k: nat)
    requires Valid(today) && j != k
    ensures FormatIso(DaysBack(today, j)) != FormatIso(DaysBack(today, k))
  {
    DaysBackNumber(today, j);
    DaysBackNumber(today, k);
    if FormatIso(DaysBack(today, j)) == FormatIso(DaysBack(today, k)) {
      FormatIsoInjective(DaysBack(today, j), DaysBack(today, k));
    }
  }

  /** `n` is the streak ending on `today`: the `n` days up to today are all in the list, the day before them is not. */
  ghost predicate IsStreak(list: seq<string>, today: Date, n: nat)
    requires Valid(today)
  {
    AllIn(list, today, n) && FormatIso(DaysBack(today, n)) !in list
  }

  /** The `n` days up to today are all in the list. */
  ghost predicate AllIn(list: seq<string>, today: Date, n: nat)
    requires Valid(today)
  {
    forall k :: 0 <= k < n ==> FormatIso(DaysBack(today, k)) in list
  }

  lemma AllInStep(list: seq<string>, today: Date, n: nat)
    requires Valid(today) && AllIn(list, today, n) && FormatIso(DaysBack(today, n)) in list
    ensures AllIn(list, today, n + 1)
  {
  }

  /** The streak is well defined: one number at most meets the description. */
  lemma StreakUnique(list: seq<string>, today: Date, a: nat, b: nat)
    requires Valid(today) && IsStreak(list, today, a) && IsStreak(list, today, b)
    ensures a == b
  {
    var fa, fb := FormatIso(DaysBack(today, a)), FormatIso(DaysBack(today, b));
    assert a < b ==> fa in list;
    assert b < a ==> fb in list;
  }

  /** Without today in the list the streak is 0. */
  lemma StreakWithoutToday(list: seq<string>, today: Date, n: nat)
    requires Valid(today) && IsStreak(list, today, n) && FormatIso(today) !in list
    ensures n == 0
  {
    var first := FormatIso(DaysBack(today, 0));
    assert first == FormatIso(today);
    assert n > 0 ==> first in list;
  }

  /** The different days in the list: `new Set(list)`. */
  function Days(list: seq<string>): set<string>
  {
    set d | d in list
  }

  /** A sequence of different values all drawn from `b` is no longer than `b` is large. */
  lemma {:induction false} DistinctWithin<T>(s: seq<T>, b: set<T>)
    requires forall i, j :: 0 <= i < j < |s| ==> s[i] != s[j]
    requires forall i :: 0 <= i < |s| ==> s[i] in b
    ensures |s| <= |b|
  {
    if s != [] {
      var last := s[|s| - 1];
      var rest := s[..|s| - 1];
      forall i | 0 <= i < |rest| ensures rest[i] in b - {last} {
        assert rest[i] == s[i] && s[i] != s[|s| - 1];
      }
      DistinctWithin(rest, b - {last});
    }
  }

  /** When the first `n` days back are all in the list, the list has at least `n` different days. */
  lemma StreakWithinDays(list: seq<string>, today: Date, n: nat)
    requires Valid(today) && AllIn(list, today, n)
    ensures n <= |Days(list)|
  {
    var texts := seq(n, k requires 0 <= k < n => FormatIso(DaysBack(today, k)));
    forall i, j | 0 <= i < j < n ensures texts[i] != texts[j] {
      DaysBackDistinct(today, i, j);
    }
    DistinctWithin(texts, Days(list));
  }

  /**
   * `computeStreak`: step back from today one day at a time while the day is
   * in the list. The days visited are all different, so the loop stops after
   * at most as many steps as the list has different days.
   */
  method ComputeStreak(list: seq<string>, today: Date) returns (streak: nat)
    requires Valid(today)
    ensures IsStreak(list, today, streak)
    ensures streak <= |Days(list)|
  {
    streak := 0;
    var d := today;
    while FormatIso(d) in list
      invariant d == DaysBack(today, streak)
      invariant AllIn(list, today, streak) && streak <= |Days(list)|
      decreases |Days(list)| - streak
    {
      AllInStep(list, today, streak);
      StreakWithinDays(list, today, streak + 1);
      streak := streak + 1;
      d := PrevDay(d);
    }
  }

  /** The habits context: the list, newest first. */
  class HabitList {
    var habits: seq<Habit>

    /** Loading: the stored list, or `[]` when the key is absent, null or unreadable (`saved` is `None`). */
    constructor(saved: Option<seq<Habit>>)
      ensures habits == saved.GetOr([])
    {
      habits := saved.GetOr([]);
    }

    method AddHabit(title: string, id: string)
      modifies this
      ensures habits == AddedHabit(old(habits), title, id)
    {
      habits := AddedHabit(habits, title, id);
    }

    method RemoveHabit(id: string)
      modifies this
      ensures habits == RemovedHabit(old(habits), id)
    {
      habits := RemovedHabit(habits, id);
    }

    method ToggleToday(id: string, today: string)
      modifies this
      ensures habits == ToggledToday(old(habits), id, today)
    {
      habits := ToggledToday(habits, id, today);
    }
  }
}
